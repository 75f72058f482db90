/** `/api/admin/login-history`: every login record, newest first, joined with its user, read by an
    admin only. */
module AdminLoginHistory {
  import opened Common
  import Seqs
  import opened UserModel
  import opened LoginHistoryModel

  /** The joined user: e-mail ("Unknown" when missing), full name and location (null when missing). */
  datatype LoginUser = LoginUser(email: string, fullName: Option<string>, location: Option<string>)

  datatype LoginRow = LoginRow(
    id: Id,
    loginAt: Time,
    ipAddress: Option<string>,
    userAgent: Option<string>,
    success: bool,
    user: LoginUser)

  datatype LoginHistoryBody = LoginList(rows: seq<LoginRow>) | Failure(error: string)

  /** `User.findById(login.userId)` and the defaults applied to what it gives. */
  function JoinUser(userId: Id, users: seq<User>): (lu: LoginUser)
    ensures (forall i :: 0 <= i < |users| ==> users[i].id != userId) ==> lu == LoginUser("Unknown", None, None)
    ensures lu.email != ""
  {
    match Seqs.IndexOf(users, UserKey, userId)
    case None => LoginUser("Unknown", None, None)
    case Some(i) =>
      var u := users[i];
      LoginUser(if u.email == "" then "Unknown" else u.email, OrNull(u.name), OrNull(u.location))
  }

  function Join(l: LoginRecord, users: seq<User>): LoginRow {
    LoginRow(l.id, l.loginAt, l.ipAddress, l.userAgent, l.success, JoinUser(l.userId, users))
  }

  /** The `map` over the sorted records, one row each, in order. */
  function Rows(logins: seq<LoginRecord>, users: seq<User>): (rows: seq<LoginRow>)
    ensures |rows| == |logins|
    ensures forall k :: 0 <= k < |logins| ==> rows[k] == Join(logins[k], users)
  {
    seq(|logins|, k requires 0 <= k < |logins| => Join(logins[k], users))
  }

  /** `GET`: 403 without an admin session, otherwise all records by `loginAt` descending, joined. */
  function Get(session: Session, logins: seq<LoginRecord>, users: seq<User>): (r: Response<LoginHistoryBody>)
    ensures (session.None? || session.value.role != "admin") <==> r == Response(403, Failure("Not authorized"))
    ensures r.status == 200 ==> r.body == LoginList(Rows(Seqs.SortDesc(logins, LoginAt), users))
  {
    if session.None? || session.value.role != "admin" then Response(403, Failure("Not authorized"))
    else Response(200, LoginList(Rows(Seqs.SortDesc(logins, LoginAt), users)))
  }

  /** One row per record, newest first, each copying its record's own fields, and every record
      represented. */
  lemma RowsSpec(logins: seq<LoginRecord>, users: seq<User>)
    ensures |Rows(Seqs.SortDesc(logins, LoginAt), users)| == |logins|
    ensures forall j, k :: 0 <= j < k < |logins| ==>
              Rows(Seqs.SortDesc(logins, LoginAt), users)[j].loginAt >= Rows(Seqs.SortDesc(logins, LoginAt), users)[k].loginAt
    ensures forall l :: l in logins ==> Join(l, users) in Rows(Seqs.SortDesc(logins, LoginAt), users)
    ensures forall row :: row in Rows(Seqs.SortDesc(logins, LoginAt), users) ==>
              exists l :: l in logins && row.id == l.id && row.loginAt == l.loginAt && row.ipAddress == l.ipAddress
                          && row.userAgent == l.userAgent && row.success == l.success
  {
    var sorted := Seqs.SortDesc(logins, LoginAt);
    var rows := Rows(sorted, users);
    Seqs.SortDescSpec(logins, LoginAt);
    forall j, k | 0 <= j < k < |logins| ensures rows[j].loginAt >= rows[k].loginAt {
      assert LoginAt(sorted[j]) >= LoginAt(sorted[k]);
    }
    forall l | l in logins ensures Join(l, users) in rows {
      var k :| 0 <= k < |sorted| && sorted[k] == l;
      assert rows[k] == Join(l, users);
    }
    forall row | row in rows
      ensures exists l :: l in logins && row.id == l.id && row.loginAt == l.loginAt && row.ipAddress == l.ipAddress
                          && row.userAgent == l.userAgent && row.success == l.success
    {
      var k :| 0 <= k < |rows| && rows[k] == row;
      assert sorted[k] in logins;
    }
  }
}
