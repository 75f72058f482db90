/** `/api/admin/subscribers`: the active subscriptions with their users' contact details, read by
    an admin only. */
module AdminSubscribers {
  import opened Common
  import Seqs
  import opened UserModel
  import opened SubscriptionModel

  /** The populated `userId`, projected to `email` and `name`; `None` where the reference does
      not resolve (or the stored name is absent). */
  datatype SubscriberUser = SubscriberUser(email: Option<string>, name: Option<string>)

  datatype SubscriberRow = SubscriberRow(
    id: Id,
    user: SubscriberUser,
    subscribedAt: Option<Time>,
    expiresAt: Option<Time>,
    isActive: Option<bool>)

  /** `Thrown` is an uncaught throw, which Next.js answers with a bare 500. */
  datatype SubscribersBody = SubscriberList(rows: seq<SubscriberRow>) | Failure(error: string) | Thrown

  predicate IsActivePlan(p: Plan) {
    p.extra.isActive == Some(true)
  }

  /** An absent instant read as the sort's null, below every instant. */
  function OptTime(t: Option<Time>): int {
    match t
    case None => -1
    case Some(v) => v
  }

  /** The sort key: a document without `subscribedAt` sorts as null. */
  function SubscribedKey(p: Plan): int {
    OptTime(p.extra.subscribedAt)
  }

  /** `populate("userId", "email name")`: the referenced user's address and name, when it resolves. */
  function Populate(userId: Option<Id>, users: seq<User>): (su: SubscriberUser)
    ensures su.email.Some? <==> userId.Some? && exists i :: 0 <= i < |users| && users[i].id == userId.value
    ensures su.email.Some? ==> exists i :: 0 <= i < |users| && users[i].id == userId.value
                                           && su.email.value == users[i].email && su.name == users[i].name
    ensures su.email.None? ==> su.name.None?
  {
    if userId.None? then SubscriberUser(None, None)
    else match Seqs.IndexOf(users, UserKey, userId.value)
      case None => SubscriberUser(None, None)
      case Some(i) => SubscriberUser(Some(users[i].email), users[i].name)
  }

  function Project(p: Plan, users: seq<User>): SubscriberRow {
    SubscriberRow(p.id, Populate(p.extra.userId, users), p.extra.subscribedAt, p.extra.expiresAt, p.extra.isActive)
  }

  /** `find({ isActive: true }).sort({ subscribedAt: -1 })`. */
  function Selected(plans: seq<Plan>): seq<Plan> {
    Seqs.SortDesc(Seqs.Filter(plans, IsActivePlan), SubscribedKey)
  }

  /** The `map` projection, one row per selected document, in order. */
  function Rows(selected: seq<Plan>, users: seq<User>): (rows: seq<SubscriberRow>)
    ensures |rows| == |selected|
    ensures forall k :: 0 <= k < |selected| ==> rows[k] == Project(selected[k], users)
  {
    seq(|selected|, k requires 0 <= k < |selected| => Project(selected[k], users))
  }

  /** `GET`: 403 without an admin session, otherwise the projected active subscriptions. */
  function Get(session: Session, plans: seq<Plan>, users: seq<User>): (r: Response<SubscribersBody>)
    ensures (session.None? || session.value.role != "admin") <==> r == Response(403, Failure("Unauthorized"))
    ensures r.status == 200 ==> r.body == SubscriberList(Rows(Selected(plans), users))
  {
    if session.None? || session.value.role != "admin" then Response(403, Failure("Unauthorized"))
    else Response(200, SubscriberList(Rows(Selected(plans), users)))
  }

  /** The listing has one row per active plan document, every row active. */
  lemma RowsCount(plans: seq<Plan>, users: seq<User>)
    ensures |Rows(Selected(plans), users)| == Seqs.Count(plans, IsActivePlan)
    ensures forall row :: row in Rows(Selected(plans), users) ==> row.isActive == Some(true)
  {
    var active := Seqs.Filter(plans, IsActivePlan);
    Seqs.SortDescSpec(active, SubscribedKey);
    var sel := Selected(plans);
    var rows := Rows(sel, users);
    forall row | row in rows ensures row.isActive == Some(true) {
      var k :| 0 <= k < |rows| && rows[k] == row;
      assert sel[k] in active;
    }
  }

  /** Rows come newest subscription first. */
  lemma RowsOrder(plans: seq<Plan>, users: seq<User>)
    ensures forall j, k :: 0 <= j < k < |Rows(Selected(plans), users)| ==>
              OptTime(Rows(Selected(plans), users)[j].subscribedAt) >= OptTime(Rows(Selected(plans), users)[k].subscribedAt)
  {
    var sel := Selected(plans);
    Seqs.SortDescSpec(Seqs.Filter(plans, IsActivePlan), SubscribedKey);
    var rows := Rows(sel, users);
    forall j, k | 0 <= j < k < |rows| ensures OptTime(rows[j].subscribedAt) >= OptTime(rows[k].subscribedAt) {
      assert SubscribedKey(sel[j]) >= SubscribedKey(sel[k]);
    }
  }

  /** A plan has a row exactly when it is active. */
  lemma RowsExact(plans: seq<Plan>, users: seq<User>)
    ensures forall p :: p in plans && IsActivePlan(p) ==> Project(p, users) in Rows(Selected(plans), users)
    ensures forall row :: row in Rows(Selected(plans), users) ==>
              exists p :: p in plans && IsActivePlan(p) && row == Project(p, users)
  {
    var active := Seqs.Filter(plans, IsActivePlan);
    Seqs.SortDescSpec(active, SubscribedKey);
    var sel := Selected(plans);
    var rows := Rows(sel, users);
    forall p | p in plans && IsActivePlan(p) ensures Project(p, users) in rows {
      var k :| 0 <= k < |sel| && sel[k] == p;
      assert rows[k] == Project(p, users);
    }
    forall row | row in rows ensures exists p :: p in plans && IsActivePlan(p) && row == Project(p, users) {
      var k :| 0 <= k < |rows| && rows[k] == row;
      assert sel[k] in active;
    }
  }

  // ---------------------------------------------------------------------------
  // The handler as written against the declared schema

  /** A row read from a hydrated document of the strict plan schema: no accessor exists for the
      undeclared `userId`, `subscribedAt`, `expiresAt` and `isActive`, so each reads `undefined`
      and only the id reaches the JSON. */
  function RowAsWritten(p: Plan): (row: SubscriberRow)
    ensures row.id == p.id
    ensures row.user == SubscriberUser(None, None)
    ensures row.subscribedAt.None? && row.expiresAt.None? && row.isActive.None?
  {
    SubscriberRow(p.id, SubscriberUser(None, None), None, None, None)
  }

  /** `GET` as written. With `strictPopulate` on, populating the undeclared `userId` throws as soon
      as a document is selected; with it off, every selected document yields a `RowAsWritten`. */
  function GetAsWritten(session: Session, plans: seq<Plan>, strictPopulate: bool): (r: Response<SubscribersBody>)
    ensures (session.None? || session.value.role != "admin") <==> r == Response(403, Failure("Unauthorized"))
    ensures r == Response(500, Thrown) <==>
              session.Some? && session.value.role == "admin" && strictPopulate && |Selected(plans)| > 0
    ensures r.status == 200 ==> r.body.SubscriberList? && |r.body.rows| == |Selected(plans)|
    ensures r.status == 200 ==> forall k :: 0 <= k < |r.body.rows| ==> r.body.rows[k] == RowAsWritten(Selected(plans)[k])
  {
    if session.None? || session.value.role != "admin" then Response(403, Failure("Unauthorized"))
    else if strictPopulate && |Selected(plans)| > 0 then Response(500, Thrown)
    else
      var sel := Selected(plans);
      Response(200, SubscriberList(seq(|sel|, k requires 0 <= k < |sel| => RowAsWritten(sel[k]))))
  }

  /** The discrepancy: an admin asking while some plan is active gets a 500 under `strictPopulate`,
      and otherwise a listing in which that plan's row lost its user, dates and flag; the listing
      of the declared-schema `Get` holds the row. */
  lemma AsWrittenLosesActivePlan(session: Session, plans: seq<Plan>, users: seq<User>, p: Plan)
    requires session.Some? && session.value.role == "admin"
    requires p in plans && IsActivePlan(p)
    ensures GetAsWritten(session, plans, true) == Response(500, Thrown)
    ensures GetAsWritten(session, plans, false).status == 200
    ensures Project(p, users) !in GetAsWritten(session, plans, false).body.rows
    ensures Project(p, users) in Get(session, plans, users).body.rows
  {
    Seqs.SortDescSpec(Seqs.Filter(plans, IsActivePlan), SubscribedKey);
    assert p in Selected(plans);
    RowsExact(plans, users);
    var rows := GetAsWritten(session, plans, false).body.rows;
    assert forall row :: row in rows ==> row.isActive.None?;
  }
}
