/** `/api/saveOneSignalId`: recording the session user's push subscription id. */
module SavePushId {
  import opened Common
  import Seqs
  import opened Database
  import opened UserModel

  datatype SaveBody = Success | Failure(error: string)

  /** The update `{ oneSignalUserId }`: `None` is a body without the key (the update is then
      empty), `Some(v)` sets the field to `v`, which may itself be null. */
  function SetPushId(u: User, pushId: Option<Option<string>>): (r: User)
    ensures pushId.None? ==> r == u
    ensures pushId.Some? ==> r.oneSignalUserId == pushId.value
    ensures r.(oneSignalUserId := u.oneSignalUserId) == u
  {
    if pushId.Some? then u.(oneSignalUserId := pushId.value) else u
  }

  /** `POST`: 401 without a session address; otherwise the first user with that address, if any,
      gets the id, and the answer is success whether or not a user matched. */
  method Post(db: Db, session: Session, pushId: Option<Option<string>>) returns (resp: Response<SaveBody>)
    requires db.Valid()
    modifies db`users
    ensures db.Valid()
    ensures (session.None? || session.value.email == "") ==>
              resp == Response(401, Failure("Not authenticated")) && db.users == old(db.users)
    ensures session.Some? && session.value.email != "" ==> resp == Response(200, Success)
    ensures session.Some? && session.value.email != "" ==>
              match Seqs.IndexOf(old(db.users), EmailOf, session.value.email)
              case None => db.users == old(db.users)
              case Some(i) => db.users == old(db.users)[i := SetPushId(old(db.users)[i], pushId)]
  {
    if session.None? || session.value.email == "" {
      return Response(401, Failure("Not authenticated"));
    }
    var found := Seqs.IndexOf(db.users, EmailOf, session.value.email);
    if found.Some? {
      var i := found.value;
      assert EntitlementConsistent(db.users[i]);
      db.ReplaceUser(i, SetPushId(db.users[i], pushId));
    }
    resp := Response(200, Success);
  }
}
