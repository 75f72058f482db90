/** `/api/user/update`: completing a profile with location, age and phone. */
module UserUpdate {
  import opened Common
  import Seqs
  import opened Database
  import opened UserModel

  /** The JSON body; "" stands for an absent or empty `email`, `None` for a key left out. */
  datatype ProfileBody = ProfileBody(email: string, location: Option<string>, age: Option<int>, phone: Option<string>)

  datatype UpdateBody = Updated(user: User) | Failure(error: string)

  /** `body.email || session?.user?.email`: "" when neither gives an address. */
  function TargetEmail(session: Session, body: ProfileBody): (email: string)
    ensures body.email != "" ==> email == body.email
    ensures body.email == "" ==> email == (if session.Some? then session.value.email else "")
  {
    if body.email != "" then body.email
    else if session.Some? then session.value.email
    else ""
  }

  /** The update document: the three given fields (left-out keys are dropped) and
      `profileCompleted: true`. */
  function ApplyProfile(u: User, body: ProfileBody): (r: User)
    ensures r.profileCompleted
    ensures r.location == (if body.location.Some? then body.location else u.location)
    ensures r.age == (if body.age.Some? then body.age else u.age)
    ensures r.phone == (if body.phone.Some? then body.phone else u.phone)
  {
    u.(location := if body.location.Some? then body.location else u.location,
       age := if body.age.Some? then body.age else u.age,
       phone := if body.phone.Some? then body.phone else u.phone,
       profileCompleted := true)
  }

  /** The profile update leaves identity, role and entitlement as they were, and applying it twice
      is applying it once. */
  lemma ApplyProfileKeeps(u: User, body: ProfileBody)
    ensures var r := ApplyProfile(u, body);
            && r.id == u.id && r.email == u.email && r.role == u.role && r.name == u.name
            && r.isSubscribed == u.isSubscribed && r.planType == u.planType && r.planExpiry == u.planExpiry
            && r.oneSignalUserId == u.oneSignalUserId
    ensures ApplyProfile(ApplyProfile(u, body), body) == ApplyProfile(u, body)
  {
  }

  /** `POST`: 401 without any address, 404 when no user has it, otherwise the first user with
      that address is updated and returned. The address in the body is trusted as is. */
  method Post(db: Db, session: Session, body: ProfileBody) returns (resp: Response<UpdateBody>)
    requires db.Valid()
    modifies db`users
    ensures db.Valid()
    ensures TargetEmail(session, body) == "" ==> resp == Response(401, Failure("Unauthorized")) && db.users == old(db.users)
    ensures TargetEmail(session, body) != "" && Seqs.IndexOf(old(db.users), EmailOf, TargetEmail(session, body)).None? ==>
              resp == Response(404, Failure("User not found")) && db.users == old(db.users)
    ensures TargetEmail(session, body) != "" && Seqs.IndexOf(old(db.users), EmailOf, TargetEmail(session, body)).Some? ==>
              var i := Seqs.IndexOf(old(db.users), EmailOf, TargetEmail(session, body)).value;
              && db.users == old(db.users)[i := ApplyProfile(old(db.users)[i], body)]
              && resp == Response(200, Updated(db.users[i]))
  {
    var email := TargetEmail(session, body);
    if email == "" {
      return Response(401, Failure("Unauthorized"));
    }
    var found := Seqs.IndexOf(db.users, EmailOf, email);
    if found.None? {
      return Response(404, Failure("User not found"));
    }
    var i := found.value;
    var updated := ApplyProfile(db.users[i], body);
    assert EntitlementConsistent(db.users[i]);
    db.ReplaceUser(i, updated);
    resp := Response(200, Updated(updated));
  }
}
