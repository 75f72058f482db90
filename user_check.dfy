/** `/api/user/check`: whether the signed-in user has completed their profile. */
module UserCheck {
  import opened Common
  import Seqs
  import opened UserModel

  datatype CheckBody = CheckBody(profileCompleted: bool)

  /** `GET`: true without a session address (nothing to ask for), otherwise the stored flag of the
      first user with that address, false when there is none. It writes nothing. */
  function Get(session: Session, users: seq<User>): (r: Response<CheckBody>)
    ensures r.status == 200
    ensures (session.None? || session.value.email == "") ==> r.body.profileCompleted
    ensures session.Some? && session.value.email != "" ==>
              (r.body.profileCompleted <==>
                 exists i :: 0 <= i < |users| && users[i].email == session.value.email && users[i].profileCompleted
                             && forall j :: 0 <= j < i ==> users[j].email != session.value.email)
  {
    if session.None? || session.value.email == "" then Response(200, CheckBody(true))
    else match Seqs.IndexOf(users, EmailOf, session.value.email)
      case None => Response(200, CheckBody(false))
      case Some(i) => Response(200, CheckBody(users[i].profileCompleted))
  }

  /** With unique addresses the answer is simply the stored flag of the user with that address. */
  lemma GetWithUniqueEmails(session: Session, users: seq<User>, i: nat)
    requires UniqueEmails(users) && session.Some? && session.value.email != ""
    requires i < |users| && users[i].email == session.value.email
    ensures Get(session, users).body.profileCompleted == users[i].profileCompleted
  {
    var j := Seqs.IndexOf(users, EmailOf, session.value.email).value;
    assert j == i;
  }
}
