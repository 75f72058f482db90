/** The `User` collection's schema: profile fields, role and entitlement. */
module UserModel {
  import opened Common
  import Seqs

  datatype User = User(
    id: Id,
    name: Option<string>,
    email: string,
    image: Option<string>,
    role: string,
    location: Option<string>,
    age: Option<int>,
    phone: Option<string>,
    profileCompleted: bool,
    isSubscribed: bool,
    planType: Option<Category>,
    planExpiry: Option<Time>,
    oneSignalUserId: Option<string>,
    createdAt: Time)

  function UserKey(u: User): Id { u.id }

  function EmailOf(u: User): string { u.email }

  /** `User.create({ name, email, image, role })`: every field the caller leaves out takes its schema default. */
  function NewUser(id: Id, name: Option<string>, email: string, image: Option<string>,
                   role: Option<string>, now: Time): (u: User)
    ensures u.id == id && u.email == email && u.name == name && u.image == image
    ensures u.role == (if role.Some? then role.value else "user")
    ensures !u.isSubscribed && !u.profileCompleted
    ensures u.planType == None && u.planExpiry == None && u.oneSignalUserId == None
    ensures u.location == None && u.age == None && u.phone == None
  {
    User(id, name, email, image, role.GetOr("user"), None, None, None,
         false, false, None, None, None, now)
  }

  /** Entitlement is active when subscribed with an expiry strictly after `now`. */
  predicate IsActive(u: User, now: Time) {
    u.isSubscribed && u.planExpiry.Some? && u.planExpiry.value > now
  }

  /** A subscribed user always carries a plan type and an expiry (both are written together). */
  predicate EntitlementConsistent(u: User) {
    u.isSubscribed ==> u.planType.Some? && u.planExpiry.Some?
  }

  /** The unique index on `email`. */
  ghost predicate UniqueEmails(users: seq<User>) {
    Seqs.Distinct(users, EmailOf)
  }

  /** A freshly created user is never entitled, at any instant, and its entitlement fields are consistent. */
  lemma NewUserInactive(id: Id, name: Option<string>, email: string, image: Option<string>,
                        role: Option<string>, now: Time, later: Time)
    ensures !IsActive(NewUser(id, name, email, image, role, now), later)
    ensures EntitlementConsistent(NewUser(id, name, email, image, role, now))
  {
  }

  /** Entitlement ends at the expiry instant: at `planExpiry == now` the user is inactive. */
  lemma ActiveBoundary(u: User, now: Time)
    requires u.planExpiry == Some(now)
    ensures !IsActive(u, now)
    ensures forall t: Time :: t < now ==> (IsActive(u, t) <==> u.isSubscribed)
  {
  }
}
