/** The NextAuth callbacks: sign-in provisioning and audit, the JWT and session enrichment, and
    the post-login redirect. */
module NextAuth {
  import opened Common
  import Seqs
  import opened Database
  import opened UserModel
  import opened LoginHistoryModel

  /** The profile the identity provider hands to `signIn` and `jwt`. */
  datatype ProviderUser = ProviderUser(name: Option<string>, email: string, image: Option<string>)

  /** The claims the `jwt` callback adds; `None` is a claim never set. */
  datatype JwtToken = JwtToken(role: Option<string>, id: Option<Id>)

  /** The role a first sign-in is given: "admin" for the configured address, "user" otherwise. */
  function RoleFor(email: string, adminEmail: string): (role: string)
    ensures role == "admin" <==> email == adminEmail
    ensures role == "admin" || role == "user"
  {
    if email == adminEmail then "admin" else "user"
  }

  /** `signIn`. The first sign-in of an address creates its user with the role above; every
      sign-in then writes a successful login record unless that write fails (`logFails`), which
      is swallowed. The record's ip is the profile's, with an empty one stored as null. The
      callback always allows the sign-in. */
  method SignIn(db: Db, user: ProviderUser, adminEmail: string, ip: Option<string>,
                userAgent: Option<string>, logFails: bool, now: Time) returns (allowed: bool)
    requires db.Valid()
    modifies db`users, db`logins, db`nextId
    ensures db.Valid()
    ensures allowed
    // The user with this address afterwards: the stored one, or a new one appended.
    ensures Seqs.IndexOf(old(db.users), EmailOf, user.email).Some? ==> db.users == old(db.users)
    ensures Seqs.IndexOf(old(db.users), EmailOf, user.email).None? ==>
              db.users == old(db.users) + [NewUser(old(db.nextId), user.name, user.email, user.image,
                                                   Some(RoleFor(user.email, adminEmail)), now)]
    ensures exists i :: 0 <= i < |db.users| && db.users[i].email == user.email
    // The audit record, for the id of that user.
    ensures logFails ==> db.logins == old(db.logins)
    ensures !logFails ==>
              var i := Seqs.IndexOf(db.users, EmailOf, user.email).value;
              && |db.logins| == |old(db.logins)| + 1
              && db.logins[..|old(db.logins)|] == old(db.logins)
              && db.logins[|old(db.logins)|] == LoginRecord(db.nextId - 1, db.users[i].id, now, OrNull(ip), userAgent, true)
  {
    var found := Seqs.IndexOf(db.users, EmailOf, user.email);
    if found.None? {
      var created := NewUser(db.nextId, user.name, user.email, user.image,
                             Some(RoleFor(user.email, adminEmail)), now);
      NewUserInactive(db.nextId, user.name, user.email, user.image, Some(RoleFor(user.email, adminEmail)), now, now);
      db.InsertUser(created);
      assert db.users[|db.users| - 1].email == user.email;
    }
    var i := Seqs.IndexOf(db.users, EmailOf, user.email).value;
    if !logFails {
      var login := CreateLogin(LoginInput(Some(db.users[i].id), Some(now), OrNull(ip), userAgent, Some(true)), db.nextId, now);
      db.InsertLogin(login.value);
    }
    allowed := true;
  }

  /** `jwt`: on sign-in (`user` present) the token takes the stored user's role, "user" when the
      user is missing or its role empty, and the stored id; otherwise it passes through. */
  function JwtCallback(token: JwtToken, user: Option<ProviderUser>, users: seq<User>): (t: JwtToken)
    ensures user.None? ==> t == token
    ensures user.Some? ==> t.role.Some? && t.role.value != ""
    ensures user.Some? ==> (t.id.Some? <==> exists i :: 0 <= i < |users| && users[i].email == user.value.email)
    ensures user.Some? && t.id.None? ==> t.role == Some("user")
    ensures user.Some? && t.id.Some? ==>
              exists i :: 0 <= i < |users| && users[i].email == user.value.email && users[i].id == t.id.value
                          && t.role.value == (if users[i].role == "" then "user" else users[i].role)
  {
    if user.None? then token
    else match Seqs.IndexOf(users, EmailOf, user.value.email)
      case None => JwtToken(Some("user"), None)
      case Some(i) => JwtToken(Some(if users[i].role == "" then "user" else users[i].role), Some(users[i].id))
  }

  /** The session as the `session` callback leaves it: the address, plus the token's role and id. */
  datatype SessionView = SessionView(email: string, role: Option<string>, id: Option<Id>)

  function SessionCallback(email: string, token: JwtToken): (s: SessionView)
    ensures s.email == email && s.role == token.role && s.id == token.id
  {
    SessionView(email, token.role, token.id)
  }

  /** A user who signs in can read their own role back from the session. */
  lemma SessionCarriesStoredRole(users: seq<User>, user: ProviderUser, i: nat)
    requires i < |users| && users[i].email == user.email && users[i].role != ""
    requires UniqueEmails(users)
    ensures SessionCallback(user.email, JwtCallback(JwtToken(None, None), Some(user), users)).role == Some(users[i].role)
    ensures SessionCallback(user.email, JwtCallback(JwtToken(None, None), Some(user), users)).id == Some(users[i].id)
  {
    var j := Seqs.IndexOf(users, EmailOf, user.email).value;
    assert j == i;
  }

  /** `redirect`: to the admin dashboard or the user area by the token's role, otherwise home. */
  function Redirect(baseUrl: string, token: Option<JwtToken>): (url: string)
    ensures token.None? ==> url == baseUrl
    ensures token.Some? && token.value.role == Some("admin") ==> url == baseUrl + "/admin/dashboard"
    ensures token.Some? && token.value.role == Some("user") ==> url == baseUrl + "/user"
    ensures url == baseUrl || url == baseUrl + "/admin/dashboard" || url == baseUrl + "/user"
  {
    if token.Some? && token.value.role == Some("admin") then baseUrl + "/admin/dashboard"
    else if token.Some? && token.value.role == Some("user") then baseUrl + "/user"
    else baseUrl
  }
}
