/** The `LoginHistory` collection's schema. */
module LoginHistoryModel {
  import opened Common

  datatype LoginRecord = LoginRecord(
    id: Id,
    userId: Id,
    loginAt: Time,
    ipAddress: Option<string>,
    userAgent: Option<string>,
    success: bool)

  function LoginKey(l: LoginRecord): Id { l.id }

  function LoginAt(l: LoginRecord): int { l.loginAt }

  datatype LoginInput = LoginInput(
    userId: Option<Id>,
    loginAt: Option<Time>,
    ipAddress: Option<string>,
    userAgent: Option<string>,
    success: Option<bool>)

  /** `LoginHistory.create(...)`: `userId` is required, `loginAt` defaults to the creation time,
      `success` to true, and the two strings are optional. */
  function CreateLogin(input: LoginInput, id: Id, now: Time): (r: Option<LoginRecord>)
    ensures r.Some? <==> input.userId.Some?
    ensures r.Some? ==> r.value.userId == input.userId.value && r.value.id == id
    ensures r.Some? ==> r.value.loginAt == (if input.loginAt.Some? then input.loginAt.value else now)
    ensures r.Some? ==> r.value.success == (input.success.None? || input.success.value)
    ensures r.Some? ==> r.value.ipAddress == input.ipAddress && r.value.userAgent == input.userAgent
  {
    match input.userId
    case None => None
    case Some(uid) =>
      Some(LoginRecord(id, uid, input.loginAt.GetOr(now), input.ipAddress, input.userAgent,
                       input.success.GetOr(true)))
  }
}
