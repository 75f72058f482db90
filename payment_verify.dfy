/** `POST /api/payment/verify`: check the gateway's signature, record the payment, then grant the
    plan's entitlement until an expiry computed from the plan's free-text duration. */
module PaymentVerify {
  import opened Common
  import opened Strings
  import Seqs
  import opened Database
  import opened UserModel
  import opened SubscriptionModel
  import opened SubscriptionRecordModel

  // ---------------------------------------------------------------------------
  // Duration parsing

  /** How far a plan's duration moves the expiry forward. */
  datatype Extension = Months(n: nat) | Years(n: nat) | Days(n: nat) | NoExtension

  /** The number in a lower-cased duration: its first digit run, or 1 when it has no digit. */
  function Magnitude(d: string): nat {
    match FirstDigitRun(d)
    case None => 1
    case Some(run) => DecimalValue(run)
  }

  /** Lower-case the text, take its magnitude, and pick the unit by keyword, "month" before
      "year" before "day"; with none of the three there is no extension. */
  function ParseDuration(duration: string): (e: Extension)
    ensures e.Months? <==> Contains(ToLower(duration), "month")
    ensures e.Years? <==> !Contains(ToLower(duration), "month") && Contains(ToLower(duration), "year")
    ensures e.Days? <==> !Contains(ToLower(duration), "month") && !Contains(ToLower(duration), "year")
                         && Contains(ToLower(duration), "day")
    ensures !e.NoExtension? ==> e.n == Magnitude(ToLower(duration))
  {
    var d := ToLower(duration);
    var n := Magnitude(d);
    if Contains(d, "month") then Months(n)
    else if Contains(d, "year") then Years(n)
    else if Contains(d, "day") then Days(n)
    else NoExtension
  }

  /** The parse depends on the text only up to letter case: "3 MONTHS" reads as "3 months". */
  lemma ParseDurationIgnoresCase(duration: string)
    ensures ParseDuration(ToLower(duration)) == ParseDuration(duration)
  {
    ToLowerIdempotent(duration);
  }

  lemma ThreeMonths()
    ensures ParseDuration("3 Months") == Months(3)
    ensures ParseDuration("3 MONTHS") == ParseDuration("3 months")
  {
    var d := ToLower("3 Months");
    assert d == "3 months";
    assert OccursAt(d, "month", 2);
    ContainsIffOccurs(d, "month");
    assert DigitStart(d) == 0;
    assert DigitEnd(d, 0) == 1 by { assert DigitEnd(d, 1) == 1; }
    assert d[0..1] == "3";
    assert DecimalValue("3") == 3 by { assert "3"[..0] == ""; }
    assert ToLower("3 MONTHS") == d;
    assert ToLower("3 months") == d;
  }

  /** A duration with neither digit nor unit keyword ("Lifetime") has magnitude 1 and no extension. */
  lemma Lifetime()
    ensures Magnitude(ToLower("Lifetime")) == 1
    ensures ParseDuration("Lifetime") == NoExtension
  {
    assert ToLower("Lifetime") == "lifetime" by {
      var d := ToLower("Lifetime");
      assert forall k :: 0 <= k < 8 ==> d[k] == "lifetime"[k];
    }
    assert !Contains("lifetime", "month") && !Contains("lifetime", "year") && !Contains("lifetime", "day") by {
      var d := "lifetime";
      assert 'o' !in d && 'y' !in d && 'd' !in d;
      NotContainsWithout(d, "month", 1);
      NotContainsWithout(d, "year", 0);
      NotContainsWithout(d, "day", 0);
    }
    assert FirstDigitRun("lifetime") == None;
  }

  /** The first magnitude and the first-ranked unit are combined even when they belong to
      different parts of the text: "1 year 6 months" is one month. */
  lemma YearAndMonths()
    ensures ParseDuration("1 year 6 months") == Months(1)
  {
    var d := "1 year 6 months";
    ToLowerOfLower(d);
    assert d[9..14] == "month";
    ContainsAt(d, "month", 9);
    assert DigitStart(d) == 0;
    assert DigitEnd(d, 0) == 1 by { assert DigitEnd(d, 1) == 1; }
    assert d[0..1] == "1";
    assert DecimalValue("1") == 1 by { assert "1"[..0] == ""; }
  }

  // ---------------------------------------------------------------------------
  // Expiry

  /** The three `Date` setters, as functions of an instant and a count. */
  datatype Calendar = Calendar(
    addMonths: (Time, nat) -> Time,
    addYears: (Time, nat) -> Time,
    addDays: (Time, nat) -> Time)

  /** Adding a non-negative number of months, years or days never moves an instant backwards. */
  ghost predicate Monotone(cal: Calendar) {
    && (forall t, n :: cal.addMonths(t, n) >= t)
    && (forall t, n :: cal.addYears(t, n) >= t)
    && (forall t, n :: cal.addDays(t, n) >= t)
  }

  /** `expiryDate` after the `setMonth` / `setFullYear` / `setDate` branch, starting from `now`. */
  function Expiry(cal: Calendar, now: Time, e: Extension): (t: Time)
    ensures e.NoExtension? ==> t == now
  {
    match e
    case Months(n) => cal.addMonths(now, n)
    case Years(n) => cal.addYears(now, n)
    case Days(n) => cal.addDays(now, n)
    case NoExtension => now
  }

  /** The computed expiry is never earlier than `now`. */
  lemma ExpiryNotBefore(cal: Calendar, now: Time, duration: string)
    requires Monotone(cal)
    ensures Expiry(cal, now, ParseDuration(duration)) >= now
  {
  }

  // ---------------------------------------------------------------------------
  // The handler

  /** The JSON body: order, payment and signature from the gateway, plus plan, user and amount. */
  datatype VerifyRequest = VerifyRequest(
    orderId: string,
    paymentId: string,
    signature: string,
    planId: IdParam,
    userId: IdParam,
    amount: Option<int>)

  /** `{success:true}`, `{success:false, message:"Invalid signature"}`, or `{success:false, message}` on a throw. */
  datatype VerifyBody = Verified | InvalidSignature | Failed(cause: Fault)

  /** The string the gateway signs. */
  function SignedString(orderId: string, paymentId: string): (s: string)
    ensures |s| == |orderId| + 1 + |paymentId| && s[|orderId|] == '|'
    ensures s[..|orderId|] == orderId && s[|orderId| + 1..] == paymentId
  {
    orderId + "|" + paymentId
  }

  /** The audit record written after a signature match. */
  function AuditInput(req: VerifyRequest): RecordInput {
    RecordInput(req.userId, req.planId, req.paymentId, req.amount, Some("success"))
  }

  /** The entitlement overwrite: subscribed, to the plan's type, until `expiry`. */
  function Grant(u: User, planType: Category, expiry: Time): (g: User)
    ensures g.isSubscribed && g.planType == Some(planType) && g.planExpiry == Some(expiry)
    ensures g.(isSubscribed := u.isSubscribed, planType := u.planType, planExpiry := u.planExpiry) == u
  {
    u.(isSubscribed := true, planType := Some(planType), planExpiry := Some(expiry))
  }

  /** The users table after granting `plan` to `userId`; `findByIdAndUpdate` of an unknown id changes nothing. */
  function GrantTo(users: seq<User>, userId: Id, plan: Plan, cal: Calendar, now: Time): seq<User> {
    match Seqs.IndexOf(users, UserKey, userId)
    case None => users
    case Some(i) => users[i := Grant(users[i], plan.planType, Expiry(cal, now, ParseDuration(plan.duration)))]
  }

  /** `hmac(secret, message)` is HMAC-SHA256 as a hex string; its definition is outside the model. */
  method Post(db: Db, req: VerifyRequest, hmac: (string, string) -> string, secret: string,
              cal: Calendar, now: Time) returns (resp: Response<VerifyBody>)
    requires db.Valid()
    modifies db`records, db`users, db`nextId
    ensures db.Valid()
    // A mismatched signature is rejected before anything is written.
    ensures hmac(secret, SignedString(req.orderId, req.paymentId)) != req.signature ==>
              resp == Response(400, InvalidSignature)
              && db.records == old(db.records) && db.users == old(db.users) && db.nextId == old(db.nextId)
    // A record the schema rejects aborts the request, still before any write.
    ensures hmac(secret, SignedString(req.orderId, req.paymentId)) == req.signature
            && !ValidRecordInput(AuditInput(req)) ==>
              resp == Response(500, Failed(ValidationFailed))
              && db.records == old(db.records) && db.users == old(db.users) && db.nextId == old(db.nextId)
    // Otherwise exactly one audit record is appended before the plan is looked up ...
    ensures hmac(secret, SignedString(req.orderId, req.paymentId)) == req.signature
            && ValidRecordInput(AuditInput(req)) ==>
              && db.records == old(db.records) + [CreateRecord(AuditInput(req), old(db.nextId), now).value]
              && db.records[|db.records| - 1].status == "success"
              && db.nextId == old(db.nextId) + 1
    // ... a malformed plan id makes `findById` throw, leaving the user untouched ...
    ensures hmac(secret, SignedString(req.orderId, req.paymentId)) == req.signature
            && ValidRecordInput(AuditInput(req)) && req.planId.Malformed? ==>
              resp == Response(500, Failed(CastFailed)) && db.users == old(db.users)
    // ... so does a plan id that finds nothing ...
    ensures hmac(secret, SignedString(req.orderId, req.paymentId)) == req.signature
            && ValidRecordInput(AuditInput(req)) && req.planId.Given?
            && Seqs.IndexOf(old(db.plans), PlanKey, req.planId.id).None? ==>
              resp == Response(500, Failed(NullPlan)) && db.users == old(db.users)
    // ... and, with the plan found, a malformed user id makes the update throw ...
    ensures hmac(secret, SignedString(req.orderId, req.paymentId)) == req.signature
            && ValidRecordInput(AuditInput(req)) && req.planId.Given?
            && Seqs.IndexOf(old(db.plans), PlanKey, req.planId.id).Some? && req.userId.Malformed? ==>
              resp == Response(500, Failed(CastFailed)) && db.users == old(db.users)
    // ... while a well-formed one overwrites that user's entitlement and answers success.
    ensures hmac(secret, SignedString(req.orderId, req.paymentId)) == req.signature
            && ValidRecordInput(AuditInput(req)) && req.planId.Given?
            && Seqs.IndexOf(old(db.plans), PlanKey, req.planId.id).Some? && req.userId.Given? ==>
              resp == Response(200, Verified)
              && db.users == GrantTo(old(db.users), req.userId.id,
                                     old(db.plans)[Seqs.IndexOf(old(db.plans), PlanKey, req.planId.id).value], cal, now)
  {
    var expectedSign := hmac(secret, SignedString(req.orderId, req.paymentId));
    if expectedSign != req.signature {
      return Response(400, InvalidSignature);
    }

    var record := CreateRecord(AuditInput(req), db.nextId, now);
    if record.None? {
      return Response(500, Failed(ValidationFailed));
    }
    db.InsertRecord(record.value);

    if req.planId.Malformed? {
      return Response(500, Failed(CastFailed));
    }
    var planIndex := Seqs.IndexOf(db.plans, PlanKey, req.planId.id);
    if planIndex.None? {
      return Response(500, Failed(NullPlan));
    }
    var plan := db.plans[planIndex.value];
    var expiryDate := Expiry(cal, now, ParseDuration(plan.duration));

    if req.userId.Malformed? {
      return Response(500, Failed(CastFailed));
    }
    var userIndex := Seqs.IndexOf(db.users, UserKey, req.userId.id);
    if userIndex.Some? {
      var i := userIndex.value;
      var granted := Grant(db.users[i], plan.planType, expiryDate);
      db.ReplaceUser(i, granted);
    }
    resp := Response(200, Verified);
  }

  /** After a successful verification the paying user, if stored, is entitled to the plan's
      category until the computed expiry, and every other user is unchanged. */
  lemma GrantToSpec(users: seq<User>, userId: Id, plan: Plan, cal: Calendar, now: Time)
    requires Seqs.IndexOf(users, UserKey, userId).Some?
    ensures var g := GrantTo(users, userId, plan, cal, now);
            var i := Seqs.IndexOf(users, UserKey, userId).value;
            && |g| == |users|
            && g[i].isSubscribed && g[i].planType == Some(plan.planType)
            && g[i].planExpiry == Some(Expiry(cal, now, ParseDuration(plan.duration)))
            && g[i].id == userId && g[i].email == users[i].email && g[i].role == users[i].role
            && (forall j :: 0 <= j < |users| && j != i ==> g[j] == users[j])
  {
  }

  /** With a monotone calendar the paying user ends up active at `now` exactly when the expiry is
      strictly later: a duration without unit keyword grants an entitlement that is already over. */
  lemma GrantActive(users: seq<User>, userId: Id, plan: Plan, cal: Calendar, now: Time)
    requires Seqs.IndexOf(users, UserKey, userId).Some?
    ensures var g := GrantTo(users, userId, plan, cal, now);
            var i := Seqs.IndexOf(users, UserKey, userId).value;
            IsActive(g[i], now) <==> Expiry(cal, now, ParseDuration(plan.duration)) > now
    ensures ParseDuration(plan.duration).NoExtension? ==>
              !IsActive(GrantTo(users, userId, plan, cal, now)[Seqs.IndexOf(users, UserKey, userId).value], now)
  {
  }
}
