/** `/api/tips`: reading the tips a user is entitled to, and the admin's create (with its
    notification fan-out), update and delete. */
module TipsRoute {
  import opened Common
  import opened Strings
  import Seqs
  import opened Database
  import opened UserModel
  import opened TipModel
  import opened NotificationModel
  import opened SocketServer

  /** The JSON bodies the handlers answer with. */
  datatype TipsBody =
    | TipList(tips: seq<Tip>)
    | TipDoc(tip: Tip)
    | Deleted(message: string)
    | Failure(error: string)
    | Crash(error: string, details: Fault)

  // ---------------------------------------------------------------------------
  // GET

  /** The `{ category: user.planType }` filter. A user without a plan type is never active under
      `Db.Valid`, so the absent case matches no tip. */
  predicate InCategory(t: Tip, planType: Option<Category>) {
    planType.Some? && t.category == CategoryName(planType.value)
  }

  /** The tips `user` may read, newest first: an admin reads all of them, an active subscriber the
      tips of the plan's category (demo or not), anybody else only the demo tips. */
  function VisibleTips(u: User, tips: seq<Tip>, now: Time): seq<Tip> {
    if u.role == "admin" then Seqs.SortDesc(tips, CreatedAt)
    else if IsActive(u, now) then Seqs.SortDesc(Seqs.Filter(tips, t => InCategory(t, u.planType)), CreatedAt)
    else Seqs.SortDesc(Seqs.Filter(tips, (t: Tip) => t.isDemo), CreatedAt)
  }

  /** What each kind of user reads: exactly the tips of their tier, each once, newest first. */
  lemma VisibleTipsSpec(u: User, tips: seq<Tip>, now: Time)
    ensures Seqs.SortedDesc(VisibleTips(u, tips, now), CreatedAt)
    ensures u.role == "admin" ==> multiset(VisibleTips(u, tips, now)) == multiset(tips)
    ensures u.role != "admin" && IsActive(u, now) ==>
              forall t :: t in VisibleTips(u, tips, now) <==>
                            t in tips && u.planType.Some? && t.category == CategoryName(u.planType.value)
    ensures u.role != "admin" && IsActive(u, now) ==>
              multiset(VisibleTips(u, tips, now)) == multiset(Seqs.Filter(tips, t => InCategory(t, u.planType)))
    ensures u.role != "admin" && !IsActive(u, now) ==>
              forall t :: t in VisibleTips(u, tips, now) <==> t in tips && t.isDemo
    ensures u.role != "admin" && !IsActive(u, now) ==>
              multiset(VisibleTips(u, tips, now)) == multiset(Seqs.Filter(tips, (t: Tip) => t.isDemo))
    ensures u.role != "admin" ==> |VisibleTips(u, tips, now)| <= |tips|
  {
    if u.role == "admin" {
      Seqs.SortDescSpec(tips, CreatedAt);
    } else if IsActive(u, now) {
      Seqs.SortDescSpec(Seqs.Filter(tips, t => InCategory(t, u.planType)), CreatedAt);
    } else {
      Seqs.SortDescSpec(Seqs.Filter(tips, (t: Tip) => t.isDemo), CreatedAt);
    }
  }

  /** An active subscriber never reads a tip of another category, demo or not. */
  lemma ActiveSeesOnlyOwnCategory(u: User, tips: seq<Tip>, now: Time, t: Tip)
    requires u.role != "admin" && IsActive(u, now) && EntitlementConsistent(u)
    requires t in tips && t.category != CategoryName(u.planType.value)
    ensures t !in VisibleTips(u, tips, now)
  {
    VisibleTipsSpec(u, tips, now);
  }

  /** `GET`: 401 without a session, 404 when no user has the session's e-mail, otherwise the
      visible tips of the first user with that e-mail. */
  function Get(session: Session, users: seq<User>, tips: seq<Tip>, now: Time): (r: Response<TipsBody>)
    ensures session.None? ==> r == Response(401, Failure("Not authenticated"))
    ensures session.Some? && (forall i :: 0 <= i < |users| ==> users[i].email != session.value.email) ==>
              r == Response(404, Failure("User not found"))
    ensures r.status == 200 <==> session.Some? && exists i :: 0 <= i < |users| && users[i].email == session.value.email
    ensures r.status == 200 ==> exists i :: 0 <= i < |users| && users[i].email == session.value.email
                                           && r.body == TipList(VisibleTips(users[i], tips, now))
  {
    if session.None? then Response(401, Failure("Not authenticated"))
    else match Seqs.IndexOf(users, EmailOf, session.value.email)
      case None => Response(404, Failure("User not found"))
      case Some(i) => Response(200, TipList(VisibleTips(users[i], tips, now)))
  }

  // ---------------------------------------------------------------------------
  // POST: create, then notify

  /** The users notified of a new tip of `category`: subscribed, expiry after `now`, of that plan
      type, and registered for push. Demo tips are not exempt. */
  predicate IsRecipient(u: User, category: string, now: Time) {
    && u.isSubscribed
    && u.planExpiry.Some? && u.planExpiry.value > now
    && u.planType.Some? && CategoryName(u.planType.value) == category
    && u.oneSignalUserId.Some?
  }

  /** `User.find({ isSubscribed: true, planExpiry: { $gt: now }, planType: category, oneSignalUserId: { $exists: true, $ne: null } })`. */
  function Recipients(users: seq<User>, category: string, now: Time): (rs: seq<User>)
    ensures forall u :: u in rs <==> (u in users && IsActive(u, now) && u.planType.Some?
                                      && CategoryName(u.planType.value) == category && u.oneSignalUserId.Some?)
  {
    Seqs.Filter(users, u => IsRecipient(u, category, now))
  }

  /** Every user notified about a tip can read that tip. */
  lemma RecipientsCanRead(users: seq<User>, tips: seq<Tip>, t: Tip, now: Time, u: User)
    requires t in tips && u in Recipients(users, t.category, now)
    ensures t in VisibleTips(u, tips, now)
  {
    VisibleTipsSpec(u, tips, now);
    if u.role == "admin" {
      assert t in multiset(tips);
    }
  }

  /** The notification text, also used for the socket event. */
  function TipMessage(category: string, stockName: string): (m: string)
    ensures |m| == |category| + |stockName| + 16
    ensures m[..4] == "New " && m[4..4 + |category|] == category
    ensures m[4 + |category|..|m| - |stockName|] == " tip added: "
    ensures m[|m| - |stockName|..] == stockName
  {
    "New " + category + " tip added: " + stockName
  }

  /** The documents `insertMany` writes: one unseen notification per recipient, in order, with
      consecutive fresh ids from `firstId`. */
  function NotificationsFor(rs: seq<User>, message: string, firstId: Id, now: Time): (ns: seq<Notification>)
    ensures |ns| == |rs|
    ensures forall k :: 0 <= k < |rs| ==>
              ns[k] == Notification(firstId + k, rs[k].id, message, false, now)
  {
    seq(|rs|, k requires 0 <= k < |rs| => Notification(firstId + k, rs[k].id, message, false, now))
  }

  /** The `newNotification` events broadcast, one per recipient. */
  function EventsFor(rs: seq<User>, message: string, now: Time): (es: seq<Event>)
    ensures |es| == |rs|
    ensures forall k :: 0 <= k < |rs| ==> es[k] == NewNotification(rs[k].id, message, now)
  {
    seq(|rs|, k requires 0 <= k < |rs| => NewNotification(rs[k].id, message, now))
  }

  /** The body of one OneSignal request, less the app id and the key (configuration). */
  datatype PushRequest = PushRequest(externalId: string, heading: string, contents: string, url: string)

  const PushHeading: string := "\U{1F4C8} New Tip Added!"

  /** One recipient's request: addressed by push id, the category upper-cased in the text,
      pointing at the tips page. */
  function PushFor(u: User, category: string, stockName: string, siteUrl: string): PushRequest
    requires u.oneSignalUserId.Some?
  {
    PushRequest(u.oneSignalUserId.value, PushHeading, ToUpper(category) + " \U{2014} " + stockName, siteUrl + "/tips")
  }

  /** The push requests for a run of recipients, in order. */
  function PushesFor(rs: seq<User>, category: string, stockName: string, siteUrl: string): (ps: seq<PushRequest>)
    requires forall k :: 0 <= k < |rs| ==> rs[k].oneSignalUserId.Some?
    ensures |ps| == |rs|
    ensures forall k :: 0 <= k < |rs| ==> ps[k] == PushFor(rs[k], category, stockName, siteUrl)
  {
    seq(|rs|, k requires 0 <= k < |rs| => PushFor(rs[k], category, stockName, siteUrl))
  }

  /** The OneSignal endpoint: `attempts` records every request `fetch` sent to it. */
  class PushGateway {
    var attempts: seq<PushRequest>

    constructor ()
      ensures attempts == []
    {
      attempts := [];
    }
  }

  /** `POST`. The admin's create: 401 / 403 before anything else; a body the schema rejects gives
      500; otherwise the tip is stored, the recipients' notifications are stored, events are
      broadcast when the socket server runs, and one push is sent per recipient. `failAt` is the
      position of the first push whose `fetch` rejects, if any: that request is sent, the loop
      stops and the handler answers 500 although the tip and the notifications stay stored. */
  method Post(db: Db, registry: Registry, gateway: PushGateway, session: Session, body: TipInput,
              now: Time, siteUrl: string, failAt: Option<nat>) returns (resp: Response<TipsBody>)
    requires db.Valid() && registry.Valid()
    modifies db`tips, db`notifications, db`nextId, gateway, registry.io
    ensures db.Valid()
    ensures session.None? ==> resp == Response(401, Failure("Not authenticated"))
    ensures session.Some? && session.value.role != "admin" ==> resp == Response(403, Failure("Not authorized"))
    ensures (session.None? || session.value.role != "admin" || !ValidTipInput(body)) ==>
              && db.tips == old(db.tips) && db.notifications == old(db.notifications)
              && db.nextId == old(db.nextId) && gateway.attempts == old(gateway.attempts)
              && (registry.io != null ==> registry.io.emitted == old(registry.io.emitted))
    ensures session.Some? && session.value.role == "admin" && !ValidTipInput(body) ==>
              resp == Response(500, Crash("Error creating tip", ValidationFailed))
    ensures session.Some? && session.value.role == "admin" && ValidTipInput(body) ==>
              var tip := CreateTip(body, old(db.nextId), session.value.id, now).value;
              var rs := Recipients(old(db.users), body.category, now);
              var message := TipMessage(body.category, body.stockName);
              && db.tips == old(db.tips) + [tip]
              && db.notifications == old(db.notifications) + NotificationsFor(rs, message, old(db.nextId) + 1, now)
              && db.nextId == old(db.nextId) + 1 + |rs|
              && (registry.io != null ==> registry.io.emitted == old(registry.io.emitted) + EventsFor(rs, message, now))
              && (if failAt.Some? && failAt.value < |rs| then
                    && resp == Response(500, Crash("Error creating tip", FetchRejected))
                    && gateway.attempts == old(gateway.attempts) + PushesFor(rs[..failAt.value + 1], body.category, body.stockName, siteUrl)
                  else
                    && resp == Response(201, TipDoc(tip))
                    && gateway.attempts == old(gateway.attempts) + PushesFor(rs, body.category, body.stockName, siteUrl))
  {
    if session.None? {
      return Response(401, Failure("Not authenticated"));
    }
    if session.value.role != "admin" {
      return Response(403, Failure("Not authorized"));
    }

    var created := CreateTip(body, db.nextId, session.value.id, now);
    if created.None? {
      return Response(500, Crash("Error creating tip", ValidationFailed));
    }
    var tip := created.value;
    db.InsertTip(tip);

    var rs := Recipients(db.users, body.category, now);
    var message := TipMessage(body.category, body.stockName);
    var notifications := NotificationsFor(rs, message, db.nextId, now);
    db.InsertNotifications(notifications);

    var io := registry.GetIO();
    if io != null {
      Broadcast(io, rs, message, now);
    }

    assert forall k :: 0 <= k < |rs| ==> rs[k] in rs;
    var rejected := SendPushes(gateway, rs, body.category, body.stockName, siteUrl, failAt);
    if rejected {
      return Response(500, Crash("Error creating tip", FetchRejected));
    }
    resp := Response(201, TipDoc(tip));
  }

  /** The `forEach` over the recipients: one `newNotification` event each, in order. */
  method Broadcast(io: IoServer, rs: seq<User>, message: string, now: Time)
    modifies io
    ensures io.emitted == old(io.emitted) + EventsFor(rs, message, now)
  {
    var k := 0;
    while k < |rs|
      invariant 0 <= k <= |rs|
      invariant io.emitted == old(io.emitted) + EventsFor(rs[..k], message, now)
    {
      assert EventsFor(rs[..k + 1], message, now) == EventsFor(rs[..k], message, now) + [NewNotification(rs[k].id, message, now)];
      io.Emit(NewNotification(rs[k].id, message, now));
      k := k + 1;
    }
    assert rs[..k] == rs;
  }

  /** The `for ... of` over the recipients: one awaited `fetch` each. When fetch number `failAt`
      rejects, that request has been sent and the loop stops there. */
  method SendPushes(gateway: PushGateway, rs: seq<User>, category: string, stockName: string,
                    siteUrl: string, failAt: Option<nat>) returns (rejected: bool)
    requires forall k :: 0 <= k < |rs| ==> rs[k].oneSignalUserId.Some?
    modifies gateway
    ensures rejected <==> failAt.Some? && failAt.value < |rs|
    ensures rejected ==> gateway.attempts == old(gateway.attempts) + PushesFor(rs[..failAt.value + 1], category, stockName, siteUrl)
    ensures !rejected ==> gateway.attempts == old(gateway.attempts) + PushesFor(rs, category, stockName, siteUrl)
  {
    var k := 0;
    while k < |rs|
      invariant 0 <= k <= |rs|
      invariant gateway.attempts == old(gateway.attempts) + PushesFor(rs[..k], category, stockName, siteUrl)
      invariant failAt.Some? ==> failAt.value >= k
    {
      var push := PushFor(rs[k], category, stockName, siteUrl);
      assert PushesFor(rs[..k + 1], category, stockName, siteUrl) == PushesFor(rs[..k], category, stockName, siteUrl) + [push];
      gateway.attempts := gateway.attempts + [push];
      if failAt == Some(k) {
        return true;
      }
      k := k + 1;
    }
    assert rs[..k] == rs;
    rejected := false;
  }

  // ---------------------------------------------------------------------------
  // PUT

  /** The JSON body of an update; `None` is a key the body leaves out, which the update then
      drops (and so leaves that path as it was). `confidence` is not read. */
  datatype TipUpdate = TipUpdate(
    id: IdParam,
    category: Option<string>,
    stockName: Option<string>,
    action: Option<string>,
    entryPrice: Option<int>,
    targetPrice: Option<string>,
    stopLoss: Option<int>,
    timeframe: Option<string>,
    note: Option<string>,
    isDemo: Option<bool>)

  /** `findByIdAndUpdate(id, fields, { new: true })` on one document: the given fields replace
      the stored ones without validation, and `updatedAt` moves to `now`. */
  function ApplyUpdate(t: Tip, upd: TipUpdate, now: Time): (r: Tip)
    ensures r.id == t.id && r.createdBy == t.createdBy && r.createdAt == t.createdAt
    ensures r.updatedAt == now
    ensures r.category == (if upd.category.Some? then upd.category.value else t.category)
    ensures r.stockName == (if upd.stockName.Some? then upd.stockName.value else t.stockName)
    ensures r.action == (if upd.action.Some? then upd.action.value else t.action)
    ensures r.entryPrice == (if upd.entryPrice.Some? then upd.entryPrice.value else t.entryPrice)
    ensures r.targetPrice == (if upd.targetPrice.Some? then upd.targetPrice.value else t.targetPrice)
    ensures r.stopLoss == (if upd.stopLoss.Some? then upd.stopLoss.value else t.stopLoss)
    ensures r.timeframe == (if upd.timeframe.Some? then upd.timeframe.value else t.timeframe)
    ensures r.note == (if upd.note.Some? then upd.note.value else t.note)
    ensures r.isDemo == (if upd.isDemo.Some? then upd.isDemo.value else t.isDemo)
  {
    t.(category := upd.category.GetOr(t.category),
       stockName := upd.stockName.GetOr(t.stockName),
       action := upd.action.GetOr(t.action),
       entryPrice := upd.entryPrice.GetOr(t.entryPrice),
       targetPrice := upd.targetPrice.GetOr(t.targetPrice),
       stopLoss := upd.stopLoss.GetOr(t.stopLoss),
       timeframe := upd.timeframe.GetOr(t.timeframe),
       note := upd.note.GetOr(t.note),
       isDemo := upd.isDemo.GetOr(t.isDemo),
       updatedAt := now)
  }

  /** Applying the same update twice is applying it once; an update naming no field only
      touches `updatedAt`; and, with no validator, any category string is stored. */
  lemma ApplyUpdateProps(t: Tip, upd: TipUpdate, now: Time)
    ensures ApplyUpdate(ApplyUpdate(t, upd, now), upd, now) == ApplyUpdate(t, upd, now)
    ensures upd.category.Some? ==> ApplyUpdate(t, upd, now).category == upd.category.value
    ensures (&& upd.category.None? && upd.stockName.None? && upd.action.None? && upd.entryPrice.None?
             && upd.targetPrice.None? && upd.stopLoss.None? && upd.timeframe.None? && upd.note.None?
             && upd.isDemo.None?) ==> ApplyUpdate(t, upd, now) == t.(updatedAt := now)
  {
  }

  /** `PUT`: 401 / 403, 400 without id, 500 for a malformed id, 404 for an unknown one, otherwise
      the updated document; no other tip changes. */
  method Put(db: Db, session: Session, upd: TipUpdate, now: Time) returns (resp: Response<TipsBody>)
    requires db.Valid()
    modifies db`tips
    ensures db.Valid()
    ensures session.None? ==> resp == Response(401, Failure("Not authenticated"))
    ensures session.Some? && session.value.role != "admin" ==> resp == Response(403, Failure("Not authorized"))
    ensures session.Some? && session.value.role == "admin" && upd.id.Absent? ==>
              resp == Response(400, Failure("Tip ID is required"))
    ensures session.Some? && session.value.role == "admin" && upd.id.Malformed? ==>
              resp == Response(500, Crash("Error updating tip", CastFailed))
    ensures session.Some? && session.value.role == "admin" && upd.id.Given?
            && Seqs.IndexOf(old(db.tips), TipKey, upd.id.id).None? ==>
              resp == Response(404, Failure("Tip not found"))
    ensures resp.status != 200 ==> db.tips == old(db.tips)
    ensures resp.status == 200 ==>
              && session.Some? && session.value.role == "admin" && upd.id.Given?
              && var i := Seqs.IndexOf(old(db.tips), TipKey, upd.id.id).value;
                 && db.tips == old(db.tips)[i := ApplyUpdate(old(db.tips)[i], upd, now)]
                 && resp.body == TipDoc(db.tips[i])
    ensures (&& session.Some? && session.value.role == "admin" && upd.id.Given?
             && Seqs.IndexOf(old(db.tips), TipKey, upd.id.id).Some?) ==> resp.status == 200
  {
    if session.None? {
      return Response(401, Failure("Not authenticated"));
    }
    if session.value.role != "admin" {
      return Response(403, Failure("Not authorized"));
    }
    match upd.id
    case Absent =>
      return Response(400, Failure("Tip ID is required"));
    case Malformed =>
      return Response(500, Crash("Error updating tip", CastFailed));
    case Given(id) =>
      var found := Seqs.IndexOf(db.tips, TipKey, id);
      if found.None? {
        return Response(404, Failure("Tip not found"));
      }
      var i := found.value;
      var updated := ApplyUpdate(db.tips[i], upd, now);
      db.ReplaceTip(i, updated);
      resp := Response(200, TipDoc(updated));
  }

  // ---------------------------------------------------------------------------
  // DELETE

  /** `DELETE ?id=`: 401 / 403, 400 without id, 500 for a malformed id, 404 for an unknown one,
      otherwise the tip is removed and nothing else. */
  method Delete(db: Db, session: Session, id: IdParam) returns (resp: Response<TipsBody>)
    requires db.Valid()
    modifies db`tips
    ensures db.Valid()
    ensures session.None? ==> resp == Response(401, Failure("Not authenticated"))
    ensures session.Some? && session.value.role != "admin" ==> resp == Response(403, Failure("Not authorized"))
    ensures session.Some? && session.value.role == "admin" && id.Absent? ==>
              resp == Response(400, Failure("Tip ID is required"))
    ensures session.Some? && session.value.role == "admin" && id.Malformed? ==>
              resp == Response(500, Crash("Error deleting tip", CastFailed))
    ensures session.Some? && session.value.role == "admin" && id.Given?
            && Seqs.IndexOf(old(db.tips), TipKey, id.id).None? ==>
              resp == Response(404, Failure("Tip not found"))
    ensures resp.status != 200 ==> db.tips == old(db.tips)
    ensures resp.status == 200 ==>
              && session.Some? && session.value.role == "admin" && id.Given?
              && Seqs.IndexOf(old(db.tips), TipKey, id.id).Some?
              && resp.body == Deleted("Tip deleted successfully")
              && |db.tips| == |old(db.tips)| - 1
              && (forall t :: t in db.tips <==> t in old(db.tips) && t.id != id.id)
    ensures (&& session.Some? && session.value.role == "admin" && id.Given?
             && Seqs.IndexOf(old(db.tips), TipKey, id.id).Some?) ==> resp.status == 200
  {
    if session.None? {
      return Response(401, Failure("Not authenticated"));
    }
    if session.value.role != "admin" {
      return Response(403, Failure("Not authorized"));
    }
    match id
    case Absent =>
      return Response(400, Failure("Tip ID is required"));
    case Malformed =>
      return Response(500, Crash("Error deleting tip", CastFailed));
    case Given(key) =>
      var found := Seqs.IndexOf(db.tips, TipKey, key);
      if found.None? {
        return Response(404, Failure("Tip not found"));
      }
      var i := found.value;
      db.RemoveTip(i);
      resp := Response(200, Deleted("Tip deleted successfully"));
  }
}
