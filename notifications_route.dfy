/** `/api/notifications`: a user's own in-app notifications, and marking them all seen. */
module NotificationsRoute {
  import opened Common
  import Seqs
  import opened Database
  import opened NotificationModel

  datatype NotificationsBody =
    | NotificationList(notifications: seq<Notification>)
    | Success
    | Failure(error: string)

  /** The session user's notifications, newest first. */
  function OwnNotifications(ns: seq<Notification>, userId: Id): seq<Notification> {
    Seqs.SortDesc(Seqs.Filter(ns, (n: Notification) => n.userId == userId), NotificationCreatedAt)
  }

  /** A user reads every notification addressed to them, each once, newest first, and no other. */
  lemma OwnNotificationsSpec(ns: seq<Notification>, userId: Id)
    ensures Seqs.SortedDesc(OwnNotifications(ns, userId), NotificationCreatedAt)
    ensures forall n :: n in OwnNotifications(ns, userId) <==> n in ns && n.userId == userId
    ensures multiset(OwnNotifications(ns, userId)) == multiset(Seqs.Filter(ns, (n: Notification) => n.userId == userId))
    ensures |OwnNotifications(ns, userId)| <= |ns|
  {
    Seqs.SortDescSpec(Seqs.Filter(ns, (n: Notification) => n.userId == userId), NotificationCreatedAt);
  }

  /** `GET`: 401 without a session, otherwise the session user's notifications. */
  function Get(session: Session, ns: seq<Notification>): (r: Response<NotificationsBody>)
    ensures session.None? <==> r == Response(401, Failure("Not Authenticated"))
    ensures session.Some? ==> r.status == 200 && r.body.NotificationList?
    ensures session.Some? ==> forall n :: n in r.body.notifications <==> n in ns && n.userId == session.value.id
  {
    if session.None? then Response(401, Failure("Not Authenticated"))
    else
      OwnNotificationsSpec(ns, session.value.id);
      Response(200, NotificationList(OwnNotifications(ns, session.value.id)))
  }

  /** `updateMany({ userId, seen: false }, { seen: true })` on the table. */
  function MarkSeen(ns: seq<Notification>, userId: Id): (r: seq<Notification>)
    ensures |r| == |ns|
  {
    seq(|ns|, k requires 0 <= k < |ns| =>
      if ns[k].userId == userId && !ns[k].seen then ns[k].(seen := true) else ns[k])
  }

  /** Afterwards every notification of the user is seen; the others are untouched; nothing but
      `seen` changes; and a second run changes nothing. */
  lemma MarkSeenSpec(ns: seq<Notification>, userId: Id)
    ensures forall k :: 0 <= k < |ns| && ns[k].userId == userId ==> MarkSeen(ns, userId)[k].seen
    ensures forall k :: 0 <= k < |ns| && ns[k].userId != userId ==> MarkSeen(ns, userId)[k] == ns[k]
    ensures forall k :: 0 <= k < |ns| ==> MarkSeen(ns, userId)[k].(seen := ns[k].seen) == ns[k]
    ensures MarkSeen(MarkSeen(ns, userId), userId) == MarkSeen(ns, userId)
  {
    var once := MarkSeen(ns, userId);
    assert forall k :: 0 <= k < |ns| ==> MarkSeen(once, userId)[k] == once[k];
  }

  /** After marking, the user's own listing holds only seen notifications, one for each they had. */
  lemma ListingAfterMarkSeen(ns: seq<Notification>, userId: Id)
    ensures forall n :: n in OwnNotifications(MarkSeen(ns, userId), userId) ==> n.seen
    ensures |OwnNotifications(MarkSeen(ns, userId), userId)| == |OwnNotifications(ns, userId)|
  {
    var marked := MarkSeen(ns, userId);
    OwnNotificationsSpec(marked, userId);
    MarkSeenSpec(ns, userId);
    forall n | n in OwnNotifications(marked, userId) ensures n.seen {
      var k :| 0 <= k < |marked| && marked[k] == n;
    }
    SameOwnCount(ns, marked, userId);
  }

  /** Two tables whose documents agree pointwise on the owner hold as many of one user's. */
  lemma {:induction false} SameOwnCount(a: seq<Notification>, b: seq<Notification>, userId: Id)
    requires |a| == |b| && forall k :: 0 <= k < |a| ==> a[k].userId == b[k].userId
    ensures |OwnNotifications(a, userId)| == |OwnNotifications(b, userId)|
    ensures |Seqs.Filter(a, (n: Notification) => n.userId == userId)| == |Seqs.Filter(b, (n: Notification) => n.userId == userId)|
  {
    if a != [] {
      SameOwnCount(a[1..], b[1..], userId);
    }
  }

  /** `PATCH`: 401 without a session; otherwise the user's unseen notifications become seen. */
  method Patch(db: Db, session: Session) returns (resp: Response<NotificationsBody>)
    requires db.Valid()
    modifies db`notifications
    ensures db.Valid()
    ensures session.None? ==> resp == Response(401, Failure("Not Authenticated")) && db.notifications == old(db.notifications)
    ensures session.Some? ==> resp == Response(200, Success) && db.notifications == MarkSeen(old(db.notifications), session.value.id)
  {
    if session.None? {
      return Response(401, Failure("Not Authenticated"));
    }
    var marked := MarkSeen(db.notifications, session.value.id);
    db.ReplaceNotifications(marked);
    resp := Response(200, Success);
  }
}
