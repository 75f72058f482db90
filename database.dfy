/** The MongoDB database the handlers share: one table per collection, documents in natural
    (insertion) order, and the counter from which new document ids are drawn. */
module Database {
  import opened Common
  import Seqs
  import opened UserModel
  import opened TipModel
  import opened SubscriptionModel
  import opened SubscriptionRecordModel
  import opened TransactionModel
  import opened LoginHistoryModel
  import opened NotificationModel

  class Db {
    var users: seq<User>
    var tips: seq<Tip>
    var plans: seq<Plan>
    var records: seq<SubscriptionRecord>
    var transactions: seq<Transaction>
    var logins: seq<LoginRecord>
    var notifications: seq<Notification>
    var nextId: nat

    /** Ids are unique and already allocated, e-mails unique, and entitlement fields consistent. */
    ghost predicate Valid()
      reads this
    {
      && Seqs.Keyed(users, UserKey, nextId)
      && UniqueEmails(users)
      && (forall i :: 0 <= i < |users| ==> EntitlementConsistent(users[i]))
      && Seqs.Keyed(tips, TipKey, nextId)
      && Seqs.Keyed(plans, PlanKey, nextId)
      && Seqs.Keyed(records, RecordKey, nextId)
      && Seqs.Keyed(logins, LoginKey, nextId)
      && Seqs.Keyed(notifications, NotificationKey, nextId)
    }

    constructor ()
      ensures Valid()
      ensures users == [] && tips == [] && plans == [] && records == []
      ensures transactions == [] && logins == [] && notifications == [] && nextId == 0
    {
      users, tips, plans, records := [], [], [], [];
      transactions, logins, notifications := [], [], [];
      nextId := 0;
    }

    /** `User.create(u)`: a new document with the next id and an e-mail no user has yet. */
    method InsertUser(u: User)
      requires Valid() && u.id == nextId && EntitlementConsistent(u)
      requires forall i :: 0 <= i < |users| ==> users[i].email != u.email
      modifies this`users, this`nextId
      ensures Valid() && users == old(users) + [u] && nextId == old(nextId) + 1
    {
      Seqs.KeyedAppend(users, UserKey, nextId, u);
      Seqs.DistinctAppend(users, EmailOf, u);
      users := users + [u];
      nextId := nextId + 1;
    }

    /** An update of one user document that keeps its id and its e-mail. */
    method ReplaceUser(i: nat, u: User)
      requires Valid() && i < |users| && u.id == users[i].id && u.email == users[i].email
      requires EntitlementConsistent(u)
      modifies this`users
      ensures Valid() && users == old(users)[i := u]
    {
      Seqs.KeyedUpdate(users, UserKey, nextId, i, u);
      Seqs.DistinctUpdate(users, EmailOf, i, u);
      users := users[i := u];
    }

    /** `Tip.create(t)`. */
    method InsertTip(t: Tip)
      requires Valid() && t.id == nextId
      modifies this`tips, this`nextId
      ensures Valid() && tips == old(tips) + [t] && nextId == old(nextId) + 1
    {
      Seqs.KeyedAppend(tips, TipKey, nextId, t);
      tips := tips + [t];
      nextId := nextId + 1;
    }

    /** An update of one tip document that keeps its id. */
    method ReplaceTip(i: nat, t: Tip)
      requires Valid() && i < |tips| && t.id == tips[i].id
      modifies this`tips
      ensures Valid() && tips == old(tips)[i := t]
    {
      Seqs.KeyedUpdate(tips, TipKey, nextId, i, t);
      tips := tips[i := t];
    }

    /** `Tip.findByIdAndDelete` of the document at `i`. */
    method RemoveTip(i: nat)
      requires Valid() && i < |tips|
      modifies this`tips
      ensures Valid() && tips == old(tips)[..i] + old(tips)[i + 1..]
      ensures forall t :: t in tips <==> t in old(tips) && t.id != old(tips)[i].id
    {
      Seqs.KeyedRemove(tips, TipKey, nextId, i);
      tips := tips[..i] + tips[i + 1..];
    }

    /** `Subscription.create(p)`. */
    method InsertPlan(p: Plan)
      requires Valid() && p.id == nextId
      modifies this`plans, this`nextId
      ensures Valid() && plans == old(plans) + [p] && nextId == old(nextId) + 1
    {
      Seqs.KeyedAppend(plans, PlanKey, nextId, p);
      plans := plans + [p];
      nextId := nextId + 1;
    }

    /** `Subscription.findByIdAndDelete` of the document at `i`. */
    method RemovePlan(i: nat)
      requires Valid() && i < |plans|
      modifies this`plans
      ensures Valid() && plans == old(plans)[..i] + old(plans)[i + 1..]
      ensures forall p :: p in plans <==> p in old(plans) && p.id != old(plans)[i].id
    {
      Seqs.KeyedRemove(plans, PlanKey, nextId, i);
      plans := plans[..i] + plans[i + 1..];
    }

    /** `SubscriptionRecord.create(r)`. */
    method InsertRecord(r: SubscriptionRecord)
      requires Valid() && r.id == nextId
      modifies this`records, this`nextId
      ensures Valid() && records == old(records) + [r] && nextId == old(nextId) + 1
    {
      Seqs.KeyedAppend(records, RecordKey, nextId, r);
      records := records + [r];
      nextId := nextId + 1;
    }

    /** `LoginHistory.create(l)`. */
    method InsertLogin(l: LoginRecord)
      requires Valid() && l.id == nextId
      modifies this`logins, this`nextId
      ensures Valid() && logins == old(logins) + [l] && nextId == old(nextId) + 1
    {
      Seqs.KeyedAppend(logins, LoginKey, nextId, l);
      logins := logins + [l];
      nextId := nextId + 1;
    }

    /** `Notification.insertMany(ns)`, with consecutive fresh ids. */
    method InsertNotifications(ns: seq<Notification>)
      requires Valid() && forall k :: 0 <= k < |ns| ==> ns[k].id == nextId + k
      modifies this`notifications, this`nextId
      ensures Valid() && notifications == old(notifications) + ns && nextId == old(nextId) + |ns|
    {
      Seqs.KeyedAppendRun(notifications, NotificationKey, nextId, ns);
      notifications := notifications + ns;
      nextId := nextId + |ns|;
    }

    /** An update of notification documents in place that keeps every id. */
    method ReplaceNotifications(ns: seq<Notification>)
      requires Valid() && |ns| == |notifications|
      requires forall k :: 0 <= k < |ns| ==> ns[k].id == notifications[k].id
      modifies this`notifications
      ensures Valid() && notifications == ns
    {
      notifications := ns;
    }
  }
}
