/** `/api/admin/stats`: the dashboard's counters, read by an admin only. */
module AdminStats {
  import opened Common
  import Seqs
  import opened UserModel
  import opened TipModel
  import opened SubscriptionModel
  import opened TransactionModel
  import opened LoginHistoryModel

  datatype StatsBody =
    | Stats(totalUsers: nat, activeSubscribers: nat, totalRevenue: int, totalTips: nat,
            demoTips: nat, recentLogins: nat)
    | Failure(error: string)

  predicate IsCompleted(t: Transaction) {
    t.status == "completed"
  }

  /** `$sum: "$amount"` over the transactions, in table order. */
  function SumAmounts(ts: seq<Transaction>): int {
    if ts == [] then 0 else ts[0].amount + SumAmounts(ts[1..])
  }

  lemma {:induction false} SumAmountsAppend(a: seq<Transaction>, b: seq<Transaction>)
    ensures SumAmounts(a + b) == SumAmounts(a) + SumAmounts(b)
  {
    if a == [] {
      assert a + b == b;
    } else {
      assert (a + b)[1..] == a[1..] + b;
      SumAmountsAppend(a[1..], b);
    }
  }

  /** The `$match` / `$group` pipeline read back as `data.length > 0 ? data[0].total : 0`. */
  function Revenue(ts: seq<Transaction>): (total: int)
    ensures (forall i :: 0 <= i < |ts| ==> !IsCompleted(ts[i])) ==> total == 0
  {
    var completed := Seqs.Filter(ts, IsCompleted);
    if |completed| > 0 then SumAmounts(completed) else 0
  }

  /** Revenue is additive over the table, and counts a transaction exactly when it is completed. */
  lemma RevenueAppend(ts: seq<Transaction>, t: Transaction)
    ensures Revenue(ts + [t]) == Revenue(ts) + (if IsCompleted(t) then t.amount else 0)
  {
    Seqs.FilterAppend(ts, [t], IsCompleted);
    var completed := Seqs.Filter(ts, IsCompleted);
    assert Seqs.Filter([t], IsCompleted) == (if IsCompleted(t) then [t] else []) by {
      assert [t][1..] == [];
    }
    SumAmountsAppend(completed, Seqs.Filter([t], IsCompleted));
    if IsCompleted(t) {
      assert SumAmounts([t]) == t.amount by { assert [t][1..] == []; }
    } else {
      assert completed + [] == completed;
    }
  }

  /** Completed transactions of non-negative amounts never make revenue negative. */
  lemma {:induction false} RevenueNonNegative(ts: seq<Transaction>)
    requires forall i :: 0 <= i < |ts| ==> ts[i].amount >= 0
    ensures Revenue(ts) >= 0
  {
    var completed := Seqs.Filter(ts, IsCompleted);
    SumNonNegative(completed);
  }

  lemma {:induction false} SumNonNegative(ts: seq<Transaction>)
    requires forall t :: t in ts ==> t.amount >= 0
    ensures SumAmounts(ts) >= 0
  {
    if ts != [] {
      assert ts[0] in ts;
      SumNonNegative(ts[1..]);
    }
  }

  /** `GET`: 403 without an admin session; otherwise the six counters. Plans are counted as
      active through an `isActive` path the schema does not declare. */
  function Get(session: Session, users: seq<User>, plans: seq<Plan>, transactions: seq<Transaction>,
               tips: seq<Tip>, logins: seq<LoginRecord>): (r: Response<StatsBody>)
    ensures (session.None? || session.value.role != "admin") <==> r == Response(403, Failure("Unauthorized"))
    ensures r.status == 200 ==>
              && r.body.Stats?
              && r.body.totalUsers == |users| && r.body.totalTips == |tips| && r.body.recentLogins == |logins|
              && r.body.demoTips == Seqs.Count(tips, (t: Tip) => t.isDemo)
              && r.body.demoTips <= r.body.totalTips
              && r.body.activeSubscribers == Seqs.Count(plans, (p: Plan) => p.extra.isActive == Some(true))
              && r.body.activeSubscribers <= |plans|
              && r.body.totalRevenue == Revenue(transactions)
  {
    if session.None? || session.value.role != "admin" then Response(403, Failure("Unauthorized"))
    else Response(200, Stats(|users|, Seqs.Count(plans, (p: Plan) => p.extra.isActive == Some(true)),
                             Revenue(transactions), |tips|, Seqs.Count(tips, (t: Tip) => t.isDemo), |logins|))
  }

  /** The demo counter is the number of demo tips: every tip when all are demo, none when none is. */
  lemma DemoTipsExtremes(tips: seq<Tip>)
    ensures (forall i :: 0 <= i < |tips| ==> tips[i].isDemo) ==> Seqs.Count(tips, (t: Tip) => t.isDemo) == |tips|
    ensures (forall i :: 0 <= i < |tips| ==> !tips[i].isDemo) ==> Seqs.Count(tips, (t: Tip) => t.isDemo) == 0
  {
    if forall i :: 0 <= i < |tips| ==> tips[i].isDemo {
      Seqs.FilterAll(tips, (t: Tip) => t.isDemo);
    } else if forall i :: 0 <= i < |tips| ==> !tips[i].isDemo {
      Seqs.FilterNone(tips, (t: Tip) => t.isDemo);
    }
  }

  /** Plans created through the catalogue carry no `isActive` path, so they never count. */
  lemma CreatedPlansNeverActive(plans: seq<Plan>)
    requires forall i :: 0 <= i < |plans| ==> plans[i].extra == NoExtra
    ensures Seqs.Count(plans, (p: Plan) => p.extra.isActive == Some(true)) == 0
  {
    Seqs.FilterNone(plans, (p: Plan) => p.extra.isActive == Some(true));
  }
}
