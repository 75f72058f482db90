/** `/api/subscriptions`: the plan catalogue, listed, created and deleted without any role check. */
module SubscriptionsRoute {
  import opened Common
  import Seqs
  import opened Database
  import opened SubscriptionModel

  /** `plans`, a created plan, `{ success: true }`, `{ error }`, or the framework's bare 500
      when the handler throws. */
  datatype PlansBody =
    | PlanList(plans: seq<Plan>)
    | PlanDoc(plan: Plan)
    | Success
    | Failure(error: string)
    | ServerError(cause: Fault)

  /** `GET`: every plan, newest first. */
  function Get(plans: seq<Plan>): (r: Response<PlansBody>)
    ensures r.status == 200 && r.body.PlanList?
  {
    Response(200, PlanList(Seqs.SortDesc(plans, PlanCreatedAt)))
  }

  /** The listing holds each stored plan once, newest first. */
  lemma GetSpec(plans: seq<Plan>)
    ensures Seqs.SortedDesc(Get(plans).body.plans, PlanCreatedAt)
    ensures multiset(Get(plans).body.plans) == multiset(plans)
    ensures forall p :: p in Get(plans).body.plans <==> p in plans
  {
    Seqs.SortDescSpec(plans, PlanCreatedAt);
  }

  /** `POST`: anyone may create a plan; a body the schema rejects makes the handler throw. */
  method Post(db: Db, body: PlanInput, now: Time) returns (resp: Response<PlansBody>)
    requires db.Valid()
    modifies db`plans, db`nextId
    ensures db.Valid()
    ensures !ValidPlanInput(body) ==>
              resp == Response(500, ServerError(ValidationFailed))
              && db.plans == old(db.plans) && db.nextId == old(db.nextId)
    ensures ValidPlanInput(body) ==>
              var plan := CreatePlan(body, old(db.nextId), now).value;
              && resp == Response(200, PlanDoc(plan))
              && db.plans == old(db.plans) + [plan] && db.nextId == old(db.nextId) + 1
  {
    var created := CreatePlan(body, db.nextId, now);
    if created.None? {
      return Response(500, ServerError(ValidationFailed));
    }
    db.InsertPlan(created.value);
    resp := Response(200, PlanDoc(created.value));
  }

  /** `DELETE ?id=`: 400 without id; a malformed id makes the handler throw; otherwise the plan
      with that id, if any, is removed and the answer is success either way. */
  method Delete(db: Db, id: IdParam) returns (resp: Response<PlansBody>)
    requires db.Valid()
    modifies db`plans
    ensures db.Valid()
    ensures id.Absent? ==> resp == Response(400, Failure("Missing ID")) && db.plans == old(db.plans)
    ensures id.Malformed? ==> resp == Response(500, ServerError(CastFailed)) && db.plans == old(db.plans)
    ensures id.Given? ==>
              && resp == Response(200, Success)
              && (forall p :: p in db.plans <==> p in old(db.plans) && p.id != id.id)
              && |db.plans| == |old(db.plans)| - (if Seqs.IndexOf(old(db.plans), PlanKey, id.id).Some? then 1 else 0)
  {
    match id
    case Absent =>
      return Response(400, Failure("Missing ID"));
    case Malformed =>
      return Response(500, ServerError(CastFailed));
    case Given(key) =>
      var found := Seqs.IndexOf(db.plans, PlanKey, key);
      if found.Some? {
        db.RemovePlan(found.value);
      }
      resp := Response(200, Success);
  }
}
