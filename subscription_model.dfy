/** The `Subscription` collection's schema: the plans offered. */
module SubscriptionModel {
  import opened Common

  /** Paths the schema does not declare, but which the admin routes read from plan documents. */
  datatype PlanExtra = PlanExtra(
    isActive: Option<bool>,
    userId: Option<Id>,
    subscribedAt: Option<Time>,
    expiresAt: Option<Time>)

  const NoExtra := PlanExtra(None, None, None, None)

  datatype Plan = Plan(
    id: Id,
    name: string,
    price: int,
    duration: string,
    description: Option<string>,
    planType: Category,
    createdAt: Time,
    extra: PlanExtra)

  function PlanKey(p: Plan): Id { p.id }

  function PlanCreatedAt(p: Plan): int { p.createdAt }

  /** A request body for a new plan; undeclared keys are not represented, since strict mode drops them. */
  datatype PlanInput = PlanInput(
    name: string,
    price: Option<int>,
    duration: string,
    description: Option<string>,
    planType: string)

  predicate ValidPlanInput(input: PlanInput) {
    input.name != "" && input.price.Some? && input.duration != "" && ParseCategory(input.planType).Some?
  }

  /** `Subscription.create(body)`: `None` when a validator fails; `name`, `price`, `duration` and
      `planType` are required, `description` optional, and the stored plan has no undeclared path. */
  function CreatePlan(input: PlanInput, id: Id, now: Time): (r: Option<Plan>)
    ensures r.Some? <==> ValidPlanInput(input)
    ensures r.Some? ==> r.value.id == id && r.value.name == input.name && r.value.duration == input.duration
    ensures r.Some? ==> r.value.description == input.description && r.value.createdAt == now
    ensures r.Some? ==> CategoryName(r.value.planType) == input.planType
    ensures r.Some? ==> r.value.extra.isActive == None
  {
    match ParseCategory(input.planType)
    case None => None
    case Some(c) =>
      if input.name != "" && input.price.Some? && input.duration != "" then
        Some(Plan(id, input.name, input.price.value, input.duration, input.description, c, now, NoExtra))
      else None
  }
}
