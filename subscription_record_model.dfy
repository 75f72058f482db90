/** The `SubscriptionRecord` collection's schema: the payment audit trail. */
module SubscriptionRecordModel {
  import opened Common

  /** A payment record. There is no order-id path: the gateway order id is not kept. The user and
      plan references are plain `String` paths, so a value that is not a well-formed ObjectId is
      stored as it is. */
  datatype SubscriptionRecord = SubscriptionRecord(
    id: Id,
    userId: IdParam,
    planId: IdParam,
    paymentId: string,
    amount: int,
    status: string,
    createdAt: Time)

  function RecordKey(r: SubscriptionRecord): Id { r.id }

  datatype RecordInput = RecordInput(
    userId: IdParam,
    planId: IdParam,
    paymentId: string,
    amount: Option<int>,
    status: Option<string>)

  predicate ValidRecordInput(input: RecordInput) {
    !input.userId.Absent? && !input.planId.Absent? && input.paymentId != "" && input.amount.Some?
  }

  /** `SubscriptionRecord.create(...)`: `userId`, `planId`, `paymentId` and `amount` are required;
      `status` defaults to "success". */
  function CreateRecord(input: RecordInput, id: Id, now: Time): (r: Option<SubscriptionRecord>)
    ensures r.Some? <==> ValidRecordInput(input)
    ensures r.Some? ==> r.value.id == id && r.value.paymentId == input.paymentId && r.value.createdAt == now
    ensures r.Some? ==> r.value.userId == input.userId && r.value.planId == input.planId
    ensures r.Some? ==> r.value.status == (if input.status.Some? then input.status.value else "success")
  {
    if !ValidRecordInput(input) then None
    else Some(SubscriptionRecord(id, input.userId, input.planId, input.paymentId,
                                 input.amount.value, input.status.GetOr("success"), now))
  }
}
