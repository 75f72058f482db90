/** The `Transaction` collection's schema (read by the admin statistics). */
module TransactionModel {
  import opened Common

  datatype Transaction = Transaction(
    id: Id,
    userId: Id,
    amount: int,
    currency: string,
    status: string,
    paymentMethod: Option<string>,
    transactionDate: Time,
    subscriptionId: Option<Id>,
    createdAt: Time)

  datatype TransactionInput = TransactionInput(
    userId: Option<Id>,
    amount: Option<int>,
    currency: Option<string>,
    status: string,
    paymentMethod: Option<string>,
    transactionDate: Option<Time>,
    subscriptionId: Option<Id>)

  predicate ValidTransactionInput(input: TransactionInput) {
    input.userId.Some? && input.amount.Some? && input.status != ""
  }

  /** `Transaction.create(...)`: `userId`, `amount` and `status` are required, `currency` defaults to
      "USD", `transactionDate` and `createdAt` to the creation time, `subscriptionId` is optional. */
  function CreateTransaction(input: TransactionInput, id: Id, now: Time): (r: Option<Transaction>)
    ensures r.Some? <==> ValidTransactionInput(input)
    ensures r.Some? ==> r.value.currency == (if input.currency.Some? then input.currency.value else "USD")
    ensures r.Some? ==> r.value.transactionDate == (if input.transactionDate.Some? then input.transactionDate.value else now)
    ensures r.Some? ==> r.value.createdAt == now && r.value.subscriptionId == input.subscriptionId
    ensures r.Some? ==> r.value.amount == input.amount.value && r.value.status == input.status
  {
    if !ValidTransactionInput(input) then None
    else Some(Transaction(id, input.userId.value, input.amount.value, input.currency.GetOr("USD"),
                          input.status, input.paymentMethod, input.transactionDate.GetOr(now),
                          input.subscriptionId, now))
  }
}
