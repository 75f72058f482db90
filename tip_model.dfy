/** The `Tip` collection's schema. */
module TipModel {
  import opened Common

  /** A stored tip. `category` is kept as the stored string: creation validates it against the
      enum, but `findByIdAndUpdate` runs no validators, so an update may store any string. */
  datatype Tip = Tip(
    id: Id,
    category: string,
    stockName: string,
    action: string,
    entryPrice: int,
    targetPrice: string,
    stopLoss: int,
    timeframe: string,
    note: string,
    isDemo: bool,
    createdBy: Id,
    createdAt: Time,
    updatedAt: Time)

  function TipKey(t: Tip): Id { t.id }

  function CreatedAt(t: Tip): int { t.createdAt }

  /** The fields a create supplies; "" is an absent string, `None` an absent number or flag. */
  datatype TipInput = TipInput(
    category: string,
    stockName: string,
    action: string,
    entryPrice: Option<int>,
    targetPrice: string,
    stopLoss: Option<int>,
    timeframe: string,
    note: string,
    isDemo: Option<bool>)

  /** The schema's validators: the enum on `category` and every `required` path. */
  predicate ValidTipInput(input: TipInput) {
    && ParseCategory(input.category).Some?
    && input.stockName != "" && input.action != "" && input.targetPrice != ""
    && input.timeframe != "" && input.note != ""
    && input.entryPrice.Some? && input.stopLoss.Some?
  }

  /** `Tip.create(...)`: `None` when validation fails; otherwise the stored document,
      with `isDemo` defaulting to false and both timestamps set to `now`. */
  function CreateTip(input: TipInput, id: Id, createdBy: Id, now: Time): (r: Option<Tip>)
    ensures r.Some? <==> ValidTipInput(input)
    ensures r.Some? ==> r.value.id == id && r.value.createdBy == createdBy
    ensures r.Some? ==> r.value.category == input.category && r.value.stockName == input.stockName
    ensures r.Some? ==> r.value.action == input.action
    ensures r.Some? ==> r.value.entryPrice == input.entryPrice.value && r.value.targetPrice == input.targetPrice
                        && r.value.stopLoss == input.stopLoss.value
    ensures r.Some? ==> r.value.timeframe == input.timeframe && r.value.note == input.note
    ensures r.Some? ==> r.value.isDemo == (input.isDemo.Some? && input.isDemo.value)
    ensures r.Some? ==> r.value.createdAt == now && r.value.updatedAt == now
  {
    if !ValidTipInput(input) then None
    else Some(Tip(id, input.category, input.stockName, input.action, input.entryPrice.value,
                  input.targetPrice, input.stopLoss.value, input.timeframe, input.note,
                  input.isDemo.GetOr(false), createdBy, now, now))
  }

  /** A created tip's category is one of the three, and its action is free text (not an enum). */
  lemma CreatedTipCategory(input: TipInput, id: Id, createdBy: Id, now: Time)
    requires CreateTip(input, id, createdBy, now).Some?
    ensures ParseCategory(CreateTip(input, id, createdBy, now).value.category).Some?
  {
  }

  /** "WATCH" is an acceptable action: the schema does not restrict it. */
  lemma ActionIsFreeText(input: TipInput)
    requires ValidTipInput(input)
    ensures ValidTipInput(input.(action := "WATCH"))
  {
  }
}
