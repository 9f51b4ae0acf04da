/** `PaymentsController#create`: converts the requested amount to cents,
    charges the card, and on a paid charge builds and saves a Transaction.
    The two card-processor calls are replaced by their outcome, given as
    an input. */
module Payments {
  import opened Wrappers
  import opened Validators
  import opened Transactions

  /** Integer truncation toward zero, as `to_i` reads a decimal numeral:
      the fractional part is dropped, whatever the sign. */
  function Truncate(r: real): (t: int)
    ensures 0.0 <= r ==> 0 <= t && t as real <= r < t as real + 1.0
    ensures r < 0.0 ==> t <= 0 && t as real - 1.0 < r <= t as real
  {
    if r >= 0.0 then r.Floor else -((-r).Floor)
  }

  /** `params[:amount].to_i`: a missing parameter is nil, and `nil.to_i` is 0. */
  function WholeUnits(amount: Option<real>): (w: int)
    ensures amount.None? ==> w == 0
    ensures amount.Some? && amount.value >= 0.0 ==>
      0 <= w && w as real <= amount.value < w as real + 1.0
    ensures amount.Some? && amount.value < 0.0 ==>
      w <= 0 && w as real - 1.0 < amount.value <= w as real
  {
    match amount
    case None => 0
    case Some(r) => Truncate(r)
  }

  /** The amount charged, in cents: 100 times the whole part of the
      requested amount. */
  function ChargeCents(amount: Option<real>): (cents: int)
    ensures cents % 100 == 0
    ensures amount.None? ==> cents == 0
    ensures amount.Some? && amount.value >= 0.0 ==>
      0 <= cents && cents as real <= 100.0 * amount.value < cents as real + 100.0
    ensures amount.Some? && amount.value < 0.0 ==>
      cents <= 0 && cents as real - 100.0 < 100.0 * amount.value <= cents as real
  {
    WholeUnits(amount) * 100
  }

  /** What the card processor reports for the charge. `OtherError` stands
      for every processor exception that is not a card error: the action
      does not rescue it. */
  datatype ChargeOutcome = Paid | NotPaid | CardError(message: string) | OtherError

  datatype Status = Ok | UnprocessableEntity

  /** The Transaction built on a paid charge and whether it was saved:
      `create` returns the record even when its validations fail. */
  datatype Created = Created(record: Transaction, saved: bool)

  /** A rendered JSON response, or an exception leaving the action. */
  datatype Response =
    | Rendered(status: Status, message: string, transaction: Option<Created>)
    | Propagated

  const SuccessMessage: string := "Paiement réussi"
  const FailureMessage: string := "Paiement échoué"
  const Completed: string := "completed"
  const Pending: string := "pending"

  /** The Transaction built after a paid charge of `cents`: the current user
      buys, the listing's owner sells, and the final price is the charge
      converted back from cents. */
  function SettlementRecord(item: ItemId, buyer: UserId, itemOwner: UserId, cents: int): (t: Transaction)
    ensures t.item == Some(item) && t.buyer == Some(buyer) && t.seller == Some(itemOwner)
    ensures t.paymentStatus == Some(Completed) && t.deliveryStatus == Some(Pending)
    ensures t.finalPrice.Some? && t.finalPrice.value * 100.0 == cents as real
  {
    Transaction(Some(item), Some(buyer), Some(itemOwner), Some(cents as real / 100.0), Some(Completed), Some(Pending))
  }

  /** The action. `buyer` is the signed-in user and `itemOwner` the owner of
      the listing named by the request. */
  function Create(amount: Option<real>, item: ItemId, buyer: UserId, itemOwner: UserId, outcome: ChargeOutcome): (r: Response)
    ensures r.Propagated? <==> outcome.OtherError?
    ensures r.Rendered? ==> (r.status == Ok <==> outcome.Paid?)
    ensures r.Rendered? ==> (r.transaction.Some? <==> outcome.Paid?)
    ensures outcome.NotPaid? ==> r == Rendered(UnprocessableEntity, FailureMessage, None)
    ensures outcome.CardError? ==> r == Rendered(UnprocessableEntity, outcome.message, None)
    ensures outcome.Paid? ==>
      && r.message == SuccessMessage
      && var t := r.transaction.value.record;
      && t.item == Some(item) && t.buyer == Some(buyer) && t.seller == Some(itemOwner)
      && t.paymentStatus == Some(Completed) && t.deliveryStatus == Some(Pending)
      && (r.transaction.value.saved <==> TransactionValid(t))
  {
    var cents := ChargeCents(amount);
    match outcome
    case Paid =>
      var t := SettlementRecord(item, buyer, itemOwner, cents);
      Rendered(Ok, SuccessMessage, Some(Created(t, TransactionValid(t))))
    case NotPaid => Rendered(UnprocessableEntity, FailureMessage, None)
    case CardError(msg) => Rendered(UnprocessableEntity, msg, None)
    case OtherError => Propagated
  }

  /** Round trip: the final price recorded is the whole part of the
      requested amount, and it converts back to exactly the cents charged. */
  lemma FinalPriceRoundTrip(amount: Option<real>, item: ItemId, buyer: UserId, itemOwner: UserId)
    ensures
      var t := Create(amount, item, buyer, itemOwner, Paid).transaction.value.record;
      && t.finalPrice == Some(WholeUnits(amount) as real)
      && t.finalPrice.value * 100.0 == ChargeCents(amount) as real
  {
  }

  /** On a paid charge the record is saved exactly when the requested amount
      is at least one whole unit; below that its final price is not
      positive and the record is returned unsaved. */
  lemma SavedIffAtLeastOneUnit(amount: Option<real>, item: ItemId, buyer: UserId, itemOwner: UserId)
    ensures Create(amount, item, buyer, itemOwner, Paid).transaction.value.saved
            <==> amount.Some? && amount.value >= 1.0
  {
    var t := Create(amount, item, buyer, itemOwner, Paid).transaction.value.record;
    assert Completed[0] == 'c' && Pending[0] == 'p';
    TransactionValidIff(t);
    FinalPriceRoundTrip(amount, item, buyer, itemOwner);
  }

  /** A paid charge is answered with success even when the Transaction
      fails its validations; the action does not raise. */
  lemma PaidSucceedsEvenWhenUnsaved()
    ensures
      var r := Create(Some(0.75), 3, 4, 5, Paid);
      && r == Rendered(Ok, SuccessMessage, r.transaction)
      && !r.transaction.value.saved
      && Error(FinalPrice, NotGreaterThanZero) in TransactionErrors(r.transaction.value.record)
  {
  }
}
