/** A bid on a listing and its validations. Acceptance of a bid is its
    validity: the bid is saved exactly when it validates. */
module Bids {
  import opened Wrappers
  import opened Validators
  import opened Items

  /** A bid as held in memory: `item` and `user` are the resolved
      associations (None when the reference does not resolve), `amount`
      is the decimal `bid_amount` column. */
  datatype Bid = Bid(item: Option<Item>, user: Option<UserId>, amount: Option<real>)

  /** The outcome of `valid?` on a bid. The custom rule compares the amount
      with the listing's starting price; when that price is nil the
      comparison raises instead of adding an error. */
  datatype Validation = Checked(errors: set<Error>) | Raised

  /** The custom rule: an amount not above the listing's starting price is an
      error on `bid_amount`. It only runs when both the amount and the
      listing are present. */
  function StartingPriceRule(b: Bid): (v: Validation)
    ensures v.Raised? <==> b.amount.Some? && b.item.Some? && b.item.value.startingPrice.None?
    ensures v.Checked? ==> v.errors <= {Error(BidAmount, NotAboveStartingPrice)}
    ensures v.Checked? && v.errors != {} ==> b.amount.Some? && b.item.Some? && b.amount.value <= b.item.value.startingPrice.value
    ensures b.amount.Some? && b.item.Some? && b.item.value.startingPrice.Some? ==>
      (v == Checked({Error(BidAmount, NotAboveStartingPrice)}) <==> b.amount.value <= b.item.value.startingPrice.value)
  {
    if b.amount.Some? && b.item.Some? then
      match b.item.value.startingPrice
      case None => Raised
      case Some(price) =>
        if b.amount.value <= price then Checked({Error(BidAmount, NotAboveStartingPrice)}) else Checked({})
    else
      Checked({})
  }

  /** Every error `valid?` collects on a bid, in declaration order: the two
      required associations, presence and positivity of the amount, then
      the starting-price rule. */
  function BidValidation(b: Bid): (v: Validation)
    ensures v.Raised? <==> b.amount.Some? && b.item.Some? && b.item.value.startingPrice.None?
    ensures v.Checked? ==> On(v.errors, ItemRef) == Required(ItemRef, b.item)
    ensures v.Checked? ==> On(v.errors, UserRef) == Required(UserRef, b.user)
    ensures v.Checked? ==> On(v.errors, BidAmount) - {Error(BidAmount, NotAboveStartingPrice)}
                             == PositiveNumber(BidAmount, b.amount)
    ensures v.Checked? ==>
      (Error(BidAmount, NotAboveStartingPrice) in v.errors <==>
         b.amount.Some? && b.item.Some? && b.amount.value <= b.item.value.startingPrice.value)
    ensures v.Checked? ==> forall e :: e in v.errors ==> e.field in {ItemRef, UserRef, BidAmount}
  {
    var framework := Required(ItemRef, b.item) + Required(UserRef, b.user) + PositiveNumber(BidAmount, b.amount);
    match StartingPriceRule(b)
    case Raised => Raised
    case Checked(custom) => Checked(framework + custom)
  }

  predicate BidValid(b: Bid) {
    BidValidation(b) == Checked({})
  }

  /** A bid is accepted exactly when its listing and bidder exist, its
      listing has a starting price and its amount is above that price and
      above zero. */
  lemma BidValidIff(b: Bid)
    ensures BidValid(b) <==>
      && b.item.Some? && b.user.Some?
      && b.amount.Some? && b.amount.value > 0.0
      && b.item.value.startingPrice.Some?
      && b.amount.value > b.item.value.startingPrice.value
  {
  }

  /** A bid without an amount is rejected as blank and as not a number. */
  lemma MissingAmountInvalid(b: Bid)
    requires b.amount.None?
    ensures BidValidation(b).Checked?
    ensures Error(BidAmount, Blank) in BidValidation(b).errors
    ensures Error(BidAmount, NotANumber) in BidValidation(b).errors
    ensures !BidValid(b)
  {
  }

  /** A bid whose amount is zero or negative is never accepted; when it is
      checked at all it carries the "greater than 0" error. */
  lemma NonPositiveAmountInvalid(b: Bid)
    requires b.amount.Some? && b.amount.value <= 0.0
    ensures !BidValid(b)
    ensures BidValidation(b).Checked? ==> Error(BidAmount, NotGreaterThanZero) in BidValidation(b).errors
  {
  }

  /** The starting-price rule is silent when the amount or the listing is
      missing: no such error and no raise. */
  lemma StartingPriceRuleSilentWhenAbsent(b: Bid)
    requires b.amount.None? || b.item.None?
    ensures BidValidation(b).Checked?
    ensures Error(BidAmount, NotAboveStartingPrice) !in BidValidation(b).errors
  {
  }

  /** Acceptance depends on the bid's own amount, on whether its listing and
      bidder exist, and on the listing's starting price, and on nothing else:
      not the listing's owner, title or schedule, and not any other bid. */
  lemma OnlyAmountAndStartingPriceMatter(b1: Bid, b2: Bid)
    requires b1.amount == b2.amount
    requires b1.user.Some? <==> b2.user.Some?
    requires b1.item.Some? <==> b2.item.Some?
    requires b1.item.Some? ==> b1.item.value.startingPrice == b2.item.value.startingPrice
    ensures BidValidation(b1) == BidValidation(b2)
  {
  }

  /** With no comparison against earlier bids, a bid equal to or below the
      current highest bid on the same listing is still accepted. */
  lemma EqualOrLowerThanHighestAccepted()
    ensures
      var lamp := Item(Some(1), Some("lamp"), Some("brass"), Some(100.0), Some(86400), Some(1700000000));
      && BidValid(Bid(Some(lamp), Some(2), Some(150.0)))
      && BidValid(Bid(Some(lamp), Some(3), Some(150.0)))
      && BidValid(Bid(Some(lamp), Some(4), Some(120.0)))
  {
  }

  /** Raising an accepted bid keeps it accepted. */
  lemma AcceptanceMonotonic(b: Bid, higher: real)
    requires BidValid(b)
    requires higher > b.amount.value
    ensures BidValid(b.(amount := Some(higher)))
  {
  }

  /** On a listing whose starting price is positive, passing the
      starting-price rule implies passing the "greater than 0" rule. */
  lemma AboveStartingPriceImpliesPositive(b: Bid)
    requires b.item.Some? && b.item.value.startingPrice.Some? && b.item.value.startingPrice.value > 0.0
    requires b.amount.Some?
    requires Error(BidAmount, NotAboveStartingPrice) !in BidValidation(b).errors
    ensures Error(BidAmount, NotGreaterThanZero) !in BidValidation(b).errors
  {
  }

  /** No rule compares the bidder with the listing's owner: an owner may bid
      on their own listing. */
  lemma OwnerMayBid(b: Bid)
    requires b.item.Some? && b.user == b.item.value.owner && b.user.Some?
    requires b.amount.Some? && b.item.value.startingPrice.Some?
    requires b.amount.value > b.item.value.startingPrice.value > 0.0
    ensures BidValid(b)
  {
  }
}
