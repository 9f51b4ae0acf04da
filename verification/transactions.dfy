/** The settlement record (`Transaction`) and its validations. */
module Transactions {
  import opened Wrappers
  import opened Validators

  /** A transaction as held in memory: `item`, `buyer` and `seller` are the
      resolved associations (None when the reference does not resolve). */
  datatype Transaction = Transaction(
    item: Option<ItemId>,
    buyer: Option<UserId>,
    seller: Option<UserId>,
    finalPrice: Option<real>,
    paymentStatus: Option<string>,
    deliveryStatus: Option<string>)

  /** Every error `valid?` collects on a transaction. */
  function TransactionErrors(t: Transaction): (errs: set<Error>)
    ensures On(errs, ItemRef) == Required(ItemRef, t.item)
    ensures On(errs, BuyerRef) == Required(BuyerRef, t.buyer)
    ensures On(errs, SellerRef) == Required(SellerRef, t.seller)
    ensures On(errs, FinalPrice) == PositiveNumber(FinalPrice, t.finalPrice)
    ensures On(errs, PaymentStatus) == TextPresence(PaymentStatus, t.paymentStatus)
    ensures On(errs, DeliveryStatus) == TextPresence(DeliveryStatus, t.deliveryStatus)
    ensures forall e :: e in errs ==> e.field in {ItemRef, BuyerRef, SellerRef, FinalPrice, PaymentStatus, DeliveryStatus}
  {
    Required(ItemRef, t.item)
    + Required(BuyerRef, t.buyer)
    + Required(SellerRef, t.seller)
    + PositiveNumber(FinalPrice, t.finalPrice)
    + TextPresence(PaymentStatus, t.paymentStatus)
    + TextPresence(DeliveryStatus, t.deliveryStatus)
  }

  predicate TransactionValid(t: Transaction) {
    TransactionErrors(t) == {}
  }

  /** A transaction is valid exactly when its listing, buyer and seller
      exist, its final price is positive and both statuses are non-blank. */
  lemma TransactionValidIff(t: Transaction)
    ensures TransactionValid(t) <==>
      && t.item.Some? && t.buyer.Some? && t.seller.Some?
      && t.finalPrice.Some? && t.finalPrice.value > 0.0
      && !IsBlank(t.paymentStatus) && !IsBlank(t.deliveryStatus)
  {
  }

  /** A missing or non-positive final price fails the transaction. */
  lemma BadFinalPriceInvalid(t: Transaction)
    requires t.finalPrice.None? || t.finalPrice.value <= 0.0
    ensures !TransactionValid(t)
    ensures t.finalPrice.None? ==> Error(FinalPrice, Blank) in TransactionErrors(t)
    ensures t.finalPrice.Some? ==> Error(FinalPrice, NotGreaterThanZero) in TransactionErrors(t)
  {
  }

  /** The statuses form no enumeration: any two non-blank strings are
      accepted in place of the ones a transaction holds. */
  lemma AnyNonBlankStatusAccepted(t: Transaction, payment: string, delivery: string)
    requires TransactionValid(t)
    requires !IsBlank(Some(payment)) && !IsBlank(Some(delivery))
    ensures TransactionValid(t.(paymentStatus := Some(payment), deliveryStatus := Some(delivery)))
  {
  }

  /** A transaction whose listing, buyer or seller does not resolve is
      invalid, with the "must exist" error on that association. */
  lemma ReferencesRequired(t: Transaction)
    requires t.item.None? || t.buyer.None? || t.seller.None?
    ensures !TransactionValid(t)
    ensures t.item.None? ==> Error(ItemRef, MustExist) in TransactionErrors(t)
    ensures t.buyer.None? ==> Error(BuyerRef, MustExist) in TransactionErrors(t)
    ensures t.seller.None? ==> Error(SellerRef, MustExist) in TransactionErrors(t)
  {
  }

  /** Buyer and seller are never compared: a user may buy from themselves,
      and the final price is never compared with any bid or starting
      price, so any positive price is accepted. */
  lemma SelfPurchaseAtAnyPositivePrice(item: ItemId, user: UserId, price: real)
    requires price > 0.0
    ensures TransactionValid(Transaction(Some(item), Some(user), Some(user), Some(price), Some("completed"), Some("pending")))
  {
    var t := Transaction(Some(item), Some(user), Some(user), Some(price), Some("completed"), Some("pending"));
    assert t.paymentStatus.value[0] == 'c' && t.deliveryStatus.value[0] == 'p';
  }
}
