/** Repeated payment requests and the Transaction records they save. No
    rule ties a listing to a single settlement: every paid request whose
    record validates adds one more Transaction for its listing. */
module PaymentHistory {
  import opened Wrappers
  import opened Validators
  import opened Transactions
  import opened Payments

  /** One call of the payment action, with the card processor's answer. */
  datatype Request = Request(amount: Option<real>, item: ItemId, buyer: UserId, itemOwner: UserId, outcome: ChargeOutcome)

  /** The Transaction one request leaves saved, if any. */
  function SavedBy(q: Request): (s: seq<Transaction>)
    ensures |s| <= 1
    ensures |s| == 1 <==> q.outcome.Paid? && q.amount.Some? && q.amount.value >= 1.0
    ensures |s| == 1 ==> s[0].item == Some(q.item) && TransactionValid(s[0])
  {
    SavedIffAtLeastOneUnit(q.amount, q.item, q.buyer, q.itemOwner);
    match Create(q.amount, q.item, q.buyer, q.itemOwner, q.outcome)
    case Rendered(_, _, Some(Created(t, true))) => [t]
    case _ => []
  }

  /** The Transactions saved by handling `reqs` in order. */
  function Saved(reqs: seq<Request>): (ts: seq<Transaction>)
    ensures |ts| <= |reqs|
    ensures forall i :: 0 <= i < |ts| ==> TransactionValid(ts[i])
    decreases |reqs|
  {
    if reqs == [] then [] else SavedBy(reqs[0]) + Saved(reqs[1..])
  }

  /** Number of records in `ts` for listing `item`. */
  function RecordsFor(ts: seq<Transaction>, item: ItemId): nat
    decreases |ts|
  {
    if ts == [] then 0 else (if ts[0].item == Some(item) then 1 else 0) + RecordsFor(ts[1..], item)
  }

  /** Number of requests in `reqs` for listing `item` that were paid for at
      least one whole unit. */
  function PaidRequestsFor(reqs: seq<Request>, item: ItemId): nat
    decreases |reqs|
  {
    if reqs == [] then 0
    else
      var q := reqs[0];
      (if q.item == item && q.outcome.Paid? && q.amount.Some? && q.amount.value >= 1.0 then 1 else 0)
      + PaidRequestsFor(reqs[1..], item)
  }

  lemma {:induction false} RecordsForAppend(a: seq<Transaction>, b: seq<Transaction>, item: ItemId)
    ensures RecordsFor(a + b, item) == RecordsFor(a, item) + RecordsFor(b, item)
    decreases |a|
  {
    if a == [] {
      assert a + b == b;
    } else {
      assert (a + b)[1..] == a[1..] + b;
      RecordsForAppend(a[1..], b, item);
    }
  }

  /** Every paid request for at least one whole unit leaves exactly one
      Transaction for its listing, however many already exist. */
  lemma {:induction false} OneRecordPerPaidRequest(reqs: seq<Request>, item: ItemId)
    ensures RecordsFor(Saved(reqs), item) == PaidRequestsFor(reqs, item)
    decreases |reqs|
  {
    if reqs != [] {
      var s := SavedBy(reqs[0]);
      RecordsForAppend(s, Saved(reqs[1..]), item);
      OneRecordPerPaidRequest(reqs[1..], item);
      if |s| == 1 {
        assert s[1..] == [];
      }
    }
  }

  /** Two paid payments for the same listing leave two Transactions for it. */
  lemma TwoSettlementsOfOneListing(a: Request, b: Request)
    requires a.item == b.item
    requires a.outcome.Paid? && a.amount.Some? && a.amount.value >= 1.0
    requires b.outcome.Paid? && b.amount.Some? && b.amount.value >= 1.0
    ensures RecordsFor(Saved([a, b]), a.item) == 2
  {
    OneRecordPerPaidRequest([a, b], a.item);
    assert [a, b][1..] == [b];
    assert [b][1..] == [];
    assert PaidRequestsFor([b], a.item) == 1 + PaidRequestsFor([], a.item);
  }
}
