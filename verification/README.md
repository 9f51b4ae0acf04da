# Bidding War: record validations and payment settlement in Dafny

This project models the decision logic of the Bidding War auction
marketplace (a Rails application):

- the validations that decide whether a listing (`Item`), a `Bid` or a
  settlement record (`Transaction`) may be saved;
- the payment action `PaymentsController#create`, which converts the
  requested amount to cents, charges the card, and on a paid charge builds
  and saves a `Transaction`.

Every record is an immutable datatype whose nullable columns are `Option`
fields. Associations appear as the record they resolve to, or `None` when
the reference does not resolve. Decimal columns are `real`. Each
validation is a pure function that returns the set of errors `valid?`
would collect. A record is saved exactly when that set is empty.

Modules:

- `Wrappers`: the `Option` type.
- `Validators`: the three framework validators the records use. These are
  `presence: true` (Ruby's `blank?`), `numericality: { greater_than: 0 }`
  and the required `belongs_to` association.
- `Items`, `Bids`, `Transactions`: one module per model class.
- `Payments`: the payment action. The card processor's answer is an input:
  `Paid`, `NotPaid`, `CardError(message)`, or `OtherError` for every other
  processor exception, which the action does not rescue.
- `PaymentHistory`: the Transaction records left by a sequence of payment
  requests.

The code enforces only a few rules. It has no comparison with the current
highest bid, no check that the auction is still open, no guard against an
owner bidding on their own listing, and nothing that limits a listing to a
single Transaction. The model does not add these rules, and several
lemmas record that they are absent (`EqualOrLowerThanHighestAccepted`, `OwnerMayBid`,
`ScheduleUnconstrained`, `SelfPurchaseAtAnyPositivePrice`,
`TwoSettlementsOfOneListing`).

Rails behaviour the model relies on:

- A nil value under `presence` plus `numericality` gets two errors:
  "can't be blank" and "is not a number".
- `belongs_to` is required, as in Rails 5 and later (the migrations are
  Rails 6). A missing association gets a "must exist" error.
- `blank?` on a string is true for nil, for the empty string, and for a
  string made only of Unicode white-space characters.
- Errors from all rules accumulate.
- The bid rule `bid_amount <= item.starting_price` raises when the
  associated listing has a nil starting price. `BidValidation` returns
  `Raised` in that case.
- The `Item` class loads. As written, `has_one :transaction`
  (app/models/item.rb:4) names an association `transaction`, which Active
  Record refuses with an `ArgumentError` because it clashes with its own
  `transaction` method. If that happens, the class body stops before the
  validations of lines 6-10 are registered. Then every path that loads
  `Item` (a bid's or a transaction's `item`, and `Item.find` in the payment
  action) raises instead of validating. The model describes the
  validations as declared and does not model that load failure.

## Model

| member | source | states |
|---|---|---|
| Validators.ScanBlank | app/models/item.rb:6-7 | the `blank?` test behind `presence` is true exactly when the string is nil or every character is Unicode white space; when it is false there is a non-space character |
| Validators.TextPresence | app/models/transaction.rb:7-8 | `presence` on a string adds an error exactly when the value is blank, and only the "blank" error on that attribute |
| Validators.PositiveNumber | app/models/transaction.rb:6 | `presence` plus `numericality > 0` passes exactly for a present positive value; nil gets both "blank" and "not a number"; a value ≤ 0 gets only "greater than 0" |
| Validators.ValuePresence | app/models/item.rb:9-10 | `presence` on a duration or timestamp adds the "blank" error exactly when the value is nil |
| Validators.Required | app/models/transaction.rb:2-4 | a required association adds "must exist" exactly when it does not resolve |
| Items.ItemErrors | app/models/item.rb:2-10 | a listing's errors on each attribute are exactly that attribute's validator errors; all rules run and accumulate |
| Items.ItemValidIff | app/models/item.rb:2-10 | a listing is valid iff it has an owner, a non-blank title and description, a positive starting price, a duration and an end time |
| Items.NonPositivePriceInvalid | app/models/item.rb:8 | a starting price ≤ 0 makes the listing invalid whatever the other attributes are |
| Items.MissingPriceInvalid | app/models/item.rb:8 | a nil starting price is reported both as blank and as not a number |
| Items.BlankTextInvalid | app/models/item.rb:6-7 | an empty or whitespace-only title or description makes the listing invalid, with the "blank" error on that attribute |
| Items.ErrorsAccumulate | app/models/item.rb:6-10 | a whitespace title and a zero price are both reported, and nothing else |
| Items.ScheduleUnconstrained | app/models/item.rb:9-10 | the duration and the end time are only required to be present; no relation between them or to the current time affects validity |
| Items.OwnerRequired | app/models/item.rb:2 | a listing without an owning user is invalid |
| Bids.StartingPriceRule | app/models/bid.rb:10-14 | the custom rule adds its error exactly when amount, listing and starting price are present and the amount is ≤ the starting price; it adds nothing when the amount or listing is absent; it raises when that price is nil |
| Bids.BidValidation | app/models/bid.rb:2-14 | a bid's errors are the missing-association errors, the amount's presence and positivity errors, and the starting-price error exactly when the amount is ≤ the listing's starting price |
| Bids.BidValidIff | app/models/bid.rb:2-14 | a bid is accepted iff its listing and bidder exist and its amount is above zero and above the listing's starting price |
| Bids.MissingAmountInvalid | app/models/bid.rb:5 | a bid without an amount is rejected as blank and as not a number |
| Bids.NonPositiveAmountInvalid | app/models/bid.rb:5 | a bid with amount ≤ 0 is never accepted |
| Bids.StartingPriceRuleSilentWhenAbsent | app/models/bid.rb:11 | with no amount or no listing the starting-price rule adds nothing and does not raise |
| Bids.OnlyAmountAndStartingPriceMatter | app/models/bid.rb:5-14 | acceptance depends only on the amount, the existence of listing and bidder, and the listing's starting price; other bids are never consulted |
| Bids.EqualOrLowerThanHighestAccepted | app/models/bid.rb:5-14 | on a listing priced 100, bids of 150, then 150, then 120 are all accepted |
| Bids.AcceptanceMonotonic | app/models/bid.rb:5-11 | if a bid is accepted, the same bid with a higher amount is accepted |
| Bids.AboveStartingPriceImpliesPositive | app/models/bid.rb:5-11 | on a listing with a positive starting price, passing the starting-price rule implies passing the "greater than 0" rule |
| Bids.OwnerMayBid | app/models/bid.rb:2-14 | a listing's owner may bid on it: no self-bid guard exists |
| Transactions.TransactionErrors | app/models/transaction.rb:2-8 | a transaction's errors on each attribute and association are exactly that validator's errors |
| Transactions.TransactionValidIff | app/models/transaction.rb:2-8 | a transaction is valid iff listing, buyer and seller exist, the final price is positive and both statuses are non-blank |
| Transactions.BadFinalPriceInvalid | app/models/transaction.rb:6 | a missing or non-positive final price makes the transaction invalid |
| Transactions.AnyNonBlankStatusAccepted | app/models/transaction.rb:7-8 | any non-blank payment and delivery status strings are accepted; there is no enumeration of states |
| Transactions.ReferencesRequired | app/models/transaction.rb:2-4 | a transaction whose listing, buyer or seller does not resolve is invalid with "must exist" on it |
| Transactions.SelfPurchaseAtAnyPositivePrice | app/models/transaction.rb:3-6 | buyer and seller may be the same user, and any positive final price is accepted, unrelated to any bid or starting price |
| Payments.Truncate | app/controllers/payments_controller.rb:6 | `to_i` drops the fractional part toward zero: the result is within one unit of the input, on the zero side |
| Payments.WholeUnits | app/controllers/payments_controller.rb:6 | `params[:amount].to_i` is 0 for a missing amount and otherwise the requested amount with its fractional part dropped toward zero (within one unit of it, on the zero side) |
| Payments.ChargeCents | app/controllers/payments_controller.rb:6 | the charge is a multiple of 100 cents and lies within 100 cents below the requested amount (above it for negative amounts); a missing amount charges 0 |
| Payments.SettlementRecord | app/controllers/payments_controller.rb:22-29 | the built record names the listing, the current user as buyer, the listing's owner as seller, statuses 'completed' and 'pending', and a final price that is the charge divided by 100 |
| Payments.Create | app/controllers/payments_controller.rb:4-37 | a Transaction is built only on a paid charge, with buyer, seller and statuses fixed; not paid renders the failure message, a card error renders its own message, both 422 with no record; other processor errors propagate |
| Payments.FinalPriceRoundTrip | app/controllers/payments_controller.rb:6-26 | the recorded final price equals the whole part of the requested amount and times 100 gives back exactly the cents charged |
| Payments.SavedIffAtLeastOneUnit | app/controllers/payments_controller.rb:21-29 | on a paid charge the record is saved iff the requested amount is at least 1 |
| Payments.PaidSucceedsEvenWhenUnsaved | app/controllers/payments_controller.rb:21-30 | a paid charge of 0.75 is answered with success although its record fails validation and is not saved |
| PaymentHistory.SavedBy | app/controllers/payments_controller.rb:21-30 | one request saves at most one record, exactly when it is paid for at least one whole unit, and that record is valid and names the request's listing |
| PaymentHistory.Saved | app/controllers/payments_controller.rb:21-30 | a sequence of requests saves at most one valid record per request |
| PaymentHistory.OneRecordPerPaidRequest | app/models/transaction.rb:1-9 | the number of records for a listing equals the number of its requests paid for at least one whole unit; earlier records never block a new one |
| PaymentHistory.TwoSettlementsOfOneListing | app/controllers/payments_controller.rb:21-29 | every paid charge creates a new Transaction without looking for an existing one, and `Transaction` has no uniqueness rule on its listing: two paid payments for one listing leave two Transactions |

## Left out

- Card processor calls (customer and charge creation) are network calls. They become the `ChargeOutcome` input. The processor's own refusals, such as a minimum charge or a non-positive amount, are covered by that input and are not derived from the amount.
- Parsing the amount parameter is not modelled. The amount is an already-parsed decimal (`Option<real>`, with `None` for a missing parameter). `String#to_i` on other text, such as `"1e3".to_i == 1` or leading garbage, is not modelled.
- `amount / 100.0` is float division in Ruby. It is modelled as exact division; the charge is always a multiple of 100, so only very large amounts would differ.
- A failing `Item.find(params[:item_id])` lookup is not modelled. The listing owner is an input. Its failure after a paid charge would raise.
- Persistence, database NOT NULL constraints, and cascading deletes are not modelled. Associations are taken as already resolved or unresolved.
- `User` validations are not modelled. They depend on Devise, `has_secure_password`, an email pattern defined outside the application, and database uniqueness.
- The CRUD controllers under `app/controllers/api/v1/` and `app/controllers/bids_controller.rb` are not modelled. Besides `save`/`update` and rendering, they authenticate, authorize through policies that are not part of this model, and look records up by id (raising on a missing one). Their broadcast and e-mail side effects are I/O.
- `Item` loading failure: the clash of `has_one :transaction` with Active Record's own `transaction` method is not modelled, because the model describes the validations as declared (see above).
- The notification mailer is e-mail I/O and is not modelled.
- Validation-error message texts and their ordering are not modelled. Errors are a set of (attribute, key) pairs.
- Authentication (`authenticate_user!`) is not modelled. The current user is an input.
