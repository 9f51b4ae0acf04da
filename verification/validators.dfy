/** The three framework validators the records use, as pure functions from
    an attribute value to the set of errors they add:
    - `presence: true` (Ruby's `blank?`),
    - `numericality: { greater_than: 0 }`,
    - the implicit presence check of a required `belongs_to` association.
    A record is valid exactly when the union of its validators' errors is empty. */
module Validators {
  import opened Wrappers

  type UserId = nat
  type ItemId = nat

  /** Attributes and associations an error can be attached to. */
  datatype Field =
    | Title | Description | StartingPrice | AuctionDuration | AuctionEndTime | UserRef
    | ItemRef | BidAmount
    | BuyerRef | SellerRef | FinalPrice | PaymentStatus | DeliveryStatus

  /** The error keys the validators add. */
  datatype Kind =
    | Blank                 // "can't be blank"
    | NotANumber            // "is not a number"
    | NotGreaterThanZero    // "must be greater than 0"
    | MustExist             // required belongs_to association is missing
    | NotAboveStartingPrice // "must be greater than the starting price"

  datatype Error = Error(field: Field, kind: Kind)

  /** Characters of the POSIX class [[:space:]] on a Unicode string:
      the code points with the Unicode White_Space property. */
  predicate IsSpace(c: char) {
    var n := c as int;
    || 0x09 <= n <= 0x0D || n == 0x20 || n == 0x85 || n == 0xA0 || n == 0x1680
    || 0x2000 <= n <= 0x200A || n == 0x2028 || n == 0x2029 || n == 0x202F
    || n == 0x205F || n == 0x3000
  }

  /** Ruby's `blank?` on a string attribute: nil, empty, or whitespace only. */
  predicate IsBlank(s: Option<string>) {
    s.None? || forall i :: 0 <= i < |s.value| ==> IsSpace(s.value[i])
  }

  /** `blank?` computed by a left-to-right scan, as the anchored match
      /\A[[:space:]]*\z/ does it: stop at the first non-space character.
      This is the executable check; its contract shows it agrees with the
      definition `IsBlank` that the validators below are stated with. */
  method ScanBlank(s: Option<string>) returns (b: bool)
    ensures b <==> IsBlank(s)
    ensures !b ==> exists i :: 0 <= i < |s.value| && !IsSpace(s.value[i])
  {
    if s.None? {
      return true;
    }
    var t := s.value;
    var k := 0;
    while k < |t|
      invariant 0 <= k <= |t|
      invariant forall i :: 0 <= i < k ==> IsSpace(t[i])
    {
      if !IsSpace(t[k]) {
        return false;
      }
      k := k + 1;
    }
    return true;
  }

  /** `validates f, presence: true` on a string attribute. */
  function TextPresence(f: Field, s: Option<string>): (errs: set<Error>)
    ensures errs == {} <==> !IsBlank(s)
    ensures errs <= {Error(f, Blank)}
    ensures forall e :: e in errs ==> e.field == f
  {
    if IsBlank(s) then {Error(f, Blank)} else {}
  }

  /** `validates f, presence: true` on a non-string attribute (a duration,
      a timestamp): only nil is blank. */
  function ValuePresence<T>(f: Field, v: Option<T>): (errs: set<Error>)
    ensures errs == {} <==> v.Some?
    ensures errs <= {Error(f, Blank)}
    ensures forall e :: e in errs ==> e.field == f
  {
    if v.None? then {Error(f, Blank)} else {}
  }

  /** `validates f, presence: true, numericality: { greater_than: 0 }`.
      A nil value fails both validators: it is blank and it is not a number. */
  function PositiveNumber(f: Field, v: Option<real>): (errs: set<Error>)
    ensures errs == {} <==> v.Some? && v.value > 0.0
    ensures v.None? ==> errs == {Error(f, Blank), Error(f, NotANumber)}
    ensures v.Some? && v.value <= 0.0 ==> errs == {Error(f, NotGreaterThanZero)}
    ensures forall e :: e in errs ==> e.field == f
  {
    match v
    case None => {Error(f, Blank), Error(f, NotANumber)}
    case Some(x) => if x > 0.0 then {} else {Error(f, NotGreaterThanZero)}
  }

  /** A required `belongs_to` association: it must resolve to a record. */
  function Required<T>(f: Field, ref: Option<T>): (errs: set<Error>)
    ensures errs == {} <==> ref.Some?
    ensures errs <= {Error(f, MustExist)}
    ensures forall e :: e in errs ==> e.field == f
  {
    if ref.None? then {Error(f, MustExist)} else {}
  }

  /** The errors of a record restricted to one field. */
  function On(errs: set<Error>, f: Field): (r: set<Error>)
    ensures r <= errs
    ensures forall e :: e in r ==> e.field == f
    ensures forall e :: e in errs && e.field == f ==> e in r
  {
    set e | e in errs && e.field == f
  }
}
