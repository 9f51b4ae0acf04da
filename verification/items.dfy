/** An auction listing (`Item`) and its validations. */
module Items {
  import opened Wrappers
  import opened Validators

  /** A listing as held in memory. Every attribute may be nil before the
      record is saved; `owner` is the resolved `user` association. The
      duration is a signed number of seconds (a database interval) and the
      end time a timestamp in seconds: neither is interpreted. */
  datatype Item = Item(
    owner: Option<UserId>,
    title: Option<string>,
    description: Option<string>,
    startingPrice: Option<real>,
    auctionDuration: Option<int>,
    auctionEndTime: Option<int>)

  /** Every error `valid?` collects on a listing: each rule runs and its
      errors accumulate, none short-circuits another. */
  function ItemErrors(i: Item): (errs: set<Error>)
    ensures On(errs, UserRef) == Required(UserRef, i.owner)
    ensures On(errs, Title) == TextPresence(Title, i.title)
    ensures On(errs, Description) == TextPresence(Description, i.description)
    ensures On(errs, StartingPrice) == PositiveNumber(StartingPrice, i.startingPrice)
    ensures On(errs, AuctionDuration) == ValuePresence(AuctionDuration, i.auctionDuration)
    ensures On(errs, AuctionEndTime) == ValuePresence(AuctionEndTime, i.auctionEndTime)
    ensures forall e :: e in errs ==> e.field in {UserRef, Title, Description, StartingPrice, AuctionDuration, AuctionEndTime}
  {
    Required(UserRef, i.owner)
    + TextPresence(Title, i.title)
    + TextPresence(Description, i.description)
    + PositiveNumber(StartingPrice, i.startingPrice)
    + ValuePresence(AuctionDuration, i.auctionDuration)
    + ValuePresence(AuctionEndTime, i.auctionEndTime)
  }

  predicate ItemValid(i: Item) {
    ItemErrors(i) == {}
  }

  /** A listing is valid exactly when it has an owner, a non-blank title and
      description, a positive starting price, a duration and an end time. */
  lemma ItemValidIff(i: Item)
    ensures ItemValid(i) <==>
      && i.owner.Some?
      && !IsBlank(i.title)
      && !IsBlank(i.description)
      && i.startingPrice.Some? && i.startingPrice.value > 0.0
      && i.auctionDuration.Some?
      && i.auctionEndTime.Some?
  {
  }

  /** A starting price that is zero or negative fails the listing, whatever
      the other attributes hold. */
  lemma NonPositivePriceInvalid(i: Item)
    requires i.startingPrice.Some? && i.startingPrice.value <= 0.0
    ensures Error(StartingPrice, NotGreaterThanZero) in ItemErrors(i)
    ensures !ItemValid(i)
  {
  }

  /** A nil starting price is reported both as blank and as not a number. */
  lemma MissingPriceInvalid(i: Item)
    requires i.startingPrice.None?
    ensures Error(StartingPrice, Blank) in ItemErrors(i)
    ensures Error(StartingPrice, NotANumber) in ItemErrors(i)
  {
  }

  /** A blank title or description (nil, empty, or whitespace only) fails
      the listing. */
  lemma BlankTextInvalid(i: Item)
    requires IsBlank(i.title) || IsBlank(i.description)
    ensures !ItemValid(i)
    ensures IsBlank(i.title) ==> Error(Title, Blank) in ItemErrors(i)
    ensures IsBlank(i.description) ==> Error(Description, Blank) in ItemErrors(i)
  {
  }

  /** Errors accumulate: a listing with a whitespace title and a zero price
      reports both, and nothing else when the rest is well formed. */
  lemma ErrorsAccumulate()
    ensures
      var i := Item(Some(7), Some(" \t"), Some("lamp"), Some(0.0), Some(86400), Some(1700000000));
      ItemErrors(i) == {Error(Title, Blank), Error(StartingPrice, NotGreaterThanZero)}
  {
    var i := Item(Some(7), Some(" \t"), Some("lamp"), Some(0.0), Some(86400), Some(1700000000));
    assert IsSpace(' ') && IsSpace('\t');
    assert IsBlank(i.title);
    assert i.description.value[0] == 'l' && !IsSpace('l');
  }

  /** The duration and the end time are only required to be present: any
      two values (a negative duration, an end time in the past, an end
      time unrelated to the duration) give the same verdict. No clock is
      consulted. */
  lemma ScheduleUnconstrained(i: Item, duration: int, endTime: int)
    requires i.auctionDuration.Some? && i.auctionEndTime.Some?
    ensures ItemErrors(i.(auctionDuration := Some(duration), auctionEndTime := Some(endTime))) == ItemErrors(i)
  {
  }

  /** A listing without an owner is invalid. */
  lemma OwnerRequired(i: Item)
    requires i.owner.None?
    ensures Error(UserRef, MustExist) in ItemErrors(i)
  {
  }
}
