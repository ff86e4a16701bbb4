/**
 * Input validation of the remote control: the three validators that turn the
 * whitespace-separated inputs into a channel range, a blocked list and a watch
 * list, and the constructor that runs them in that order and stops at the
 * first failure.
 *
 * Each input is given already split and converted: a token is the integer
 * Ruby's `Integer()` read from it, or `NotAnInteger` when `Integer()` raised.
 */
module Validation {
  import opened Wrappers
  import opened RubyCore

  const LowestChannel: int := 1
  const HighestChannel: int := 10000
  const MaxBlockedChannels: int := 40
  const MaxWatchChannels: int := 50

  datatype Token = Int(value: int) | NotAnInteger

  /** One tag per distinct failure the validators report. */
  datatype InvalidInput =
    | RangeNotTwoIntegers    // malformed token or not exactly two tokens (one message in the Ruby code)
    | LowestOutOfBounds
    | HighestOutOfBounds
    | BlockedNotIntegers
    | TooManyBlocked
    | BlockedCountMismatch
    | BlockedOutOfRange
    | WatchNotIntegers
    | WatchContainsBlocked
    | WatchCountOutOfBounds
    | WatchCountMismatch
    | WatchOutOfRange

  predicate IsRangeError(e: InvalidInput) {
    e.RangeNotTwoIntegers? || e.LowestOutOfBounds? || e.HighestOutOfBounds?
  }

  predicate IsBlockedError(e: InvalidInput) {
    e.BlockedNotIntegers? || e.TooManyBlocked? || e.BlockedCountMismatch? || e.BlockedOutOfRange?
  }

  predicate IsWatchError(e: InvalidInput) {
    e.WatchNotIntegers? || e.WatchContainsBlocked? || e.WatchCountOutOfBounds? || e.WatchCountMismatch? || e.WatchOutOfRange?
  }

  /** The remote control's state once constructed: the four instance variables. */
  datatype RemoteControl = RemoteControl(lowest: int, highest: int, blocked: seq<int>, watch: seq<int>)

  /** What a successful construction guarantees about the four fields. */
  predicate Valid(rc: RemoteControl) {
    && LowestChannel <= rc.lowest <= rc.highest <= HighestChannel
    && |rc.blocked| <= MaxBlockedChannels
    && AllWithin(rc.blocked, rc.lowest, rc.highest)
    && 1 <= |rc.watch| <= MaxWatchChannels
    && AllWithin(rc.watch, rc.lowest, rc.highest)
    && (forall w :: w in rc.watch ==> w !in rc.blocked)
  }

  /** The tokens that spell out a list of integers. */
  function Tokens(xs: seq<int>): (ts: seq<Token>)
    ensures |ts| == |xs|
    ensures forall i :: 0 <= i < |xs| ==> ts[i] == Int(xs[i])
  {
    seq(|xs|, i requires 0 <= i < |xs| => Int(xs[i]))
  }

  /** `split(" ").collect { Integer(_) }`: every value, or `None` when some token is not an integer. */
  function Integers(tokens: seq<Token>): (r: Option<seq<int>>)
    ensures r.Some? <==> forall i :: 0 <= i < |tokens| ==> tokens[i].Int?
    ensures r.Some? ==> tokens == Tokens(r.value)
  {
    if forall i :: 0 <= i < |tokens| ==> tokens[i].Int? then
      Some(seq(|tokens|, i requires 0 <= i < |tokens| => tokens[i].value))
    else
      None
  }

  /** Reading back the tokens of a list gives the list. */
  lemma IntegersOfTokens(xs: seq<int>)
    ensures Integers(Tokens(xs)) == Some(xs)
  {
    var r := Integers(Tokens(xs));
    assert r.Some?;
    assert |r.value| == |xs|;
    assert forall i :: 0 <= i < |xs| ==> r.value[i] == xs[i];
    assert r.value == xs;
  }

  /** `list.shift.to_i`: the leading declared count, `0` for an empty list. */
  function DeclaredCount(values: seq<int>): (count: int) {
    if values == [] then 0 else values[0]
  }

  /** What is left of the list after `shift`. */
  function Listed(values: seq<int>): (listed: seq<int>) {
    if values == [] then [] else values[1..]
  }

  /** Validates `lowest highest`. */
  function ValidateChannelList(tokens: seq<Token>): (r: Result<(int, int), InvalidInput>)
    ensures r.Ok? <==>
      && |tokens| == 2 && tokens[0].Int? && tokens[1].Int?
      && LowestChannel <= tokens[0].value <= tokens[1].value <= HighestChannel
    ensures r.Ok? ==> tokens == [Int(r.value.0), Int(r.value.1)]
    ensures r.Err? ==> IsRangeError(r.error)
    ensures r == Err(RangeNotTwoIntegers) <==> !(|tokens| == 2 && tokens[0].Int? && tokens[1].Int?)
  {
    match Integers(tokens)
    case None => Err(RangeNotTwoIntegers)
    case Some(channels) =>
      if |channels| != 2 then Err(RangeNotTwoIntegers)
      else
        var lowest, highest := channels[0], channels[1];
        if !(LowestChannel <= lowest <= HighestChannel) then Err(LowestOutOfBounds)
        else if !(lowest <= highest <= HighestChannel) then Err(HighestOutOfBounds)
        else Ok((lowest, highest))
  }

  /** Validates `n c1 ... cn` against the channel range; duplicates are kept. */
  function ValidateBlockedChannelList(tokens: seq<Token>, lowest: int, highest: int): (r: Result<seq<int>, InvalidInput>)
    ensures r.Ok? ==> |r.value| <= MaxBlockedChannels && AllWithin(r.value, lowest, highest)
    ensures r.Ok? ==> tokens == [Int(|r.value|)] + Tokens(r.value) || (tokens == [] && r.value == [])
    ensures r.Err? ==> IsBlockedError(r.error)
  {
    match Integers(tokens)
    case None => Err(BlockedNotIntegers)
    case Some(values) =>
      var count, blocked := DeclaredCount(values), Listed(values);
      if count > MaxBlockedChannels then Err(TooManyBlocked)
      else if count != |blocked| then Err(BlockedCountMismatch)
      else if count > 0 && (Max(blocked) > highest || Min(blocked) < lowest) then Err(BlockedOutOfRange)
      else
        MaxMinOutsideWhenListed(blocked, lowest, highest);
        assert values != [] ==> values == [|blocked|] + blocked;
        TokensOfCounted(blocked);
        Ok(blocked)
  }

  /** Validates `m w1 ... wm` against the range and the blocked list; the order is kept. */
  function ValidateToWatchChannelList(tokens: seq<Token>, lowest: int, highest: int, blocked: seq<int>): (r: Result<seq<int>, InvalidInput>)
    ensures r.Ok? ==> 1 <= |r.value| <= MaxWatchChannels && AllWithin(r.value, lowest, highest)
    ensures r.Ok? ==> forall w :: w in r.value ==> w !in blocked
    ensures r.Ok? ==> tokens == [Int(|r.value|)] + Tokens(r.value)
    ensures r.Err? ==> IsWatchError(r.error)
  {
    match Integers(tokens)
    case None => Err(WatchNotIntegers)
    case Some(values) =>
      var count, watch := DeclaredCount(values), Listed(values);
      if |Intersect(watch, blocked)| > 0 then Err(WatchContainsBlocked)
      else if count < 1 || count > MaxWatchChannels then Err(WatchCountOutOfBounds)
      else if count != |watch| then Err(WatchCountMismatch)
      else if count > 0 && (Max(watch) > highest || Min(watch) < lowest) then Err(WatchOutOfRange)
      else
        MaxMinOutsideWhenListed(watch, lowest, highest);
        assert values == [|watch|] + watch;
        TokensOfCounted(watch);
        IntersectContents(watch, blocked);
        Ok(watch)
  }

  lemma MaxMinOutsideWhenListed(s: seq<int>, lo: int, hi: int)
    ensures (|s| > 0 && (Max(s) > hi || Min(s) < lo)) <==> !AllWithin(s, lo, hi)
  {
    if |s| > 0 {
      MaxMinOutside(s, lo, hi);
    }
  }

  /**
   * `RemoteControl.new`: range, then blocked list, then watch list; the first
   * failure is the result and later inputs are not looked at.
   */
  function New(channelList: seq<Token>, blockedList: seq<Token>, watchList: seq<Token>): (r: Result<RemoteControl, InvalidInput>)
    ensures r.Ok? ==> Valid(r.value)
    ensures r.Err? && IsRangeError(r.error) <==> ValidateChannelList(channelList).Err?
    ensures r.Err? && IsBlockedError(r.error) ==> ValidateChannelList(channelList).Ok?
    ensures r.Err? && IsWatchError(r.error) ==>
      var range := ValidateChannelList(channelList).value;
      ValidateBlockedChannelList(blockedList, range.0, range.1).Ok?
  {
    match ValidateChannelList(channelList)
    case Err(e) => Err(e)
    case Ok(range) =>
      var (lowest, highest) := range;
      match ValidateBlockedChannelList(blockedList, lowest, highest)
      case Err(e) => Err(e)
      case Ok(blocked) =>
        match ValidateToWatchChannelList(watchList, lowest, highest, blocked)
        case Err(e) => Err(e)
        case Ok(watch) => Ok(RemoteControl(lowest, highest, blocked, watch))
  }

  /** The three inputs that spell out a remote control, each count written first. */
  function ChannelListOf(rc: RemoteControl): (tokens: seq<Token>) {
    [Int(rc.lowest), Int(rc.highest)]
  }

  function BlockedListOf(rc: RemoteControl): (tokens: seq<Token>) {
    [Int(|rc.blocked|)] + Tokens(rc.blocked)
  }

  function WatchListOf(rc: RemoteControl): (tokens: seq<Token>) {
    [Int(|rc.watch|)] + Tokens(rc.watch)
  }

  /** A blocked list of at most forty channels inside the range is accepted from its spelling, duplicates included. */
  lemma {:induction false} BlockedListAccepted(blocked: seq<int>, lowest: int, highest: int)
    requires |blocked| <= MaxBlockedChannels && AllWithin(blocked, lowest, highest)
    ensures ValidateBlockedChannelList([Int(|blocked|)] + Tokens(blocked), lowest, highest) == Ok(blocked)
  {
    var values := [|blocked|] + blocked;
    TokensOfCounted(blocked);
    IntegersOfTokens(values);
    assert DeclaredCount(values) == |blocked| && Listed(values) == blocked;
    MaxMinOutsideWhenListed(blocked, lowest, highest);
  }

  /** A watch list of one to fifty unblocked channels inside the range is accepted from its spelling. */
  lemma {:induction false} WatchListAccepted(watch: seq<int>, lowest: int, highest: int, blocked: seq<int>)
    requires 1 <= |watch| <= MaxWatchChannels && AllWithin(watch, lowest, highest)
    requires forall w :: w in watch ==> w !in blocked
    ensures ValidateToWatchChannelList([Int(|watch|)] + Tokens(watch), lowest, highest, blocked) == Ok(watch)
  {
    var values := [|watch|] + watch;
    TokensOfCounted(watch);
    IntegersOfTokens(values);
    assert DeclaredCount(values) == |watch| && Listed(values) == watch;
    DisjointIntersectEmpty(watch, blocked);
    MaxMinOutsideWhenListed(watch, lowest, highest);
    WatchListPassesChecks(Tokens(values), values, lowest, highest, blocked);
  }

  /** Helper: integer tokens whose list passes the four checks are accepted as that list. */
  lemma WatchListPassesChecks(tokens: seq<Token>, values: seq<int>, lowest: int, highest: int, blocked: seq<int>)
    requires Integers(tokens) == Some(values)
    requires |Intersect(Listed(values), blocked)| == 0
    requires 1 <= DeclaredCount(values) <= MaxWatchChannels && DeclaredCount(values) == |Listed(values)|
    requires !(Max(Listed(values)) > highest || Min(Listed(values)) < lowest)
    ensures ValidateToWatchChannelList(tokens, lowest, highest, blocked) == Ok(Listed(values))
  {
  }

  /**
   * Which error a malformed range gets: a lowest channel outside `1..10000`
   * is reported before a highest channel below it or above `10000`.
   */
  lemma ValidateChannelListErrors(tokens: seq<Token>)
    ensures ValidateChannelList(tokens) == Err(LowestOutOfBounds) <==>
      && |tokens| == 2 && tokens[0].Int? && tokens[1].Int?
      && !(LowestChannel <= tokens[0].value <= HighestChannel)
    ensures ValidateChannelList(tokens) == Err(HighestOutOfBounds) <==>
      && |tokens| == 2 && tokens[0].Int? && tokens[1].Int?
      && LowestChannel <= tokens[0].value <= HighestChannel
      && !(tokens[0].value <= tokens[1].value <= HighestChannel)
  {
  }

  /**
   * Which error a malformed blocked list gets, check by check in the Ruby
   * order: a token that is not an integer, a declared count above 40, a
   * count that differs from the number of listed channels, a listed channel
   * outside the range.
   */
  lemma {:induction false} ValidateBlockedChannelListErrors(tokens: seq<Token>, lowest: int, highest: int)
    ensures ValidateBlockedChannelList(tokens, lowest, highest) == Err(BlockedNotIntegers) <==>
      exists i :: 0 <= i < |tokens| && tokens[i] == NotAnInteger
    ensures ValidateBlockedChannelList(tokens, lowest, highest) == Err(TooManyBlocked) <==>
      Integers(tokens).Some? && DeclaredCount(Integers(tokens).value) > MaxBlockedChannels
    ensures ValidateBlockedChannelList(tokens, lowest, highest) == Err(BlockedCountMismatch) <==>
      && Integers(tokens).Some?
      && var values := Integers(tokens).value;
      && DeclaredCount(values) <= MaxBlockedChannels
      && DeclaredCount(values) != |Listed(values)|
    ensures ValidateBlockedChannelList(tokens, lowest, highest) == Err(BlockedOutOfRange) <==>
      && Integers(tokens).Some?
      && var values := Integers(tokens).value;
      && DeclaredCount(values) <= MaxBlockedChannels
      && DeclaredCount(values) == |Listed(values)|
      && !AllWithin(Listed(values), lowest, highest)
  {
    if Integers(tokens).Some? {
      MaxMinOutsideWhenListed(Listed(Integers(tokens).value), lowest, highest);
    }
  }

  /**
   * Which error a malformed watch list gets, check by check in the Ruby
   * order: a token that is not an integer, a watched channel that is blocked
   * (looked at before the count), a declared count outside `1..50`, a count
   * that differs from the number of listed channels, a listed channel
   * outside the range.
   */
  lemma {:induction false} ValidateToWatchChannelListErrors(tokens: seq<Token>, lowest: int, highest: int, blocked: seq<int>)
    ensures ValidateToWatchChannelList(tokens, lowest, highest, blocked) == Err(WatchNotIntegers) <==>
      exists i :: 0 <= i < |tokens| && tokens[i] == NotAnInteger
    ensures ValidateToWatchChannelList(tokens, lowest, highest, blocked) == Err(WatchContainsBlocked) <==>
      Integers(tokens).Some? && exists w :: w in Listed(Integers(tokens).value) && w in blocked
    ensures ValidateToWatchChannelList(tokens, lowest, highest, blocked) == Err(WatchCountOutOfBounds) <==>
      && Integers(tokens).Some?
      && var values := Integers(tokens).value;
      && (forall w :: w in Listed(values) ==> w !in blocked)
      && !(1 <= DeclaredCount(values) <= MaxWatchChannels)
    ensures ValidateToWatchChannelList(tokens, lowest, highest, blocked) == Err(WatchCountMismatch) <==>
      && Integers(tokens).Some?
      && var values := Integers(tokens).value;
      && (forall w :: w in Listed(values) ==> w !in blocked)
      && 1 <= DeclaredCount(values) <= MaxWatchChannels
      && DeclaredCount(values) != |Listed(values)|
    ensures ValidateToWatchChannelList(tokens, lowest, highest, blocked) == Err(WatchOutOfRange) <==>
      && Integers(tokens).Some?
      && var values := Integers(tokens).value;
      && (forall w :: w in Listed(values) ==> w !in blocked)
      && 1 <= DeclaredCount(values) <= MaxWatchChannels
      && DeclaredCount(values) == |Listed(values)|
      && !AllWithin(Listed(values), lowest, highest)
  {
    if Integers(tokens).Some? {
      var watch := Listed(Integers(tokens).value);
      IntersectContents(watch, blocked);
      if exists w :: w in watch && w in blocked {
        var w :| w in watch && w in blocked;
        assert w in Intersect(watch, blocked);
      } else {
        DisjointIntersectEmpty(watch, blocked);
      }
      MaxMinOutsideWhenListed(watch, lowest, highest);
    }
  }

  /**
   * `initialize` raises the error of the first validator that fails: the
   * range's, else the blocked list's, else the watch list's.
   */
  lemma NewReportsFirstFailure(channelList: seq<Token>, blockedList: seq<Token>, watchList: seq<Token>)
    ensures ValidateChannelList(channelList).Err? ==>
      New(channelList, blockedList, watchList) == Err(ValidateChannelList(channelList).error)
    ensures ValidateChannelList(channelList).Ok? ==>
      var (lowest, highest) := ValidateChannelList(channelList).value;
      var blocked := ValidateBlockedChannelList(blockedList, lowest, highest);
      && (blocked.Err? ==> New(channelList, blockedList, watchList) == Err(blocked.error))
      && (blocked.Ok? ==>
            var watch := ValidateToWatchChannelList(watchList, lowest, highest, blocked.value);
            watch.Err? ==> New(channelList, blockedList, watchList) == Err(watch.error))
  {
  }

  /** Spelling the count and then the list is spelling the counted list. */
  lemma TokensOfCounted(xs: seq<int>)
    ensures [Int(|xs|)] + Tokens(xs) == Tokens([|xs|] + xs)
  {
  }

  lemma DisjointIntersectEmpty(xs: seq<int>, ys: seq<int>)
    requires forall x :: x in xs ==> x !in ys
    ensures Intersect(xs, ys) == []
  {
    IntersectContents(xs, ys);
    if Intersect(xs, ys) != [] {
      assert Intersect(xs, ys)[0] in Intersect(xs, ys);
    }
  }

  /** Every valid remote control is accepted from its own spelling. */
  lemma {:induction false} NewAcceptsValid(rc: RemoteControl)
    requires Valid(rc)
    ensures New(ChannelListOf(rc), BlockedListOf(rc), WatchListOf(rc)) == Ok(rc)
  {
    assert ValidateChannelList(ChannelListOf(rc)) == Ok((rc.lowest, rc.highest));
    BlockedListAccepted(rc.blocked, rc.lowest, rc.highest);
    WatchListAccepted(rc.watch, rc.lowest, rc.highest, rc.blocked);
  }

  /** An empty blocked input is the same as `0`. */
  lemma EmptyBlockedListAccepted(lowest: int, highest: int)
    ensures ValidateBlockedChannelList([], lowest, highest) == Ok([])
  {
  }

  /** Whatever `New` accepts is the spelling of what it returns. */
  lemma NewReturnsItsInput(channelList: seq<Token>, blockedList: seq<Token>, watchList: seq<Token>)
    requires New(channelList, blockedList, watchList).Ok?
    ensures var rc := New(channelList, blockedList, watchList).value;
      && channelList == ChannelListOf(rc)
      && watchList == WatchListOf(rc)
      && (blockedList == BlockedListOf(rc) || (blockedList == [] && rc.blocked == []))
  {
  }
}
