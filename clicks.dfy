/**
 * Click minimisation: channels sit on the cyclic line `[lowest, highest]`
 * (`highest` is followed by `lowest`). A hop to the next watched channel costs
 * the least of direct entry (its digit count), "up" presses, "down" presses
 * and, from the second hop on, "back" to the previous watched channel followed
 * by up or down presses. Blocked channels on the way are skipped without a press.
 */
module Clicks {
  import opened RubyCore
  import opened Validation

  datatype ClickType = Up | Down

  /** `x` is on the inclusive walk from `c1` to `c2` in direction `t`, wrapping at the range ends. */
  predicate OnPath(rc: RemoteControl, c1: int, c2: int, t: ClickType, x: int) {
    if c1 == c2 then x == c1
    else match t
      case Up => if c1 < c2 then c1 <= x <= c2 else c1 <= x <= rc.highest || rc.lowest <= x <= c2
      case Down => if c1 < c2 then rc.lowest <= x <= c1 || c2 <= x <= rc.highest else c2 <= x <= c1
  }

  /** The channels of the walk, as the Ruby method lists them (the "down" walk in ascending order). */
  function IntermediateChannels(rc: RemoteControl, c1: int, c2: int, t: ClickType): (walk: seq<int>) {
    match t
    case Up => if c1 < c2 then Range(c1, c2) else Range(c1, rc.highest) + Range(rc.lowest, c2)
    case Down => if c1 < c2 then Range(rc.lowest, c1) + Range(c2, rc.highest) else Range(c2, c1)
  }

  lemma IntermediateChannelsShape(rc: RemoteControl, c1: int, c2: int, t: ClickType)
    requires c1 != c2
    ensures var p := IntermediateChannels(rc, c1, c2, t);
      && (forall x :: x in p <==> OnPath(rc, c1, c2, t, x))
      && Distinct(p)
      && (t == Down || c1 < c2 ==> Increasing(p))
  {
    var p := IntermediateChannels(rc, c1, c2, t);
    match t
    case Up =>
      if c1 < c2 {
        RangeMembership(c1, c2);
      } else {
        RangeMembership(c1, rc.highest);
        RangeMembership(rc.lowest, c2);
        var left, right := Range(c1, rc.highest), Range(rc.lowest, c2);
        forall i, j | 0 <= i < j < |p| ensures p[i] != p[j] {
          if j < |left| || |left| <= i {
          } else {
            assert p[i] in left && p[j] in right;
          }
        }
      }
    case Down =>
      if c1 < c2 {
        RangeMembership(rc.lowest, c1);
        RangeMembership(c2, rc.highest);
        var left, right := Range(rc.lowest, c1), Range(c2, rc.highest);
        forall i, j | 0 <= i < j < |p| ensures p[i] < p[j] {
          if j < |left| || |left| <= i {
          } else {
            assert p[i] in left && p[j] in right;
          }
        }
      } else {
        RangeMembership(c2, c1);
      }
  }

  /**
   * The blocked channels on the walk from `c1` to `c2`, each once; for equal
   * channels, `c1` itself when it is blocked.
   */
  function IntermediateBlockedChannels(rc: RemoteControl, c1: int, c2: int, t: ClickType): (skipped: seq<int>) {
    if c1 == c2 then Intersect([c1], rc.blocked)
    else Intersect(IntermediateChannels(rc, c1, c2, t), rc.blocked)
  }

  /**
   * The skipped channels are the blocked channels on the walk, each once, in
   * ascending order whenever the walk's own channel list is ascending.
   */
  lemma IntermediateBlockedContents(rc: RemoteControl, c1: int, c2: int, t: ClickType)
    ensures var r := IntermediateBlockedChannels(rc, c1, c2, t);
      && Distinct(r)
      && (forall x :: x in r <==> x in rc.blocked && OnPath(rc, c1, c2, t, x))
      && (t == Down || c1 <= c2 ==> Increasing(r))
  {
    if c1 == c2 {
      IntersectContents([c1], rc.blocked);
      IntersectIncreasing([c1], rc.blocked);
    } else {
      var p := IntermediateChannels(rc, c1, c2, t);
      IntermediateChannelsShape(rc, c1, c2, t);
      IntersectContents(p, rc.blocked);
      if t == Down || c1 < c2 {
        IntersectIncreasing(p, rc.blocked);
      }
    }
  }

  /** `s` is an ascending run of values at or above `lo` followed by an ascending run of values at or below `hi`. */
  ghost predicate TwoRuns(s: seq<int>, lo: int, hi: int)
  {
    exists k :: 0 <= k <= |s| && Increasing(s[..k]) && Increasing(s[k..])
      && (forall i :: 0 <= i < k ==> lo <= s[i]) && (forall i :: k <= i < |s| ==> s[i] <= hi)
  }

  /** Helper: two ascending lists, one above `lo` and one below `hi`, joined, make two runs. */
  lemma JoinedRuns(a: seq<int>, b: seq<int>, lo: int, hi: int)
    requires Increasing(a) && Increasing(b)
    requires forall x :: x in a ==> lo <= x
    requires forall x :: x in b ==> x <= hi
    ensures TwoRuns(a + b, lo, hi)
  {
    var s := a + b;
    assert s[..|a|] == a && s[|a|..] == b;
    forall i | 0 <= i < |a| ensures lo <= s[i] {
      assert s[i] in a;
    }
    forall i | |a| <= i < |s| ensures s[i] <= hi {
      assert s[i] == b[i - |a|];
      assert b[i - |a|] in b;
    }
  }

  /**
   * An upward walk that wraps (`c1 > c2`) runs up from `c1` to `highest`,
   * then from `lowest` up to `c2`: the walk is an ascending run of channels
   * at or above `c1` followed by an ascending run of channels at or below `c2`.
   */
  lemma UpWrapWalkOrder(rc: RemoteControl, c1: int, c2: int)
    requires c1 > c2
    ensures TwoRuns(IntermediateChannels(rc, c1, c2, Up), c1, c2)
  {
    RangeMembership(c1, rc.highest);
    RangeMembership(rc.lowest, c2);
    JoinedRuns(Range(c1, rc.highest), Range(rc.lowest, c2), c1, c2);
  }

  /**
   * The channels skipped on a wrapping upward walk come in the same two runs:
   * the blocked channels from `c1` up to `highest` in ascending order, then
   * the blocked channels from `lowest` up to `c2` in ascending order.
   */
  lemma UpWrapSkippedOrder(rc: RemoteControl, c1: int, c2: int)
    requires c1 > c2
    ensures TwoRuns(IntermediateBlockedChannels(rc, c1, c2, Up), c1, c2)
  {
    var a, b := Range(c1, rc.highest), Range(rc.lowest, c2);
    RangeMembership(c1, rc.highest);
    RangeMembership(rc.lowest, c2);
    assert IntermediateChannels(rc, c1, c2, Up) == a + b;
    IntersectAppend(a, b, rc.blocked);
    IntersectIncreasing(a, rc.blocked);
    IntersectIncreasing(b, rc.blocked);
    IntersectContents(a, rc.blocked);
    IntersectContents(b, rc.blocked);
    JoinedRuns(Intersect(a, rc.blocked), Intersect(b, rc.blocked), c1, c2);
  }

  /**
   * `get_intermediate_blocked_channels(...).count` is the number of distinct
   * blocked channels on the walk: as long as any list `skipped` that names
   * each of them once.
   */
  lemma SkippedCount(rc: RemoteControl, c1: int, c2: int, t: ClickType, skipped: seq<int>)
    requires Distinct(skipped)
    requires forall x :: x in skipped <==> x in rc.blocked && OnPath(rc, c1, c2, t, x)
    ensures |IntermediateBlockedChannels(rc, c1, c2, t)| == |skipped|
  {
    var r := IntermediateBlockedChannels(rc, c1, c2, t);
    IntermediateBlockedContents(rc, c1, c2, t);
    DistinctCardinality(r);
    DistinctCardinality(skipped);
    assert Elements(r) == Elements(skipped);
  }

  /**
   * The skipped channels come out in ascending order whenever the walk's
   * channel list is ascending, so they are then fixed by which channels
   * they are.
   */
  lemma SkippedList(rc: RemoteControl, c1: int, c2: int, t: ClickType, skipped: seq<int>)
    requires Increasing(skipped)
    requires forall x :: x in skipped <==> x in rc.blocked && OnPath(rc, c1, c2, t, x)
    requires t == Down || c1 <= c2 || skipped == []
    ensures IntermediateBlockedChannels(rc, c1, c2, t) == skipped
  {
    var r := IntermediateBlockedChannels(rc, c1, c2, t);
    IntermediateBlockedContents(rc, c1, c2, t);
    if t == Down || c1 <= c2 {
      IncreasingUnique(r, skipped);
    } else {
      DistinctCardinality(r);
      assert Elements(r) == {};
    }
  }

  /**
   * On an upward walk that wraps, the skipped channels are the blocked
   * channels from `c1` up to `highest` in ascending order, followed by the
   * blocked channels from `lowest` up to `c2` in ascending order.
   */
  lemma SkippedListWrapped(rc: RemoteControl, c1: int, c2: int, above: seq<int>, below: seq<int>)
    requires c1 > c2
    requires Increasing(above) && Increasing(below)
    requires forall x :: x in above <==> x in rc.blocked && c1 <= x <= rc.highest
    requires forall x :: x in below <==> x in rc.blocked && rc.lowest <= x <= c2
    ensures IntermediateBlockedChannels(rc, c1, c2, Up) == above + below
  {
    var a, b := Range(c1, rc.highest), Range(rc.lowest, c2);
    RangeMembership(c1, rc.highest);
    RangeMembership(rc.lowest, c2);
    assert IntermediateChannels(rc, c1, c2, Up) == a + b;
    IntersectAppend(a, b, rc.blocked);
    IntersectIncreasing(a, rc.blocked);
    IntersectIncreasing(b, rc.blocked);
    IntersectContents(a, rc.blocked);
    IntersectContents(b, rc.blocked);
    IncreasingUnique(Intersect(a, rc.blocked), above);
    IncreasingUnique(Intersect(b, rc.blocked), below);
  }

  /** Presses of "up" from `current` to `next`, less the blocked channels skipped on the way. */
  function UpClickCount(rc: RemoteControl, current: int, next: int): (clicks: int) {
    if current == next then 0
    else
      var skipped := |IntermediateBlockedChannels(rc, current, next, Up)|;
      if current < next then (next - current) - skipped
      else (rc.highest - current + next - (rc.lowest - 1)) - skipped
  }

  /** Presses of "down" from `current` to `next`, less the blocked channels skipped on the way. */
  function DownClickCount(rc: RemoteControl, current: int, next: int): (clicks: int) {
    if current == next then 0
    else
      var skipped := |IntermediateBlockedChannels(rc, current, next, Down)|;
      if current > next then (current - next) - skipped
      else (current - rc.lowest + rc.highest - (next - 1)) - skipped
  }

  function ClickCount(rc: RemoteControl, current: int, next: int, t: ClickType): (clicks: int) {
    match t
    case Up => UpClickCount(rc, current, next)
    case Down => DownClickCount(rc, current, next)
  }

  /** `[a, b].min`. */
  function Least(a: int, b: int): (m: int) {
    if a <= b then a else b
  }

  /** One press of "back" to `previous`, then the cheaper of up and down to `next`. */
  function BackClickCount(rc: RemoteControl, previous: int, next: int): (clicks: int) {
    if previous == next then 1
    else 1 + Least(UpClickCount(rc, previous, next), DownClickCount(rc, previous, next))
  }

  /** The channels a remote lands on, pressing `t` from `from` until it shows `to`; blocked ones are skipped. */
  function Landings(rc: RemoteControl, from: int, to: int, t: ClickType): (stops: set<int>) {
    set x | rc.lowest <= x <= rc.highest && OnPath(rc, from, to, t, x) && x != from && x !in rc.blocked
  }

  /** A channel the remote can show: inside the range and not blocked. */
  predicate Tunable(rc: RemoteControl, c: int) {
    rc.lowest <= c <= rc.highest && c !in rc.blocked
  }

  /** Counting the presses on a walk without repetitions: one per unblocked channel after the start. */
  lemma WalkCount(p: seq<int>, start: int, blocked: seq<int>)
    requires Distinct(p) && start in p && start !in blocked
    ensures |p| - 1 - |Intersect(p, blocked)| == |set x | x in p && x != start && x !in blocked|
  {
    var all, stops := Elements(p), Elements(blocked);
    DistinctCardinality(p);
    IntersectCardinality(p, blocked);
    var free := all - stops;
    assert all == (all * stops) + free;
    assert (all * stops) * free == {};
    assert start in free;
    assert (set x | x in p && x != start && x !in blocked) == free - {start};
  }

  /**
   * The up/down count is the number of channels the remote lands on from
   * `from` to `to`: the Ruby formula subtracts exactly the blocked
   * channels it skips, and never charges for the start channel.
   */
  lemma {:induction false} ClickCountIsLandings(rc: RemoteControl, from: int, to: int, t: ClickType)
    requires Tunable(rc, from) && rc.lowest <= to <= rc.highest
    ensures ClickCount(rc, from, to, t) == |Landings(rc, from, to, t)|
  {
    if from == to {
      assert Landings(rc, from, to, t) == {};
    } else {
      var p := IntermediateChannels(rc, from, to, t);
      IntermediateChannelsShape(rc, from, to, t);
      assert from in p;
      WalkCount(p, from, rc.blocked);
      assert Landings(rc, from, to, t) == set x | x in p && x != from && x !in rc.blocked;
      match t
      case Up =>
        if from < to {
          RangeElements(from, to);
        } else {
          RangeElements(from, rc.highest);
          RangeElements(rc.lowest, to);
        }
      case Down =>
        if from > to {
          RangeElements(to, from);
        } else {
          RangeElements(rc.lowest, from);
          RangeElements(to, rc.highest);
        }
    }
  }

  /**
   * Between tunable channels, an up or down count is zero exactly when the
   * channels are equal, and never exceeds the number of other channels.
   */
  lemma {:induction false} ClickCountBounds(rc: RemoteControl, from: int, to: int, t: ClickType)
    requires Tunable(rc, from) && Tunable(rc, to)
    ensures 0 <= ClickCount(rc, from, to, t) <= rc.highest - rc.lowest
    ensures ClickCount(rc, from, to, t) == 0 <==> from == to
  {
    ClickCountIsLandings(rc, from, to, t);
    if from != to {
      assert to in Landings(rc, from, to, t);
    }
    var skipped := |IntermediateBlockedChannels(rc, from, to, t)|;
    assert skipped >= 0;
  }

  /** Back costs exactly one press when `previous == next` and at least two otherwise. */
  lemma {:induction false} BackClickCountBounds(rc: RemoteControl, previous: int, next: int)
    requires Tunable(rc, previous) && Tunable(rc, next)
    ensures BackClickCount(rc, previous, next) >= 1
    ensures BackClickCount(rc, previous, next) == 1 <==> previous == next
    ensures BackClickCount(rc, previous, next) <= 1 + rc.highest - rc.lowest
  {
    ClickCountBounds(rc, previous, next, Up);
    ClickCountBounds(rc, previous, next, Down);
  }

  /**
   * What hop `i` (from `watch[i]` to `watch[i+1]`) adds: nothing for a repeated
   * channel, otherwise the least of direct entry, up and down, and from the
   * second hop on also back to `watch[i-1]`.
   */
  function HopClicks(rc: RemoteControl, i: nat): (clicks: int)
    requires i + 1 < |rc.watch|
  {
    var current, next := rc.watch[i], rc.watch[i + 1];
    if current == next then 0
    else
      var best := Least(Least(Digits(next), UpClickCount(rc, current, next)), DownClickCount(rc, current, next));
      if i == 0 then best else Least(best, BackClickCount(rc, rc.watch[i - 1], next))
  }

  /**
   * A hop to the same channel is free; otherwise it costs the cheapest of the
   * options the remote offers at that point, and exactly one of them.
   */
  lemma HopClicksIsLeast(rc: RemoteControl, i: nat)
    requires i + 1 < |rc.watch|
    ensures rc.watch[i] == rc.watch[i + 1] ==> HopClicks(rc, i) == 0
    ensures rc.watch[i] != rc.watch[i + 1] ==>
      var current, next, r := rc.watch[i], rc.watch[i + 1], HopClicks(rc, i);
      && r <= Digits(next) && r <= UpClickCount(rc, current, next) && r <= DownClickCount(rc, current, next)
      && (i > 0 ==> r <= BackClickCount(rc, rc.watch[i - 1], next))
      && (|| r == Digits(next) || r == UpClickCount(rc, current, next) || r == DownClickCount(rc, current, next)
          || (i > 0 && r == BackClickCount(rc, rc.watch[i - 1], next)))
  {
  }

  /** What each hop adds, in the order of the watch list. */
  function HopCosts(rc: RemoteControl): (costs: seq<int>)
    requires |rc.watch| >= 1
  {
    seq(|rc.watch| - 1, i requires 0 <= i < |rc.watch| - 1 => HopClicks(rc, i))
  }

  /** The sum of a list of click counts. */
  function Sum(s: seq<int>): (total: int) {
    if s == [] then 0 else Sum(s[..|s| - 1]) + s[|s| - 1]
  }

  /** Adding up the hops one at a time, as the Ruby loop does. */
  lemma HopCostsStep(rc: RemoteControl, k: nat)
    requires k + 1 < |rc.watch|
    ensures Sum(HopCosts(rc)[..k + 1]) == Sum(HopCosts(rc)[..k]) + HopClicks(rc, k)
  {
    assert HopCosts(rc)[..k + 1][..k] == HopCosts(rc)[..k];
  }

  /** Direct entry of the first watched channel, then every hop. */
  function TotalClicks(rc: RemoteControl): (clicks: int)
    requires |rc.watch| >= 1
  {
    Digits(rc.watch[0]) + Sum(HopCosts(rc))
  }

  /** The total is the first channel's digits plus the hops added up one at a time. */
  lemma TotalClicksFromPrefix(rc: RemoteControl)
    requires |rc.watch| >= 1
    ensures TotalClicks(rc) == Digits(rc.watch[0]) + Sum(HopCosts(rc)[..|rc.watch| - 1])
  {
    assert HopCosts(rc)[..|rc.watch| - 1] == HopCosts(rc);
  }

  /** The digits of every channel of a list: what keying each one in directly costs. */
  function SumDigits(s: seq<int>): (total: nat) {
    if s == [] then 0 else SumDigits(s[..|s| - 1]) + Digits(s[|s| - 1])
  }

  /** Number of hops of the first `n` that move to a different channel. */
  function Moves(s: seq<int>, n: nat): (moves: nat)
    requires n < |s|
  {
    if n == 0 then 0 else Moves(s, n - 1) + (if s[n - 1] != s[n] then 1 else 0)
  }

  /** A hop to a different channel costs at least one click and never more than keying the channel in. */
  lemma {:induction false} HopClicksBounds(rc: RemoteControl, i: nat)
    requires Valid(rc) && i + 1 < |rc.watch|
    ensures HopClicks(rc, i) <= Digits(rc.watch[i + 1])
    ensures HopClicks(rc, i) >= if rc.watch[i] != rc.watch[i + 1] then 1 else 0
  {
    var current, next := rc.watch[i], rc.watch[i + 1];
    assert current in rc.watch && next in rc.watch;
    assert Tunable(rc, current) && Tunable(rc, next);
    ClickCountBounds(rc, current, next, Up);
    ClickCountBounds(rc, current, next, Down);
    HopClicksIsLeast(rc, i);
    if i > 0 {
      assert rc.watch[i - 1] in rc.watch;
      assert Tunable(rc, rc.watch[i - 1]);
      BackClickCountBounds(rc, rc.watch[i - 1], next);
    }
  }

  /** Every hop of a valid remote costs between its move count and its channel's digits. */
  lemma HopCostsBounds(rc: RemoteControl)
    requires Valid(rc)
    ensures var costs, w := HopCosts(rc), rc.watch;
      forall i :: 0 <= i < |costs| ==> (if w[i] != w[i + 1] then 1 else 0) <= costs[i] <= Digits(w[i + 1])
  {
    var costs := HopCosts(rc);
    forall i | 0 <= i < |costs|
      ensures (if rc.watch[i] != rc.watch[i + 1] then 1 else 0) <= costs[i] <= Digits(rc.watch[i + 1])
    {
      HopClicksBounds(rc, i);
    }
  }

  /**
   * Hop costs each between the hop's move count and its target's digits add up
   * to between the number of moves and the digits of every target.
   */
  lemma {:induction false} SumBetween(costs: seq<int>, w: seq<int>, n: nat)
    requires |w| == |costs| + 1 && n <= |costs|
    requires forall i :: 0 <= i < |costs| ==> (if w[i] != w[i + 1] then 1 else 0) <= costs[i] <= Digits(w[i + 1])
    ensures Moves(w, n) <= Sum(costs[..n]) <= SumDigits(w[1..n + 1])
  {
    if n > 0 {
      SumBetween(costs, w, n - 1);
      assert costs[..n][..n - 1] == costs[..n - 1];
      var keyed := w[1..n + 1];
      assert keyed[..n - 1] == w[1..n] && keyed[n - 1] == w[n];
    }
  }

  /** Keying in a list is keying in its first channel, then the rest. */
  lemma {:induction false} SumDigitsFirst(s: seq<int>)
    requires |s| >= 1
    ensures SumDigits(s) == Digits(s[0]) + SumDigits(s[1..])
  {
    if |s| > 1 {
      var init := s[..|s| - 1];
      SumDigitsFirst(init);
      assert init[1..] == s[1..][..|s| - 2];
      assert s[1..][|s| - 2] == s[|s| - 1];
    }
  }

  /**
   * The total is at least the first channel's digits plus one click per move
   * to a different channel, and at most what keying in every watched channel costs.
   */
  lemma {:induction false} TotalClicksBounds(rc: RemoteControl)
    requires Valid(rc)
    ensures Digits(rc.watch[0]) + Moves(rc.watch, |rc.watch| - 1) <= TotalClicks(rc) <= SumDigits(rc.watch)
  {
    var w, costs := rc.watch, HopCosts(rc);
    HopCostsBounds(rc);
    SumBetween(costs, w, |costs|);
    assert costs[..|costs|] == costs;
    assert w[1..|costs| + 1] == w[1..];
    SumDigitsFirst(w);
  }

  /** One unfolding of `HopClicks`, so that the loop below can match its steps against it. */
  lemma HopClicksUnfold(rc: RemoteControl, i: nat)
    requires i + 1 < |rc.watch|
    ensures var current, next := rc.watch[i], rc.watch[i + 1];
      HopClicks(rc, i) ==
        if current == next then 0
        else if i == 0 then Least(Least(Digits(next), UpClickCount(rc, current, next)), DownClickCount(rc, current, next))
        else Least(Least(Least(Digits(next), UpClickCount(rc, current, next)), DownClickCount(rc, current, next)), BackClickCount(rc, rc.watch[i - 1], next))
  {}

  /** `get_minimum_clicks_to_travel_watch_list`: the running total over `each_with_index`. */
  method MinimumClicksToTravelWatchList(rc: RemoteControl) returns (clicks: int)
    requires |rc.watch| >= 1
    ensures clicks == TotalClicks(rc)
  {
    var watch := rc.watch;
    clicks := Digits(watch[0]);
    for index := 0 to |watch|
      invariant index < |watch| ==> clicks == Digits(watch[0]) + Sum(HopCosts(rc)[..index])
      invariant index == |watch| ==> clicks == Digits(watch[0]) + Sum(HopCosts(rc))
    {
      if index + 1 < |watch| {
        HopClicksUnfold(rc, index);
        HopCostsStep(rc, index);
        var current, next := watch[index], watch[index + 1];
        if current != next {
          var direct := Digits(next);
          var up := UpClickCount(rc, current, next);
          var down := DownClickCount(rc, current, next);
          var minOfDirectUpDown := Least(Least(direct, up), down);
          if index == 0 {
            clicks := clicks + minOfDirectUpDown;
          } else {
            var back := BackClickCount(rc, watch[index - 1], next);
            clicks := clicks + Least(minOfDirectUpDown, back);
          }
        }
      } else {
        assert HopCosts(rc)[..index] == HopCosts(rc);
      }
    }
  }
}
