# Remote control click minimisation, modelled in Dafny

The Ruby class `RemoteControl` works out how few button presses a viewer needs
to visit a list of channels in order. The channels form a cyclic range
`lowest..highest`, and some of them are blocked. The remote offers four kinds of
press:

- typing the channel number, at one press per character of its decimal spelling;
- "up" and "down", one channel at a time, wrapping at the range ends and
  skipping blocked channels without a press;
- "back", one press that returns to the channel watched before the current one.

The constructor validates three whitespace-separated inputs in a fixed order:
the range, the blocked list and the watch list. It raises on the first one that
is malformed.

The model has five modules:

- `RubyCore` (`ruby_core.dfy`): the Ruby built-ins the class depends on.
  - `(a..b).to_a` is `Range`.
  - `Array#&` is `Intersect`: the common values, each once, in left-operand order.
  - `Array#max` and `Array#min` are `Max` and `Min`.
  - The `Integer#digits` patch (`to_s.size`) is `Digits`; the minus sign of a negative number counts.
- `Wrappers` (`wrappers.dfy`): `Option` and `Result`.
- `Validation` (`validation.dfy`): the three validators and `New`.
  - An input is given as its tokens: `Int(v)` where `Integer()` reads `v`, and `NotAnInteger` where it raises.
  - `New` returns `Err` with one tag per distinct failure, where the constructor raises.
  - The constructed object is the record `RemoteControl`: its four instance variables are set once, in `initialize`, and never reassigned.
- `Clicks` (`clicks.dfy`): the cost of one hop and of the whole watch list.
  - `IntermediateBlockedChannels`, `UpClickCount`, `DownClickCount` and `BackClickCount` follow the private methods one to one; `HopClicks` is one iteration of the `each_with_index` loop.
  - `get_minimum_clicks_to_travel_watch_list` is the method `MinimumClicksToTravelWatchList`, with its `each_with_index` loop.
  - The method is proved to compute `TotalClicks`: the first channel's digits plus the sum of the per-hop costs `HopCosts`. `Sum` is the `clicks +=` accumulation of remote_control.rb:81, and `HopCosts` lists what each iteration adds.
  - Independent reference: `Landings` counts the channels an up/down walk actually shows.
- `Examples` (`examples.dfy`): the expectations of `rc_spec.rb`, proved on the model. These are the four watch-list totals, the button and skipped-channel probes, and the constructor's accept/reject decisions.

Three behaviours of the Ruby code worth knowing:

- The blocked list keeps duplicates. The test at `rc_spec.rb` line 92 is titled "should ignore duplicate blocked channels", but the code stores `"2 20 20"` as `[20, 20]` (remote_control.rb:193, 214), and the declared count is checked against the raw token count. Duplicates matter only through `&`, which removes them.
- The "down" walk's channel list is built in ascending order. For example, 100 down to 1 is `(1..100).to_a`, so the skipped channels come out ascending, as `rc_spec.rb` line 253 expects.
- When the two channels are equal, the skipped channels are `[c] & blocked` (remote_control.rb:135): the channel itself if it is blocked.

## Model

| member | source | states |
|---|---|---|
| RubyCore.Range | remote_control.rb:138-140 | `(a..b).to_a`; its length, elements and order are stated by `RangeElements` and `RangeMembership` |
| RubyCore.RangeElements | remote_control.rb:138-140 | `(a..b).to_a` has `b - a + 1` elements (none when `a > b`), and its `k`-th element is `a + k` |
| RubyCore.RangeMembership | remote_control.rb:138-140 | `x` is in `(a..b).to_a` exactly when `a <= x <= b`; the list is strictly ascending |
| RubyCore.Intersect | remote_control.rb:135 | `xs & ys` is never longer than `xs` |
| RubyCore.IntersectContents | remote_control.rb:143 | `x` is in `xs & ys` exactly when it is in both; no value occurs twice in the result |
| RubyCore.IntersectIncreasing | remote_control.rb:143 | `&` keeps the left operand's order, so an ascending left operand gives an ascending result |
| RubyCore.IntersectAppend | remote_control.rb:138-143 | `(a + b) & ys` is `(a & ys) + (b & ys)` when `a` and `b` share no value, as the two ranges of a wrapping walk do not |
| RubyCore.IncreasingUnique | remote_control.rb:143 | two ascending lists with the same members are equal, so an ascending `&` result is fixed by its members |
| RubyCore.IntersectCardinality | remote_control.rb:94 | `(xs & ys).count` is the number of distinct values the two lists share |
| RubyCore.DistinctCardinality | remote_control.rb:94 | a list without repetitions has as many elements as its set of values |
| RubyCore.Max | remote_control.rb:210 | `max` of a non-empty list is one of its elements and no element exceeds it |
| RubyCore.Min | remote_control.rb:210 | `min` of a non-empty list is one of its elements and no element is below it |
| RubyCore.MaxMinOutside | remote_control.rb:210 | `max > hi or min < lo` holds exactly when some element lies outside `[lo, hi]` |
| RubyCore.Digits | remote_control.rb:17-21 | `to_s.size` is at least 1, and at least 2 for a negative number (the minus sign) |
| RubyCore.NumeralLengthBounds | remote_control.rb:18-20 | a positive `n` has `d` characters when `10^(d-1) <= n < 10^d` |
| RubyCore.DigitsCharacterised | remote_control.rb:18-20 | for positive `n`: `n.digits == d` if and only if `10^(d-1) <= n < 10^d` |
| Validation.Integers | remote_control.rb:151 | the conversion succeeds exactly when every token is an integer, and the tokens then spell the values |
| Validation.IntegersOfTokens | remote_control.rb:151 | reading back the spelling of a list gives the list |
| Validation.ValidateChannelList | remote_control.rb:148-185 | accepted exactly when there are two integer tokens with `1 <= lowest <= highest <= 10000`, and then they are the result; a malformed or miscounted input is `RangeNotTwoIntegers`; every error is a range error (the other two tags: `ValidateChannelListErrors`) |
| Validation.ValidateChannelListErrors | remote_control.rb:167-179 | two integers give `LowestOutOfBounds` exactly when lowest is outside `1..10000`, and `HighestOutOfBounds` exactly when lowest is inside but highest is below lowest or above `10000` |
| Validation.ValidateBlockedChannelList | remote_control.rb:189-216 | an accepted list has at most 40 channels, all inside the range; the input is its count followed by the list, or is empty; every error is a blocked-list error (which one: `ValidateBlockedChannelListErrors`) |
| Validation.ValidateBlockedChannelListErrors | remote_control.rb:191-210 | each blocked-list error in both directions, in the Ruby order: `BlockedNotIntegers` exactly when some token is not an integer; `TooManyBlocked` exactly when the declared count exceeds 40; `BlockedCountMismatch` exactly when it is at most 40 but differs from the number listed; `BlockedOutOfRange` exactly when both checks pass and some listed channel is outside the range |
| Validation.ValidateToWatchChannelList | remote_control.rb:220-250 | an accepted list has 1 to 50 channels, all inside the range and none blocked; the input is its count followed by the list; every error is a watch-list error (which one: `ValidateToWatchChannelListErrors`) |
| Validation.ValidateToWatchChannelListErrors | remote_control.rb:222-245 | each watch-list error in both directions, in the Ruby order: `WatchNotIntegers` exactly when some token is not an integer; `WatchContainsBlocked` exactly when some listed channel is blocked, whatever the count; then, with no blocked channel listed, `WatchCountOutOfBounds` exactly when the count is outside `1..50`, `WatchCountMismatch` exactly when it differs from the number listed, and `WatchOutOfRange` exactly when some listed channel is outside the range |
| Validation.MaxMinOutsideWhenListed | remote_control.rb:210 | the Ruby test `(max > hi or min < lo) and n > 0` fails exactly when every listed channel is in range |
| Validation.DisjointIntersectEmpty | remote_control.rb:233 | a watch list sharing no channel with the blocked list passes the `&` check |
| Validation.New | remote_control.rb:31-50 | a constructed remote satisfies `Valid`; a range error occurs exactly when the range is refused; a blocked-list error implies the range was accepted; a watch-list error implies both earlier inputs were accepted (which error: `NewReportsFirstFailure`) |
| Validation.NewReportsFirstFailure | remote_control.rb:31-50 | the error is that of the first validator that fails: the range's, else the blocked list's, else the watch list's |
| Validation.BlockedListAccepted | remote_control.rb:189-216 | every list of at most 40 in-range channels, duplicates included, is accepted from its own spelling and returned unchanged |
| Validation.WatchListAccepted | remote_control.rb:220-250 | every list of 1 to 50 in-range, unblocked channels is accepted from its own spelling and returned unchanged |
| Validation.NewAcceptsValid | remote_control.rb:31-50 | every remote that satisfies `Valid` is constructed from its own spelling (the converse of `New`'s first ensures) |
| Validation.DeclaredCount | remote_control.rb:193 | `list.shift.to_i` (also line 224): the leading number, or `0` for an empty list (`nil.to_i`); `ValidateBlockedChannelListErrors`, `ValidateToWatchChannelListErrors` and `EmptyBlockedListAccepted` state how the validators compare it |
| Validation.Listed | remote_control.rb:193 | the array left after `shift`: the numbers after the count; the same lemmas state which checks it must pass |
| Validation.EmptyBlockedListAccepted | remote_control.rb:193 | an empty blocked input counts as `0` (`nil.to_i`) and is accepted as no blocked channels |
| Validation.NewReturnsItsInput | remote_control.rb:31-50 | whatever is constructed is exactly what the three inputs spell |
| Clicks.IntermediateChannels | remote_control.rb:137-141 | the channel list of a walk, built as the Ruby method builds it; `IntermediateChannelsShape` states which channels it holds and that it ascends unless an upward walk wraps, and `UpWrapWalkOrder` states the order of a wrapping upward walk |
| Clicks.IntermediateBlockedChannels | remote_control.rb:133-144 | `get_intermediate_blocked_channels`; `IntermediateBlockedContents` and `SkippedCount` state its contents and length, `SkippedList` its order when the walk ascends, and `UpWrapSkippedOrder` and `SkippedListWrapped` its order when an upward walk wraps |
| Clicks.IntermediateChannelsShape | remote_control.rb:137-141 | the walk lists exactly the channels on the cyclic path from `c1` to `c2` in the given direction, each once, ascending except for an upward wrap |
| Clicks.IntermediateBlockedContents | remote_control.rb:133-144 | the skipped channels are exactly the blocked channels on the path, each once, ascending unless the walk wraps upward |
| Clicks.SkippedCount | remote_control.rb:94 | the skipped-channel count equals the length of any duplicate-free list of the blocked channels on the path |
| Clicks.SkippedList | remote_control.rb:133-144 | when the walk is ascending, the skipped channels are the ascending list of blocked channels on the path |
| Clicks.UpWrapWalkOrder | remote_control.rb:138 | an upward walk from `c1` past `highest` to `c2 < c1` is an ascending run of channels at or above `c1`, then an ascending run of channels at or below `c2` |
| Clicks.UpWrapSkippedOrder | remote_control.rb:138-143 | the channels such a walk skips come in the same two ascending runs, split at the wrap |
| Clicks.SkippedListWrapped | remote_control.rb:138-143 | on a wrapping upward walk the skipped channels are the ascending blocked channels from `c1` to `highest`, followed by the ascending blocked channels from `lowest` to `c2` |
| Clicks.WalkCount | remote_control.rb:97 | path length minus one minus the skipped count equals the number of unblocked channels after the start |
| Clicks.UpClickCount | remote_control.rb:91-101 | `get_min_up_click_count`; `ClickCountIsLandings` equates it with the channels the remote stops on, and `ClickCountBounds` bounds it |
| Clicks.DownClickCount | remote_control.rb:105-115 | `get_min_down_click_count`; `ClickCountIsLandings` equates it with the channels the remote stops on, and `ClickCountBounds` bounds it |
| Clicks.BackClickCount | remote_control.rb:119-129 | `get_min_click_count_with_back`; `BackClickCountBounds` bounds it and says when it is exactly 1 |
| Clicks.ClickCountIsLandings | remote_control.rb:91-115 | from a tunable channel, the up and down formulas equal the number of channels the remote stops on before reaching the target |
| Clicks.ClickCountBounds | remote_control.rb:91-115 | between tunable channels an up or down count lies in `0..highest-lowest` and is 0 exactly when the channels are equal |
| Clicks.BackClickCountBounds | remote_control.rb:119-129 | back costs at least 1, exactly 1 when `previous == next`, and at most `1 + highest - lowest` |
| Clicks.HopClicks | remote_control.rb:66-81 | the clicks one loop iteration adds; `HopClicksIsLeast` and `HopClicksBounds` state that it is the cheapest option and how large it can be |
| Clicks.Least | remote_control.rb:76-81 | `[a, b].min` (a three-way `min` is two of them); `HopClicksIsLeast` states that a hop's cost is at most each option and equals one of them |
| Clicks.HopClicksIsLeast | remote_control.rb:66-81 | a repeated channel costs nothing; otherwise a hop costs no more than direct entry, up, down or (after the first hop) back, and equals one of them |
| Clicks.HopClicksBounds | remote_control.rb:68-81 | on a valid remote a hop to another channel costs at least 1, and never more than typing that channel |
| Clicks.HopCostsBounds | remote_control.rb:60-83 | every hop of a valid remote costs between its move count (0 or 1) and its target's digits |
| Clicks.SumBetween | remote_control.rb:81 | hop costs each within those bounds add up to between the number of moves and the digits of all targets |
| Clicks.TotalClicks | remote_control.rb:55-85 | the first channel's digits plus every hop's clicks; `MinimumClicksToTravelWatchList` computes it and `TotalClicksBounds` bounds it |
| Clicks.TotalClicksBounds | remote_control.rb:55-85 | on a valid remote the total is at least the first channel's digits plus one per move to a different channel, and at most the digits of every watched channel |
| Clicks.MinimumClicksToTravelWatchList | remote_control.rb:55-85 | the loop returns `TotalClicks`: the first channel's digits plus each hop's cost |
| Examples.ButtonRemoteAccepted | rc_spec.rb:138 | `"1 200", "4 12 24 36 48", "5 11 100 1 101 198"` constructs the remote the button probes use |
| Examples.UpButtonCounts | rc_spec.rb:145-155 | up from 11 to 11 costs 0, from 20 to 23 costs 3, from 198 to 2 costs 4 |
| Examples.DownButtonCounts | rc_spec.rb:170-180 | down from 11 to 11 costs 0, from 2 to 198 costs 4, from 19 to 16 costs 3 |
| Examples.BackButtonCounts | rc_spec.rb:195-205 | back from 11 to 11 costs 1, from 200 to 198 costs 3, from 20 to 22 costs 3 |
| Examples.WalksFrom200To198 | rc_spec.rb:199-201 | from 200 to 198, up costs 194 (skipping four blocked channels) and down costs 2 |
| Examples.WalksFrom20To22 | rc_spec.rb:203-205 | from 20 to 22, up costs 2 and down costs 194 |
| Examples.SkippedOnTheSpot | rc_spec.rb:224-238 | from 11 to 11 nothing is skipped; from 12 to 12 the blocked 12 itself is, in either direction |
| Examples.SkippedFrom11To100 | rc_spec.rb:240-246 | from 11 to 100 up skips `[12, 24, 36, 48]` and down skips nothing |
| Examples.SkippedFrom100To1 | rc_spec.rb:248-254 | from 100 to 1 up skips nothing and down skips `[12, 24, 36, 48]` |
| Examples.SkippedFrom40To20 | remote_control.rb:138 | on the `rc_spec.rb` button remote, from 40 up to 20 skips `[48, 12]`: 48 before the wrap, 12 after it |
| Examples.FirstRemoteAccepted | rc_spec.rb:29 | the first scenario's inputs construct `FirstRemote` |
| Examples.FirstScenario | rc_spec.rb:28-30 | the first scenario's watch list costs 7 clicks |
| Examples.SecondRemoteAccepted | rc_spec.rb:33 | the second scenario's inputs construct `SecondRemote` |
| Examples.SecondScenario | rc_spec.rb:32-34 | the second scenario's watch list costs 8 clicks |
| Examples.ThirdRemoteAccepted | rc_spec.rb:37 | the third scenario's inputs construct `ThirdRemote` |
| Examples.ThirdScenario | rc_spec.rb:36-39 | the third scenario's watch list costs 12 clicks |
| Examples.FourthRemoteAccepted | rc_spec.rb:42 | the fourth scenario's inputs construct `FourthRemote` |
| Examples.FourthScenario | rc_spec.rb:41-43 | the fourth scenario's watch list costs 7 clicks |
| Examples.EmptyRangeRefused | rc_spec.rb:56 | an empty range input is refused as not two integers |
| Examples.OneNumberRangeRefused | rc_spec.rb:57 | a one-number range is refused as not two integers |
| Examples.ThreeNumberRangeRefused | rc_spec.rb:58 | a three-number range is refused as not two integers |
| Examples.NegativeLowestRefused | rc_spec.rb:62 | lowest `-1` is refused |
| Examples.ZeroLowestRefused | rc_spec.rb:63 | lowest `0` is refused |
| Examples.LowestAboveLimitRefused | rc_spec.rb:64 | lowest `100000` is refused |
| Examples.TenToHundredAccepted | rc_spec.rb:65 | `"10 100", "1 10", "2 12 14"` is accepted |
| Examples.HighestBelowLowestRefused | rc_spec.rb:69 | highest below lowest is refused |
| Examples.HighestAboveLimitRefused | rc_spec.rb:70 | highest `19000` is refused |
| Examples.OneToTenAccepted | rc_spec.rb:71 | `"1 10", "1 1", "2 3 4"` is accepted |
| Examples.SingleChannelAccepted | rc_spec.rb:72 | a one-channel range `"100 100"` is accepted |
| Examples.BlockedAboveRangeRefused | rc_spec.rb:80 | a blocked channel above the range is refused |
| Examples.BlockedBelowRangeRefused | rc_spec.rb:81 | a blocked channel below the range is refused |
| Examples.BlockedInsideRangeAccepted | rc_spec.rb:82 | a blocked channel inside the range is accepted |
| Examples.NoBlockedAccepted | rc_spec.rb:83 | a blocked count of `0` is accepted |
| Examples.BlockedCountTooLowRefused | rc_spec.rb:87 | a blocked count below the number of listed channels is refused |
| Examples.BlockedCountTooHighRefused | rc_spec.rb:88 | a blocked count above the number of listed channels is refused |
| Examples.CountedBlockedAccepted | rc_spec.rb:89 | a correctly counted blocked list is accepted |
| Examples.DuplicateBlockedAccepted | rc_spec.rb:93 | a blocked list naming one channel twice is accepted, and the duplicate is kept |
| Examples.EmptyBlockedAccepted | rc_spec.rb:98 | an empty blocked input is accepted |
| Examples.FortyOneBlockedRefused | rc_spec.rb:101 | a declared blocked count of 41 is refused before the count is compared |
| Examples.WatchBelowRangeRefused | rc_spec.rb:109 | a watched channel below the range is refused |
| Examples.WatchAboveRangeRefused | rc_spec.rb:110 | a watched channel above the range is refused |
| Examples.WideRangeAccepted | rc_spec.rb:111 | `"10 1000", "0", "2 100 110"` is accepted |
| Examples.EmptyWatchRefused | rc_spec.rb:115 | an empty watch input is refused by the count check |
| Examples.ZeroWatchRefused | rc_spec.rb:116 | a watch count of `0` is refused |
| Examples.NegativeWatchCountRefused | rc_spec.rb:117 | a watch count of `-1` is refused |
| Examples.FiftyOneWatchRefused | rc_spec.rb:118 | a watch count of 51 is refused |
| Examples.WatchOfBlockedRefused | rc_spec.rb:124 | watching the blocked channel is refused |
| Examples.WatchHoldingBlockedRefused | rc_spec.rb:125 | a watch list containing one of two blocked channels is refused, after the range and blocked list are accepted |
| Examples.UnblockedWatchAccepted | rc_spec.rb:126 | watching an unblocked channel is accepted |

## Left out

- Tokenisation is not modelled: `String#split` and Ruby's `Integer()` conversion, with its hexadecimal, octal, underscore and sign spellings. Each input is given as its tokens, and a token that `Integer()` rejects is `NotAnInteger`.
- Error messages are not modelled. Each distinct failure is a tag of `InvalidInput`.
- Range errors: "not integers" and "not exactly two values" share one message in the Ruby code, so they are the one tag `RangeNotTwoIntegers`.
- Watch-list error hashes are not modelled. When a token is not an integer, the Ruby method stores `:watch_list => []` (remote_control.rb:226-228). Its four other checks (lines 231-245) store an empty list under the key `:blocked_channels` instead. Neither is observable, because the constructor raises with the message only.
- Private visibility is not modelled. The `NoMethodError` probes at rc_spec.rb lines 141, 166, 191 and 219 have no counterpart.
- The driver script's console input and output are not modelled (driver.rb is not part of this model).
- `previous_channel` at index 0 is not modelled. There it is `watch[-1]` (the last watched channel), but the Ruby method never uses it because of `unless index == 0`, and the model leaves it out.
- The 40-channel blocked list (rc_spec.rb line 99) and the 50-channel watch list (line 119) are not evaluated as examples. `BlockedListAccepted`, `WatchListAccepted` and `NewAcceptsValid` cover every list of those sizes.
- Some lemmas are proof steps toward the rows above, not separate expectations. They are the per-walk, per-hop and running-total steps of each scenario (`…Walk…`, `…Back…`, `…Hop…`, `…UpTo…`), the `…Valid` facts, the two-run helper `Clicks.JoinedRuns` with its predicate `Clicks.TwoRuns`, `Validation.WatchListPassesChecks` (the accepting branch of the watch validator, used by `WatchListAccepted`), `Clicks.SumDigitsFirst` (it peels the first channel's digits off `SumDigits` for `TotalClicksBounds`), and three single unfoldings of a definition used by the loop and the scenarios: `Clicks.HopClicksUnfold`, `Clicks.HopCostsStep` and `Clicks.TotalClicksFromPrefix`.
