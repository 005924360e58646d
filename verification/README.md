# A verified model of a hold'em hand, from the deal to the payout

This project models the money path of a hold'em server and proves what it promises: the betting engine,
the pot layers, the settlement arithmetic, the showdown plan, the payout to the wallet, and three small
components beside it (request limits, transaction bindings, canonical JSON). Everything is Dafny 4.11;
`dafny verify dfyconfig.toml` checks the whole.

## How it is built

* `money`, `arith`, `seats`: 128-bit chips with checked addition and subtraction, division facts, and
  sums, caps and sorted listings over the 256 possible seat ids.
* `engine_model` describes the engine's state as a value `View` and what dealing (`Dealt`) and acting
  (`Apply`) make of it. `engine` is the same engine as a class that updates its maps, sets and counters in
  place; each method is proved to end in the state the description gives.
* `engine_money`, `engine_snapshot`, `engine_legal`, `engine_raises`, `engine_turns`, `engine_dealing`,
  `engine_allins`, `engine_progress` prove what holds over every run; `engine_checkdown` shows that every
  fair deal can reach a showdown, so that the statements about showdowns are not empty; `engine_findings`
  and `engine_stuck` hold the runs on which the engine falls short.
* `pots`, `pot_theorems`: the layering loop, its closed form, nesting and per-seat bounds.
* `apportion`, `apportion_theorems`, `settlement`, `settlement_theorems`: rake, splits, gross awards and
  largest-remainder apportionment, as loops and as theorems.
* `showdown`, `showdown_settlement`, `showdown_findings`: winners per layer, the plan made of them, and a
  hand it does not pay in full and one it cannot pay at all.
* `payouts`, `payout_theorems`, `hand_paid_out`: direct payout as a class over records, ledger, wallet
  requests and closed hands; the wallet is an arbitrary function of the request number and the request.
* `rate_limiter`, `tx_bindings`, `canonical_json`: the side components.

Hand strength is an arbitrary function from board and hole cards to integers, cards are numbers below 52, ids are
numbers, times are nanoseconds, and library sorts are functions proved sorted and complete. Iteration over
a hash map or hash set is an arbitrary choice, so results are shown not to depend on it.

## What the code does not promise

Each of these is shown on a concrete run or input, next to the exact condition under which the promise holds.

* A deal keeps the folds and all-ins of the hand before it (`EngineFindings.FoldSpoilsNextHand`). A deal
  starts a playable hand if and only if the leftover marks allow it (`EngineTurns.DealStartsPlay`).
* A street can stay open for ever. After an all-in and two calls the flop wants the all-in seat to act,
  the turn skips that seat, and the two others may check without end (`EngineFindings.FlopNeverCloses`).
  Folds, checks and calls can close a street if and only if every unfolded all-in seat has acted on it or
  is the one to act (`EngineAllIns.PassingClosesIff`), and are bounded in number under that condition and
  no other (`EngineProgress.PassesBoundedIff`). A raise frees the street, and apart from idle actions on
  such streets every hand is bounded (`EngineProgress.HandWithAllIns`).
* When a street closes, an all-in seat can be asked to act, and the hand can go to showdown with three
  board cards (`EngineFindings.AllInSeatMustAct`). Both conditions are exact
  (`EngineAllIns.ActorAllInIff`, `ShortShowdownIff`).
* Once the minimum raise saturates, the listed minimum raise is refused
  (`EngineFindings.ListedMinimumRefused`, `EngineLegal.AcceptedIffOffered`).
* A refused action can change the state: an overflow is reported after the bet was written
  (`EngineFindings.RefusedRaiseSticks`, `EngineMoney.RefusalKeepsState`). The seat may then check without
  paying what it owes if and only if the refused bet would have matched or raised
  (`EngineMoney.FreeCheckIff`).
* The uncalled part of the largest contribution is in no layer, and nobody is paid it
  (`ShowdownFindings.ExcessNotPaid`, `PotTheorems.UncalledExcess`, `ShowdownSettlement.PlanMissesExcess`).
* A hand can come to showdown and be impossible to settle, with its whole pot stuck: two seats are all-in,
  two others bet on and then fold (`ShowdownFindings.PotStuck`). With every unfolded hand shown, a pot can
  be settled if and only if it is empty, or two seats have chips in it and some unfolded seat has put in at
  least the second largest contribution (`ShowdownSettlement.SettleableIff`).
* Apportionment multiplies with saturation, and can then pay almost nothing in all or one seat more than its
  award (`ApportionTheorems.SaturationUnderpays`, `SaturationOverpays`), the latter only to an award of nothing or
  if nothing is raked (`HeldBackNetsWithin`). The total is exact if and only if the
  saturated shares, rounded down, come within one chip an award of the target (`PaysAtMostTarget`,
  `SettlementTheorems.PlanConserves`).
* A plan made for no winners pays and rakes nothing (`Settlement.PotWithoutWinners`,
  `WinnersPlanConserves`).
* A submission error leaves transfers the wallet already took without a record
  (`PayoutTheorems.SecondTransferRefused`, `UnrecordedIff`).
* The rate limiter lets up to twice its limit less one through in an interval one window long, and that
  many is reached (`RateLimiter.AtMostTwiceLessOne`, `BoundIsReached`).

## Model

| member | source | states |
|---|---|---|
| Engine.EngineState.constructor | crates/poker-engine/src/state.rs:64-101 | a new room has no seats, no chips and no hand in progress |
| Engine.EngineState.SeatPlayer | crates/poker-engine/src/state.rs:115-117 | seating adds one seat and changes nothing else |
| Engine.EngineState.DealNewHand | crates/poker-engine/src/engine.rs:112-219 | the in-place deal either reports one of its three errors and changes nothing, or ends in the whole dealt state (`DealSucceedsIff`, `DeckIsPartitioned` and `BurnAndTurn` say what that is) |
| Engine.EngineState.DealHoles | crates/poker-engine/src/engine.rs:145-155 | the two dealing rounds give each seat its two cards |
| Engine.EngineState.PostBlinds | crates/poker-engine/src/engine.rs:194-217 | blinds are posted as bets, contributions and pot together |
| Engine.EngineState.ApplyAction | crates/poker-engine/src/engine.rs:221-326 | the in-place action ends in the specified state with the specified outcome, on every branch including the overflow ones |
| Engine.EngineState.BetTo | crates/poker-engine/src/engine.rs:257-309 | a bet to a target moves chips, bet, minimum raise and all-in mark together, or stops half-way on overflow |
| Engine.EngineState.AddContribution | crates/poker-engine/src/engine.rs:648-665 | a contribution grows by the amount, stays as it was on overflow, and a zero amount writes nothing |
| Engine.EngineState.IsBettingRoundComplete | crates/poker-engine/src/engine.rs:509-524 | the loop decides exactly whether every unfolded seat has acted and matched the bet or is all-in |
| Engine.EngineState.AdvanceTurnInPlace | crates/poker-engine/src/engine.rs:436-481 | settles, advances the street, goes to showdown or passes the turn, as specified |
| Engine.EngineState.AdvanceStreetInPlace | crates/poker-engine/src/engine.rs:526-570 | the street change ends in the specified state: bets cleared, the next cards shown, the seat that `OpensLeftOfButton` determines to act, or showdown after the river |
| Engine.EngineState.LegalActionsFor | crates/poker-engine/src/engine.rs:53-104 | the list offered to a seat, empty out of turn |
| Engine.EngineState.RebuildSidePots | crates/poker-engine/src/engine.rs:426-429 | side pots are those of the current contributions and folds |
| Engine.EngineState.PotLayers | crates/poker-engine/src/engine.rs:432-434 | the layers of the current contributions and folds |
| EngineMoney.ChipsOverEveryRun | crates/poker-engine/src/engine.rs:112-326 | after any joins, deals and actions: main pot, pot total and sum of contributions agree, no bet exceeds the bet to match, the minimum raise lies above it, stored side pots are current, and without overflow every bet is backed by a contribution |
| EngineMoney.ApplyChips | crates/poker-engine/src/engine.rs:221-326 | any single action, accepted, refused or overflowing, keeps that invariant |
| EngineMoney.DealtChips | crates/poker-engine/src/engine.rs:200-218 | a deal establishes that invariant from any state |
| EngineMoney.BlindsHaveNoSidePot | crates/poker-engine/src/engine.rs:202-215 | clearing the side pots at the deal agrees with computing them |
| EngineMoney.PotOverflowsFirst | crates/poker-engine/src/engine.rs:648-665 | in a balanced pot a contribution overflows only if the pot does |
| EngineMoney.RefusalKeepsState | crates/poker-engine/src/engine.rs:226-310 | a refused action leaves the state unchanged if and only if it is not an in-turn bet that overflows the pot |
| EngineMoney.FreeCheckIff | crates/poker-engine/src/engine.rs:251-256 | after a bet refused for overflow its seat may check, for free, if and only if the bet would have matched or raised |
| EngineSnapshot.MirroredOverEveryRun | crates/poker-engine/src/engine.rs:310-326 | in every state of every run the copies of hand id, street, sequence number and acting seat in snapshot, hand and betting round agree |
| EngineSnapshot.AcceptedOnce | crates/poker-engine/src/engine.rs:226-228 | an accepted action moves the sequence number on by one and is refused if it comes again, up to the last 32-bit number; a refused one leaves the number |
| EngineSnapshot.DealSucceedsIff | crates/poker-engine/src/engine.rs:117-136 | a deal succeeds if and only if two are seated, no card appears twice and there are two cards a seat and eight more; which error otherwise |
| EngineLegal.OfferedByType | crates/poker-engine/src/engine.rs:53-104 | when each kind of action is offered, both ways |
| EngineLegal.AcceptedIffOffered | crates/poker-engine/src/engine.rs:221-310 | with the right sequence number an action is accepted if and only if it is offered, a raise exceeds the bet, and the pot can hold it |
| EngineLegal.AcceptedIffOfferedOverEveryRun | crates/poker-engine/src/engine.rs:53-326 | the same in every reachable state, and any other refusal changes nothing |
| EngineRaises.RaiseSets | crates/poker-engine/src/engine.rs:272-309 | an accepted raise exceeds the bet, reaches the minimum and sets both for the street |
| EngineRaises.RaisesNeverShrink | crates/poker-engine/src/engine.rs:627-633 | the next raise on a street raises by at least as much as the last, whatever passive actions lie between |
| EngineRaises.NextRaiseIff | crates/poker-engine/src/engine.rs:627-633 | after an accepted raise the next one is accepted, by whoever has the turn, where the pot can hold it, if and only if it raises by at least as much, so that exactly as much suffices; or, where that would pass 128 bits, if and only if it raises at all |
| EngineRaises.CallCostsAsListed | crates/poker-engine/src/engine.rs:257-271 | an accepted call adds exactly the listed amount to pot and contribution |
| EngineTurns.FirstWantedSpec | crates/poker-engine/src/engine.rs:464-475 | the search round the table stops at the nearest wanted seat |
| EngineTurns.TurnMoves | crates/poker-engine/src/engine.rs:461-481 | the turn passes to an unfolded seat that has not acted, and those still to act remain an arc from it |
| EngineTurns.StreetOpens | crates/poker-engine/src/engine.rs:526-570 | a completed round opens the next street with every unfolded seat to act, in order from the one that opens it (`OpensLeftOfButton` says which) |
| EngineAllIns.OpensLeftOfButton | crates/poker-engine/src/engine.rs:558-617 | an action that completes a round with a street to follow gives the turn to the nearest unfolded seat to the left of the button: every seat passed over has folded |
| EngineTurns.StepInPlay | crates/poker-engine/src/engine.rs:221-326 | an accepted action that is not an all-in keeps the turn invariant and lowers the measure |
| EngineTurns.PlayOn | crates/poker-engine/src/engine.rs:436-570 | any all-in-free continuation keeps the invariant and is no longer than the measure |
| EngineTurns.NeverStuck | crates/poker-engine/src/engine.rs:247-250 | while a hand is in play some action is accepted |
| EngineTurns.NothingAfterTheEnd | crates/poker-engine/src/engine.rs:230-232 | once nobody is to act nothing is accepted |
| EngineTurns.DealStartsPlay | crates/poker-engine/src/engine.rs:179-205 | a deal starts a hand in play if and only if no seated player is marked all-in, two are not marked folded, and the first to act is not |
| EngineTurns.HandFromDeal | crates/poker-engine/src/engine.rs:112-570 | a fairly dealt hand in which no all-in is accepted and nothing overflows, whatever is refused, is always in play in turn order, over with one seat left, or at showdown with equal and maximal stakes, and it is bounded in length |
| EngineTurns.RefusalsDropOut | crates/poker-engine/src/engine.rs:226-310 | short of an overflow, a run with refused actions ends where the run of its accepted actions ends |
| EngineAllIns.StreetStaysOpen | crates/poker-engine/src/engine.rs:509-524 | a street that waits for an all-in seat other than the one to act stays open through any actions that do not raise, while two seats are unfolded and one can act |
| EngineAllIns.PassesForEver | crates/poker-engine/src/engine.rs:464-475 | on such a street there are accepted runs of checks and calls of every length |
| EngineAllIns.PassingClosesIff | crates/poker-engine/src/engine.rs:509-524 | where the seat ids could all call without overflow, folds, checks and calls can close a street if and only if every unfolded all-in seat has acted or is the one to act |
| EngineAllIns.StalledCannotClose | crates/poker-engine/src/engine.rs:509-524 | that they cannot close it otherwise needs no such condition |
| EngineProgress.PassesBoundedIff | crates/poker-engine/src/engine.rs:436-524 | in any state of a fairly dealt hand without overflow in which the seat ids could all call and somebody can act, the runs of folds, checks and calls on the open street are bounded if and only if every unfolded all-in seat has acted or is the one to act |
| EngineAllIns.MatchedOverEveryRun | crates/poker-engine/src/engine.rs:304-319 | in every state of every run without overflow, whoever has acted has matched the bet, is all-in or has folded |
| EngineAllIns.OpensStalledIff | crates/poker-engine/src/engine.rs:558-568 | a completed round opens a street that waits in vain if and only if an unfolded seat other than the first left of the button is all-in |
| EngineProgress.StepInTurn | crates/poker-engine/src/engine.rs:221-326 | any accepted action, all-ins included, keeps turn order unless a new street opens waiting in vain, and lowers the measure |
| EngineProgress.HandWithAllIns | crates/poker-engine/src/engine.rs:112-570 | a fairly dealt hand without overflow, all-ins included, is in play in turn order, held up by an all-in seat that is not asked, or over; its accepted actions other than idle ones on held-up streets are bounded in number |
| EngineProgress.RaiseFrees | crates/poker-engine/src/engine.rs:312-319 | a raise on a held-up street counts every all-in seat as having acted and restores turn order |
| EngineProgress.StepAnyhow | crates/poker-engine/src/engine.rs:221-326 | any accepted action of any such hand never raises the measure, and lowers it unless it is idle on a held-up street |
| EngineProgress.HandNeverHeldUp | crates/poker-engine/src/engine.rs:112-570 | if no street is held up nothing is idle, and a showdown shows the whole board |
| EngineAllIns.SeatedOverEveryRun | crates/poker-engine/src/engine.rs:112-326 | in every state of every run only seated players have chips in the pot or are asked to act |
| EngineCheckDown.CheckDown | crates/poker-engine/src/engine.rs:251-271 | calling and checking takes any hand in play to its showdown while 256 times the stake fits 128 bits |
| EngineCheckDown.DealCanBeCheckedDown | crates/poker-engine/src/engine.rs:112-570 | every fairly dealt hand can reach its showdown without an all-in |
| EngineDealing.DeckIsPartitioned | crates/poker-engine/src/engine.rs:145-178 | hole cards, burns, board and rest are the deck as a multiset, and seat i of n holds cards i and n + i (`BurnAndTurn` gives the order of the rest) |
| EngineDealing.BurnAndTurn | crates/poker-engine/src/engine.rs:157-178 | after the hole cards the deck reads burn, flop, burn, turn, burn, river, rest |
| EngineDealing.ActionGrowsBoard | crates/poker-engine/src/engine.rs:526-557 | any action keeps the shown board a prefix of the dealt one, of 0, 3, 4 or 5 cards by street, and no street comes back |
| EngineDealing.BoardFromDeal | crates/poker-engine/src/engine.rs:526-557 | the same through any number of actions from the deal |
| EngineDealing.EachRoleOnce | crates/poker-engine/src/engine.rs:572-625 | over n consecutive hand numbers with n fixed seats each seat is button, small blind and big blind exactly once |
| EngineDealing.EachRoleOnceInPlay | crates/poker-engine/src/engine.rs:142-216 | over n deals in a row, whatever is played in between, each seat holds each role exactly once and posts each blind exactly when it holds its role |
| EngineDealing.BlindsInTurn | crates/poker-engine/src/engine.rs:572-592 | blinds and first to act sit side by side, heads-up included |
| EngineModel.BlindsDiffer | crates/poker-engine/src/engine.rs:572-592 | the two blinds are different seats |
| EngineFindings.FoldSpoilsNextHand | crates/poker-engine/src/engine.rs:200-204 | a fold survives the next deal and ends that hand after one call |
| EngineFindings.AllInSeatMustAct | crates/poker-engine/src/engine.rs:446-459 | two all-ins lead to a flop that waits for an all-in seat and to a showdown with three cards |
| EngineFindings.FlopNeverCloses | crates/poker-engine/src/engine.rs:464-475 | an all-in and two calls lead to a flop on which the callers may check any number of times without closing it |
| EngineFindings.RefusedRaiseSticks | crates/poker-engine/src/engine.rs:290-299 | a raise refused for overflow stays on the table and lets its seat check with only the small blind paid |
| EngineFindings.UnequalShowdown | crates/poker-engine/src/engine.rs:272-309 | two unequal all-ins come to showdown with both contributions in the pot |
| EngineAllIns.ActorAllInIff | crates/poker-engine/src/engine.rs:436-481 | after an accepted action the seat to act is all-in if and only if the action completed a round with a street to follow and the first unfolded seat left of the button is all-in |
| EngineAllIns.ShortShowdownIff | crates/poker-engine/src/engine.rs:446-459 | an accepted action leads to a showdown with part of the board hidden if and only if part is hidden now, two seats remain, none can act and one has not acted |
| EngineFindings.ListedMinimumRefused | crates/poker-engine/src/engine.rs:627-633 | near the 128-bit limit the listed minimum raise is refused |
| Pots.CollectLevels | crates/poker-engine/src/engine.rs:685-689 | in whatever order the map is visited, the positive contributions are listed in ascending order |
| Pots.BuildPotLayers | crates/poker-engine/src/engine.rs:681-728 | the sort-and-slice loop computes the recursive layers, whatever the map or tie order |
| PotTheorems.LayerAmount | crates/poker-engine/src/engine.rs:700-709 | the unchecked multiplication does not wrap when the total fits 128 bits |
| PotTheorems.LayersSum | crates/poker-engine/src/engine.rs:681-728 | the layers add up to every contribution capped at the second largest |
| PotTheorems.UncalledExcess | crates/poker-engine/src/engine.rs:705-707 | the layers miss exactly the excess of the largest contribution, nothing if and only if the two largest are equal |
| PotTheorems.LayersNested | crates/poker-engine/src/engine.rs:704-724 | a later layer's eligible seats are among an earlier one's |
| PotTheorems.LayersAreSlices | crates/poker-engine/src/engine.rs:681-728 | the layers cut the contributions between consecutive levels: each holds its slice of every contribution and is open to exactly the unfolded seats that reach its upper level |
| PotTheorems.TopLayer | crates/poker-engine/src/engine.rs:696-725 | the last layer is open to exactly the unfolded seats that put in at least the second largest contribution |
| PotTheorems.LayersExistIff | crates/poker-engine/src/engine.rs:690-707 | there are layers if and only if two seats have put in chips |
| PotTheorems.WinnableAtMostMatched | crates/poker-engine/src/engine.rs:681-728 | the layers a seat is eligible for hold at most what it matched of every contribution |
| ShowdownEval.EvaluateShowdown | crates/poker-engine/src/engine.rs:371-424 | the scan computes the specified winners in ascending order |
| ShowdownEval.WinnersAreBest | crates/poker-engine/src/engine.rs:371-424 | winners are exactly the strongest among the eligible seats that showed, and there are none if and only if nobody eligible showed or the board is short |
| ShowdownEval.WinsNested | crates/poker-engine/src/engine.rs:371-424 | a winner over more seats that is eligible among fewer also wins there |
| Settlement.RakeRoundsDown | crates/settlement/src/lib.rs:142-153 | a valid policy takes its fraction of the pot rounded down, the product saturated at 128 bits, and never more than the pot |
| Settlement.SplitSum | crates/settlement/src/lib.rs:1035-1051 | the shares of a pot add up to it |
| Settlement.SplitAt | crates/settlement/src/lib.rs:1035-1051 | shares differ by at most one chip, in favour of earlier winners |
| Settlement.WinnersPlanConserves | crates/settlement/src/lib.rs:560-601 | a single-pot plan fails only on a bad policy, and accounts for the pot if and only if there are winners or no chips |
| Settlement.WinnersPlanRakes | crates/settlement/src/lib.rs:560-601 | such a plan carries its own ids, rakes the pot by the policy rounded down, and pays only winners |
| Settlement.PotWithoutWinners | crates/settlement/src/lib.rs:568-578 | a pot of a hundred chips without winners is neither paid nor raked |
| SettlementTheorems.AccumulateAwards | crates/settlement/src/lib.rs:612-644 | the loop over pots computes the specified gross awards or its first error |
| SettlementTheorems.BuildPlanFromPotAwards | crates/settlement/src/lib.rs:603-674 | the plan built in loops is the specified plan or its first error; `PlanRakes`, `GrossIsParts`, `PaidByShare` and `PlanConserves` say what that plan is |
| SettlementTheorems.AccumulateTotal | crates/settlement/src/lib.rs:612-644 | gross awards add up to the pots won, and accumulating them fails only for an ineligible winner or for want of 128 bits |
| SettlementTheorems.PlanBuiltIff | crates/settlement/src/lib.rs:603-674 | a plan is built if and only if awards are valid, fit, and the policy is valid where there is something to rake |
| SettlementTheorems.PlanConserves | crates/settlement/src/lib.rs:603-674 | payouts and rake never exceed the pots, and equal them if and only if the saturated shares come within one chip an award, as they do while no product saturates (the rake itself is `PlanRakes`) |
| SettlementTheorems.PlanRakes | crates/settlement/src/lib.rs:654-673 | a plan carries its own ids, and its rake is the policy's fraction of what was won, rounded down, the product saturated at 128 bits |
| SettlementTheorems.PlanListsPaid | crates/settlement/src/lib.rs:1085-1095 | a plan lists every seat it pays once, in ascending order, with a positive amount |
| SettlementTheorems.GrossIsParts | crates/settlement/src/lib.rs:612-644 | a gross award is the seat's equal part of every pot it won, to within a chip a pot |
| SettlementTheorems.PaidHasWon | crates/settlement/src/lib.rs:612-666 | whatever saturates, only winners of some pot are paid |
| SettlementTheorems.PaidByShare | crates/settlement/src/lib.rs:612-666 | while no product saturates a seat is paid, to within a chip, its gross share of what is not raked, and nothing if it won nothing |
| SettlementTheorems.GrossAtMostWon | crates/settlement/src/lib.rs:612-644 | a gross award is at most the pots its seat won |
| SettlementTheorems.PayoutAtMostWon | crates/settlement/src/lib.rs:612-666 | so is every payout while no product saturates |
| SettlementTheorems.SmallPotsDoNotSaturate | crates/settlement/src/lib.rs:1069-1069 | no product saturates if the square of the total fits |
| SettlementTheorems.CheckedTotal | crates/settlement/src/lib.rs:119-123 | the checked sum of payouts or overflow |
| Apportion.ComputeApportionment | crates/settlement/src/lib.rs:1053-1096 | the loops over rows compute the specified apportionment, which `ShareRounded`, `LargestRemainderFirst` and `PaysExactly` determine |
| ApportionTheorems.LeftoverSmall | crates/settlement/src/lib.rs:1066-1084 | while products fit, the chips left over are fewer than the rows, so one pass serves |
| ApportionTheorems.PaysAtMostTarget | crates/settlement/src/lib.rs:1053-1096 | never more than the target is paid, and exactly the target if and only if the saturated shares, rounded down, come within one chip an award of it |
| ApportionTheorems.PaysExactly | crates/settlement/src/lib.rs:1053-1096 | exactly the target while products fit |
| ApportionTheorems.SaturationUnderpays | crates/settlement/src/lib.rs:1069-1069 | two huge awards for which saturation pays out four chips |
| ApportionTheorems.HeldBackNetsWithin | crates/settlement/src/lib.rs:1065-1095 | once anything is held back from the gross, no award of a chip or more nets more than itself, whatever saturates |
| ApportionTheorems.SaturationOverpays | crates/settlement/src/lib.rs:1069-1069 | an award of one chip that nets two once the other product saturates |
| ApportionTheorems.ShareRounded | crates/settlement/src/lib.rs:1065-1095 | each seat gets its exact share rounded down or up |
| ApportionTheorems.LargestRemainderFirst | crates/settlement/src/lib.rs:1077-1084 | while products fit, if a seat is rounded up, so is every seat with a larger remainder and every lower seat with an equal one |
| ApportionTheorems.NetAtMostGross | crates/settlement/src/lib.rs:1065-1095 | no seat nets more than its gross award |
| ApportionTheorems.WholeTargetIsIdentity | crates/settlement/src/lib.rs:1065-1095 | a target equal to the gross total returns the gross awards |
| ApportionTheorems.LargerNetsNoLess | crates/settlement/src/lib.rs:1065-1095 | a larger gross award never nets less |
| ApportionTheorems.EqualNetsClose | crates/settlement/src/lib.rs:1065-1095 | equal awards differ by at most a chip in favour of the lower seat |
| ApportionTheorems.PayoutsListNets | crates/settlement/src/lib.rs:1085-1095 | the output lists exactly the positive nets in strictly ascending seat order |
| ShowdownSettlement.BuildSettlementPlan | crates/app-server/src/showdown_settlement.rs:4-42 | the loop over layers builds the specified plan or its first error; `AwardsByLayer`, `PaidHoldsBest`, `LayersRaked` and `PlanFailsAs` say which |
| ShowdownSettlement.AwardsForSpec | crates/app-server/src/showdown_settlement.rs:19-32 | awards exist if and only if every layer with chips can be decided; they are valid, hold all layer chips, and give no seat more than it matched (`AwardsByLayer` names the winners) |
| ShowdownSettlement.AwardsByLayer | crates/app-server/src/showdown_settlement.rs:19-32 | in any balanced state the awards run through the layers in order, each with its layer's chips, and a seat is a winner if and only if it holds a best hand among those eligible for the layer |
| ShowdownSettlement.PaidHoldsBest | crates/app-server/src/showdown_settlement.rs:14-41 | whatever saturates, a seat that holds the best hand in no layer is paid nothing |
| ShowdownSettlement.SoleBestTakesAll | crates/app-server/src/showdown_settlement.rs:14-41 | one best hand alone is paid the layers less the rake, if the shares reach them |
| ShowdownSettlement.LayersRaked | crates/app-server/src/showdown_settlement.rs:33-41 | the plan carries the hand's ids and rakes the layers by the policy |
| ShowdownSettlement.PlanBuiltExactly | crates/app-server/src/showdown_settlement.rs:14-41 | when a plan is built, both ways, and never a failure for an ineligible winner |
| ShowdownSettlement.PlanFailsAs | crates/app-server/src/showdown_settlement.rs:14-41 | the error says what was wrong: chips without a layer, a layer that cannot be decided, or the policy, in that order |
| ShowdownSettlement.SettleableIff | crates/app-server/src/showdown_settlement.rs:14-41 | in any state of any run with every unfolded hand shown, a plan is built if and only if the pot is empty, or two seats have chips in it and some unfolded seat has put in at least the second largest contribution |
| ShowdownSettlement.PlanPaysLayers | crates/app-server/src/showdown_settlement.rs:14-41 | in any balanced state a plan with its rake pays at most the layers, and exactly the layers if and only if the saturated shares reach them |
| ShowdownSettlement.PayoutAtMostMatched | crates/settlement/src/lib.rs:612-666 | and no seat more than it matched of every contribution |
| ShowdownSettlement.PlanMissesExcess | crates/app-server/src/showdown_settlement.rs:14-41 | all-ins included, payouts plus rake miss the pot by at least the excess of the largest contribution over the next, by exactly that if and only if the shares reach the layers, and by nothing if and only if they do and the two are equal |
| ShowdownFindings.ExcessNotPaid | crates/app-server/src/showdown_settlement.rs:14-41 | two unequal all-ins end in a plan for six big blinds of a pot of eight |
| ShowdownFindings.PotStuck | crates/app-server/src/showdown_settlement.rs:24-26 | a hand of four comes to showdown with thirty big blinds for which no plan can be made, whatever is shown |
| EngineStuck.StuckAtShowdown | crates/poker-engine/src/engine.rs:446-459 | the run that leads there, every action accepted |
| ShowdownSettlement.WholeHandConserves | crates/app-server/src/showdown_settlement.rs:4-42 | any fairly dealt hand that reaches showdown with no all-in accepted and no overflow: stakes equal, every layer open to exactly the unfolded seats, layers equal the pot, a plan is built, and payouts plus rake are the pot if and only if the shares reach it, as they do if its square fits 128 bits; the rake is the policy's part of the pot, only holders of a best hand are paid, and one best hand alone is paid all the rest |
| Payouts.PayoutDesk.UpdateByTxHash | crates/ledger-store/src/lib.rs:755-772 | the loop updates every record of the transaction and no other, in any order |
| Payouts.PayoutDesk.InsertRecord | crates/ledger-store/src/lib.rs:744-753 | a record is added under a fresh id |
| Payouts.PayoutDesk.PersistSubmissions | crates/app-server/src/settlement_orchestrator.rs:655-680 | one submitted record per submission, in order |
| Payouts.PayoutDesk.PersistReceipts | crates/app-server/src/settlement_orchestrator.rs:705-731 | each receipt's status is written to its records in turn |
| Payouts.PayoutDesk.MarkFailedForReview | crates/settlement/src/lib.rs:282-305 | failed receipts, and only those, are marked and counted |
| Payouts.PayoutDesk.RecordPlan | crates/settlement/src/lib.rs:676-724 | the ledger grows by the rake, unless it is zero, and by every payout |
| Payouts.PayoutDesk.SubmitDirect | crates/settlement/src/lib.rs:726-762 | transfers are asked for one by one until the first missing address or wallet error |
| Payouts.PayoutDesk.CheckSubmissions | crates/settlement/src/lib.rs:764-787 | one receipt per submission, shallow confirmations turned into pending, or the first wallet error |
| Payouts.PayoutDesk.SettleDirect | crates/app-server/src/settlement_orchestrator.rs:240-314 | the whole direct flow ends in the specified books and result on every path |
| HandPaidOut.SettleShowdown | crates/app-server/src/settlement_orchestrator.rs:213-314 | planning and paying joined; a hand that cannot be planned changes nothing |
| PayoutTheorems.SendInStep | crates/settlement/src/lib.rs:736-761 | for any wallet the transfers are the payouts with chips, in order, up to the first that fails, and the error says which |
| PayoutTheorems.TransfersPay | crates/settlement/src/lib.rs:736-755 | for any wallet the k-th transfer carries the plan's room and hand, and the seat, the amount and the seat's own address of the k-th payout with chips |
| PayoutTheorems.EntriesBooked | crates/settlement/src/lib.rs:676-724 | the rake, if any, is booked first as a credit to no seat, then every payout in order as a debit of its seat, all under the plan's room and hand |
| PayoutTheorems.ClosesIff | crates/app-server/src/settlement_orchestrator.rs:263-304 | for any wallet the hand is closed, once, if and only if every due payout was taken and is confirmed deeply enough and the room agrees |
| PayoutTheorems.SucceedsIff | crates/app-server/src/settlement_orchestrator.rs:240-314 | for any wallet the flow reports success if and only if the total fits, every due payout was taken and its receipt answered, and the room agrees to close a delivered hand |
| PayoutTheorems.ReviewedAt | crates/app-server/src/settlement_orchestrator.rs:705-731 | for any receipts at all: a record without one is untouched, one failed receipt means manual review, otherwise the last receipt decides |
| PayoutTheorems.OlderRecordEnds | crates/app-server/src/settlement_orchestrator.rs:263-290 | where an older record ends; untouched if the settlement did not submit its transaction |
| PayoutTheorems.NewRecordEnds | crates/app-server/src/settlement_orchestrator.rs:263-290 | with distinct, echoed transactions each new record carries its plan, room, hand and transaction and ends confirmed, pending or in review as its receipt says |
| PayoutTheorems.RecordIds | crates/app-server/src/settlement_orchestrator.rs:655-680 | exactly the new records are added and none is removed |
| PayoutTheorems.SettleKeepsIds | crates/ledger-store/src/lib.rs:744-753 | every outcome leaves unused ids unused |
| PayoutTheorems.UnrecordedIff | crates/app-server/src/settlement_orchestrator.rs:263-274 | for any wallet, a settlement leaves a transfer taken and nothing recorded if and only if the total fits, the first due payout is taken and a later one is not |
| PayoutTheorems.AddressRunsOut | crates/settlement/src/lib.rs:736-755 | with a wallet that takes everything that means the first due payout has an address and a later one has none |
| PayoutTheorems.SecondTransferRefused | crates/settlement/src/lib.rs:746-755 | a wallet that takes the first of two transfers and refuses the second leaves the first unrecorded |
| PayoutTheorems.LedgerTotal | crates/settlement/src/lib.rs:676-724 | the entries of a plan add up to payouts and rake |
| PayoutTheorems.ClosedMeansPaid | crates/app-server/src/settlement_orchestrator.rs:258-304 | if the hand is closed, the confirmed transfers of this settlement are exactly the payouts with chips, in order, each to its own seat and address, and the ledger grew by payouts and rake |
| HandPaidOut.PotPaidOut | crates/app-server/src/settlement_orchestrator.rs:213-314 | from deal to wallet: a closed hand's confirmed transfers plus rake are its ledger entries, and its pot if and only if the shares reach it; every transfer goes to the own address of a holder of a best hand |
| HandPaidOut.AnyPotPaidOut | crates/app-server/src/settlement_orchestrator.rs:213-314 | in any state of any run, a closed hand has had its pot paid out or raked except the excess of the largest contribution over the next, if and only if the shares reach the layers |
| RateLimiter.ConnectionRateLimiter.constructor | crates/rpc-gateway/src/lib.rs:293-303 | a zero limit counts as one and a zero window as one second |
| RateLimiter.ConnectionRateLimiter.CheckAndRecord | crates/rpc-gateway/src/lib.rs:305-324 | one call updates its connection's window and nothing else |
| RateLimiter.WindowCounts | crates/rpc-gateway/src/lib.rs:305-324 | a window counts exactly the calls it let through |
| RateLimiter.RefusedIff | crates/rpc-gateway/src/lib.rs:305-324 | a call is refused if and only if its window is open and full |
| RateLimiter.AtMostLimitPerWindow | crates/rpc-gateway/src/lib.rs:305-324 | no window ever lets more than the limit through |
| RateLimiter.AtMostTwiceLessOne | crates/rpc-gateway/src/lib.rs:305-324 | no interval one window long sees twice the limit |
| RateLimiter.BoundIsReached | crates/rpc-gateway/src/lib.rs:305-324 | calls in time order that straddle a window's end reach twice the limit less one |
| RateLimiter.ConnectionConcurrencyLimiter.Acquire | crates/rpc-gateway/src/lib.rs:344-362 | a call in flight is counted or refused at the limit |
| RateLimiter.ConnectionConcurrencyLimiter.Release | crates/rpc-gateway/src/lib.rs:372-381 | a release lowers the count and drops an empty entry |
| RateLimiter.CountsArePermits | crates/rpc-gateway/src/lib.rs:344-407 | over every run a connection's count is the number of its live permits, within the limit |
| RateLimiter.TakenIff | crates/rpc-gateway/src/lib.rs:344-362 | after any run a call is taken if and only if its connection has fewer live permits than the limit |
| TxBindings.InMemoryBindings.Insert | crates/ledger-store/src/lib.rs:568-597 | an insert writes both maps or reports a duplicate and writes neither |
| TxBindings.InMemoryBindings.FindByAction | crates/ledger-store/src/lib.rs:657-685 | the two-step lookup by hand and action |
| TxBindings.RunInverse | crates/ledger-store/src/lib.rs:568-597 | over every run of inserts the two maps undo each other |
| TxBindings.LookupsAgree | crates/ledger-store/src/lib.rs:635-685 | what is found under an action is found under its hash, and conversely |
| TxBindings.HoldsTheKept | crates/ledger-store/src/lib.rs:568-597 | the index holds exactly the inserts that were kept |
| TxBindings.KeptIff | crates/ledger-store/src/lib.rs:568-597 | an insert is kept if and only if no earlier kept one shares its action or hash |
| TxBindings.RefusedFor | crates/ledger-store/src/lib.rs:568-597 | a refusal blames the action if an earlier kept insert has it, and the transaction otherwise |
| TxBindings.FoundIff | crates/ledger-store/src/lib.rs:635-685 | what is found under an action is, field by field, the kept insert for it, unless that has no amount |
| CanonicalJson.CanonIsCanonical | crates/agent-auth/src/lib.rs:163-180 | in the result keys are strictly ascending at every depth |
| CanonicalJson.CanonicalIsFixed | crates/agent-auth/src/lib.rs:163-180 | a value with ascending keys is unchanged |
| CanonicalJson.Idempotent | crates/agent-auth/src/lib.rs:163-180 | canonicalising twice is canonicalising once |
| CanonicalJson.LookupsPreserved | crates/agent-auth/src/lib.rs:163-180 | every path of keys and indices finds the canonical form of what it found before |
| CanonicalJson.SameCanonIff | crates/agent-auth/src/lib.rs:163-180 | two values have equal results if and only if they differ only in member order at some depths, members hidden by a repeated key aside |

## Left out

- Batch payouts: one request and one receipt instead of a list; it would repeat the direct flow with less to prove.
- At-most-once payout across settlements: an unconfirmed settlement is retried from scratch, so it is not claimed.
- Failures of the in-memory stores themselves (poisoned locks) and of the ledger insert; ids from the UUID generator are modelled as unused numbers; timestamps, entry labels, remarks, audit events and alerts are not recorded.
- Postgres repositories, JSON-RPC routes, chain clients, configuration and the room actor: input and output over systems the model cannot see.
- Signatures, key encryption, ABI encoding and nonces: calls into foreign libraries.
- The ranking of poker hands and card parsing: replaced by an arbitrary strength function.
- `EngineState::start`: only tests use it.
- Room and hand ids inside a player action: `apply_action` does not read them.
- Interleavings between the two locks of the binding index, and between concurrent limiter calls: each call is one atomic step.
- The flag by which a permit releases only once: a run only drops permits that are held.
- The text of canonical JSON: numbers are kept as text and serialisation is not modelled.
- ApportionTheorems.PaysExactly: apportionment is stated for awards with distinct ascending seats, which is what its only caller passes.
- EngineTurns.HandFromDeal: equal stakes at showdown are stated for hands in which no all-in is accepted; with all-ins contributions differ. Turn order and progress with all-ins are in `EngineProgress.HandWithAllIns`.
- EngineAllIns.PassingClosesIff: that passing can close a street is stated where all 256 seat ids could call without the pot passing 128 bits, so that no call is refused for overflow; that it cannot close one otherwise is stated everywhere.
- A hand won by folds: automatic settlement acts only at showdown (crates/app-server/src/auto_settlement.rs:390), so the pot of a hand that ends with one seat left is paid by nothing that is modelled here.
- RateLimiter.AtMostTwiceLessOne: stated for call times that do not go back, as the monotonic clock guarantees.
