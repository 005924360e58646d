/** The poker engine over its mutable state. Each method is proved to do what `EngineModel` says. */
module Engine {
  import opened Money
  import opened Seats
  import opened Pots
  import opened EngineModel

  class EngineState {
    var snapshot: HandSnapshot
    var hand: HandState
    var round: BettingRound
    var pot: PotState
    var dealing: Option<Dealing>

    ghost function View(): (v: View)
      reads this
    {
      EngineModel.View.View(snapshot, hand, round, pot, dealing)
    }

    constructor (roomId: nat, handId: nat, handNo: U64)
      ensures View() == Opened(roomId, handId, handNo)
    {
      snapshot := HandSnapshot(roomId, handId, handNo, Created, Preflop, [], None, 1, 0);
      hand := HandState(handId, Preflop, 1, None, {}, {}, {});
      round := BettingRound(0, None, None, map[], {});
      pot := PotState(0, [], map[]);
      dealing := None;
    }

    method SeatPlayer(seat: SeatId)
      modifies this
      ensures View() == Seat(old(View()), seat)
    {
      hand := hand.(seated := hand.seated + {seat});
    }

    method SetActor(actor: Option<SeatId>)
      modifies this
      ensures View() == WithActor(old(View()), actor)
    {
      snapshot := snapshot.(actingSeatId := actor);
      hand := hand.(actingSeatId := actor);
      round := round.(actingSeatId := actor);
    }

    /** Adds to a seat's contribution; the state is untouched when that overflows. */
    method AddContribution(seat: SeatId, delta: Chips) returns (r: Option<MoneyError>)
      modifies `pot
      ensures r.Some? <==> delta != 0 && Get(old(pot).contributions, seat) + delta > U128_MAX
      ensures r.Some? ==> r.value == Overflow && pot == old(pot)
      ensures r.None? && delta != 0 ==>
                var paid := old(pot).contributions;
                pot == old(pot).(contributions := paid[seat := Get(paid, seat) + delta])
      ensures delta == 0 ==> pot == old(pot)
    {
      if delta == 0 {
        return None;
      }
      var next := CheckedAdd(Get(pot.contributions, seat), delta);
      if next.Err? {
        return Some(next.error);
      }
      pot := pot.(contributions := pot.contributions[seat := next.value]);
      return None;
    }

    method RebuildSidePots()
      modifies `pot
      ensures pot == old(pot).(sidePots := SidePots(old(pot).contributions, hand.folded))
    {
      var layers := BuildPotLayers(pot.contributions, hand.folded);
      pot := pot.(sidePots := SidePotsOf(layers));
    }

    // ----- turns -----

    /** Going round the table from `start`, the first wanted seat after it. */
    method FindWanted(order: seq<SeatId>, start: nat, wanted: set<SeatId>) returns (r: Option<SeatId>)
      ensures r == FirstWanted(order, start, 1, wanted)
    {
      r := None;
      var step := 1;
      while step <= |order|
        invariant 1 <= step <= |order| + 1
        invariant FirstWanted(order, start, 1, wanted) == FirstWanted(order, start, step, wanted)
      {
        var candidate := order[(start + step) % |order|];
        if candidate in wanted {
          return Some(candidate);
        }
        step := step + 1;
      }
    }

    method FindPosition(order: seq<SeatId>, seat: SeatId) returns (p: Option<nat>)
      ensures p == Position(order, seat)
    {
      var i := 0;
      while i < |order|
        invariant 0 <= i <= |order|
        invariant Position(order, seat) == PositionFrom(order, seat, i)
      {
        if order[i] == seat {
          return Some(i);
        }
        i := i + 1;
      }
      p := None;
    }

    method IsBettingRoundComplete(active: seq<SeatId>) returns (done: bool)
      requires active == Sorted(Unfolded(View()))
      ensures done <==> RoundComplete(View())
    {
      SortedSpec(Unfolded(View()));
      if active == [] {
        return false;
      }
      var i := 0;
      while i < |active|
        invariant 0 <= i <= |active|
        invariant forall j :: 0 <= j < i ==>
                    && active[j] in round.acted
                    && (active[j] in hand.allIn || Get(round.playerBets, active[j]) == round.currentBet)
      {
        var seat := active[i];
        assert seat in Members(active);
        if !(seat in round.acted && (seat in hand.allIn || Get(round.playerBets, seat) == round.currentBet)) {
          return false;
        }
        i := i + 1;
      }
      assert active[0] in Members(active);
      done := true;
    }

    method AdvanceStreetInPlace(active: seq<SeatId>) returns (changed: Option<Street>)
      requires active == Sorted(Unfolded(View())) && active != []
      modifies this
      ensures Unfolded(old(View())) != {} && (View(), changed) == AdvanceStreet(old(View()))
    {
      SortedSpec(Unfolded(View()));
      assert active[0] in Members(active);
      var next := NextStreet(snapshot.street);
      if next.None? {
        snapshot := snapshot.(status := Showdown, street := ShowdownStreet);
        if dealing.Some? {
          assert Take(dealing.value.boardCards, |dealing.value.boardCards|) == dealing.value.boardCards;
          snapshot := snapshot.(boardCards := dealing.value.boardCards);
        }
        hand := hand.(street := ShowdownStreet);
        SetActor(None);
        return Some(ShowdownStreet);
      }
      snapshot := snapshot.(street := next.value);
      if dealing.Some? {
        snapshot := snapshot.(boardCards := Take(dealing.value.boardCards, RevealCount(next.value)));
      }
      hand := hand.(street := next.value);
      round := round.(currentBet := 0, minRaiseTo := None, playerBets := map[], acted := {});

      var order := Sorted(hand.seated);
      var dealer := DealerIndex(snapshot.handNo, |order|);
      var left := None;
      if dealer < |order| {
        left := FindWanted(order, dealer, Members(active));
      }
      SetActor(Some(OrElse(left, active[0])));
      return next;
    }

    method AdvanceTurnInPlace(seat: SeatId) returns (changed: Option<Street>)
      modifies this
      ensures (View(), changed) == AdvanceTurn(old(View()), seat)
    {
      SortedSpec(hand.seated - hand.folded);
      var active := Sorted(hand.seated - hand.folded);
      if |active| <= 1 {
        snapshot := snapshot.(status := Settled);
        SetActor(None);
        return None;
      }
      var complete := IsBettingRoundComplete(active);
      if complete {
        changed := AdvanceStreetInPlace(active);
        return;
      }
      SortedSpec(hand.seated - hand.folded - hand.allIn);
      var actionable := Sorted(hand.seated - hand.folded - hand.allIn);
      if actionable == [] {
        snapshot := snapshot.(status := Showdown, street := ShowdownStreet);
        hand := hand.(street := ShowdownStreet);
        SetActor(None);
        return Some(ShowdownStreet);
      }
      assert actionable[0] in Members(actionable);
      var order := Sorted(hand.seated);
      var p := FindPosition(order, seat);
      var next := None;
      if p.Some? {
        next := FindWanted(order, p.value, Members(actionable));
      }
      SetActor(Some(OrElse(next, actionable[0])));
      return None;
    }

    // ----- acting -----

    method ApplyAction(a: PlayerAction) returns (r: Outcome)
      modifies this
      ensures (View(), r) == Apply(old(View()), a)
    {
      if a.actionSeq != snapshot.nextActionSeq {
        return Rejected(ActionIllegal);
      }
      if snapshot.actingSeatId != Some(a.seatId) {
        return Rejected(NotYourTurn);
      }
      var seat := a.seatId;
      var prior := Get(round.playerBets, seat);
      var current := round.currentBet;
      var toCall := UnwrapOr(CheckedSub(current, prior), 0);
      if a.actionType == Fold {
        hand := hand.(folded := hand.folded + {seat});
        r := FinishAction(seat, false);
      } else if a.actionType == Check {
        if toCall != 0 {
          return Rejected(ActionIllegal);
        }
        r := FinishAction(seat, false);
      } else if a.actionType == Call {
        if toCall == 0 {
          return Rejected(ActionIllegal);
        }
        r := BetTo(a, current);
      } else {
        if a.amount.None? {
          return Rejected(ActionIllegal);
        }
        var target := a.amount.value;
        if target <= prior {
          return Rejected(ActionIllegal);
        }
        if a.actionType == RaiseTo {
          if target <= current {
            return Rejected(ActionIllegal);
          }
          if round.minRaiseTo.Some? && target < round.minRaiseTo.value {
            return Rejected(ActionIllegal);
          }
        }
        r := BetTo(a, target);
      }
    }

    /** The part that calls, raises and all-ins share once they are allowed. */
    method BetTo(a: PlayerAction, target: Chips) returns (r: Outcome)
      requires target > SeatBet(View(), a.seatId)
      modifies this
      ensures (View(), r) == PlaceBet(old(View()), a, target)
    {
      var seat := a.seatId;
      var raised := target > round.currentBet;
      var delta := UnwrapOr(CheckedSub(target, Get(round.playerBets, seat)), 0);
      PutOnTable(seat, target);
      var fault := Pay(seat, delta);
      if fault.Some? {
        assert View() == BetHalfDone(old(View()), seat, target);
        return Rejected(MoneyFault(fault.value));
      }
      if a.actionType == AllIn {
        hand := hand.(allIn := hand.allIn + {seat});
      }
      assert View() == BetPaid(old(View()), a, target);
      r := FinishAction(seat, raised);
    }

    method PutOnTable(seat: SeatId, target: Chips)
      modifies `round
      ensures View() == BetPlaced(old(View()), seat, target)
    {
      var current := round.currentBet;
      round := round.(playerBets := round.playerBets[seat := target]);
      if target > current {
        round := round.(currentBet := target, minRaiseTo := Some(NextMinRaiseTo(current, target)));
      }
    }

    method FinishAction(seat: SeatId, raised: bool) returns (r: Outcome)
      modifies this
      ensures (View(), r) == Finish(old(View()), seat, raised)
    {
      RebuildSidePots();
      if raised {
        round := round.(acted := hand.allIn + {seat});
      } else {
        round := round.(acted := round.acted + {seat});
      }
      snapshot := snapshot.(nextActionSeq := Increment(snapshot.nextActionSeq));
      hand := hand.(nextActionSeq := snapshot.nextActionSeq);
      var changed := AdvanceTurnInPlace(seat);
      return Accepted(changed);
    }

    /** Moves `delta` into the pot. The main pot is written before the contribution is checked. */
    method Pay(seat: SeatId, delta: Chips) returns (fault: Option<MoneyError>)
      requires delta > 0
      modifies `pot, `snapshot
      ensures fault.Some? <==>
                old(pot).mainPot + delta > U128_MAX || Get(old(pot).contributions, seat) + delta > U128_MAX
      ensures fault.Some? ==> fault.value == Overflow && snapshot == old(snapshot)
      ensures old(pot).mainPot + delta > U128_MAX ==> pot == old(pot)
      ensures fault.Some? && old(pot).mainPot + delta <= U128_MAX ==>
                pot == old(pot).(mainPot := old(pot).mainPot + delta)
      ensures fault.None? ==>
                pot == Paid(old(pot), seat, delta) && snapshot == old(snapshot).(potTotal := pot.mainPot)
    {
      var total := CheckedAdd(pot.mainPot, delta);
      if total.Err? {
        return Some(total.error);
      }
      pot := pot.(mainPot := total.value);
      fault := AddContribution(seat, delta);
      if fault.None? {
        snapshot := snapshot.(potTotal := pot.mainPot);
      }
    }
  
    // ----- dealing -----

    /** Two rounds of one card each; the second card of a pair overwrites the placeholder. */
    method DealHoles(order: seq<SeatId>, deck: seq<Card>) returns (holes: map<SeatId, (Card, Card)>)
      requires Ascending(order) && |deck| >= 2 * |order|
      ensures holes == DealtHoles(order, deck, |order|)
    {
      holes := map[];
      var i := 0;
      while i < |order|
        invariant 0 <= i <= |order|
        invariant holes == FirstRound(order, deck, i)
      {
        holes := holes[order[i] := (deck[i], deck[i])];
        i := i + 1;
      }
      i := 0;
      while i < |order|
        invariant 0 <= i <= |order|
        invariant holes == FirstRound(order, deck, |order|) + DealtHoles(order, deck, i)
      {
        var seat := order[i];
        FirstRoundAt(order, deck, |order|, i);
        NotInPrefix(order, i, i);
        DealtHolesKeys(order, deck, i);
        holes := holes[seat := (holes[seat].0, deck[|order| + i])];
        i := i + 1;
      }
      FirstRoundKeys(order, deck, |order|);
      DealtHolesKeys(order, deck, |order|);
    }

    method DrawCards(order: seq<SeatId>, deck: seq<Card>) returns (d: Dealing)
      requires Ascending(order) && |deck| >= 2 * |order| + 8
      ensures d == DealtCards(order, deck)
    {
      var holes := DealHoles(order, deck);
      var k := 2 * |order|;
      var burns := [deck[k], deck[k + 4], deck[k + 6]];
      assert burns == deck[k..k + 1] + deck[k + 4..k + 5] + deck[k + 6..k + 7];
      var board := [deck[k + 1], deck[k + 2], deck[k + 3]] + [deck[k + 5]] + [deck[k + 7]];
      assert board == deck[k + 1..k + 4] + deck[k + 5..k + 6] + deck[k + 7..k + 8];
      d := Dealing(deck[k + 8..], burns, board, holes);
    }

    /** Clears the pot and posts both blinds. */
    method PostBlinds(sb: SeatId, bb: SeatId)
      requires sb != bb
      modifies `pot, `round
      ensures pot == PotState(SMALL_BLIND + BIG_BLIND, [], map[sb := SMALL_BLIND, bb := BIG_BLIND])
      ensures round == old(round).(currentBet := BIG_BLIND, minRaiseTo := Some(2 * BIG_BLIND),
                                   playerBets := map[sb := SMALL_BLIND, bb := BIG_BLIND], acted := {})
    {
      round := round.(currentBet := BIG_BLIND,
                      minRaiseTo := Some(UnwrapOr(CheckedAdd(BIG_BLIND, BIG_BLIND), BIG_BLIND)),
                      playerBets := map[], acted := {});
      pot := PotState(0, [], map[]);
      round := round.(playerBets := round.playerBets[sb := SMALL_BLIND]);
      round := round.(playerBets := round.playerBets[bb := BIG_BLIND]);
      var fault := AddContribution(sb, SMALL_BLIND);
      assert fault.None?;
      fault := AddContribution(bb, BIG_BLIND);
      assert fault.None?;
      pot := pot.(mainPot := SMALL_BLIND + BIG_BLIND);
    }

    method DealNewHand(deck: seq<Card>, handId: nat) returns (r: Result<(), EngineError>)
      modifies this
      ensures r.Ok? <==> Deal(old(View()), deck, handId).Ok?
      ensures r.Ok? ==> View() == Deal(old(View()), deck, handId).value
      ensures r.Err? ==> View() == old(View()) && r.error == Deal(old(View()), deck, handId).error
    {
      SortedSpec(hand.seated);
      var order := Sorted(hand.seated);
      if |order| < 2 {
        return Err(NotEnoughPlayersToDeal);
      }
      if |CardSet(deck)| != |deck| {
        return Err(DuplicateCardsInDeck);
      }
      if |deck| < |order| * 2 + 8 {
        return Err(InsufficientDeck);
      }
      if snapshot.status != Created {
        snapshot := snapshot.(handNo := if snapshot.handNo == U64_MAX then U64_MAX else snapshot.handNo + 1);
      }
      var cards := DrawCards(order, deck);
      dealing := Some(cards);
      BlindsDiffer(DealerIndex(snapshot.handNo, |order|), order);
      var (sb, bb, first) := Blinds(snapshot.handNo, order);
      snapshot := snapshot.(handId := handId, nextActionSeq := 1, status := Running, street := Preflop,
                            boardCards := []);
      hand := hand.(handId := handId, nextActionSeq := 1, street := Preflop);
      SetActor(Some(first));
      PostBlinds(sb, bb);
      snapshot := snapshot.(potTotal := pot.mainPot);
      r := Ok(());
    }

    // ----- queries -----

    method LegalActionsFor(seat: SeatId) returns (actions: seq<LegalAction>)
      ensures actions == LegalActions(View(), seat)
    {
      if snapshot.actingSeatId != Some(seat) {
        return [];
      }
      var current := round.currentBet;
      var toCall := UnwrapOr(CheckedSub(current, Get(round.playerBets, seat)), 0);
      actions := [LegalAction(Fold, None, None)];
      if toCall == 0 {
        actions := actions + [LegalAction(Check, None, None)];
      } else {
        actions := actions + [LegalAction(Call, Some(toCall), Some(toCall))];
      }
      var minRaise := if round.minRaiseTo.Some? then round.minRaiseTo.value
                      else UnwrapOr(CheckedAdd(current, 1), current);
      actions := actions + [LegalAction(RaiseTo, Some(minRaise), None)];
      actions := actions + [LegalAction(AllIn, None, None)];
    }

    method PotLayers() returns (layers: seq<PotLayer>)
      ensures layers == Layers(pot.contributions, hand.folded)
    {
      layers := BuildPotLayers(pot.contributions, hand.folded);
    }
  }

  ghost function Prefix(order: seq<SeatId>, i: nat): (s: set<SeatId>)
    requires i <= |order|
  {
    if i == 0 then {} else Prefix(order, i - 1) + {order[i - 1]}
  }

  /** After the first round of dealing every pair holds its first card twice. */
  ghost function FirstRound(order: seq<SeatId>, deck: seq<Card>, i: nat): (m: map<SeatId, (Card, Card)>)
    requires i <= |order| && |deck| >= 2 * |order|
  {
    if i == 0 then map[] else FirstRound(order, deck, i - 1)[order[i - 1] := (deck[i - 1], deck[i - 1])]
  }

  lemma {:induction false} FirstRoundKeys(order: seq<SeatId>, deck: seq<Card>, i: nat)
    requires i <= |order| && |deck| >= 2 * |order|
    ensures FirstRound(order, deck, i).Keys == Prefix(order, i)
  {
    if i > 0 {
      FirstRoundKeys(order, deck, i - 1);
    }
  }

  lemma {:induction false} FirstRoundAt(order: seq<SeatId>, deck: seq<Card>, i: nat, j: nat)
    requires i <= |order| && |deck| >= 2 * |order| && Ascending(order) && j < i
    ensures order[j] in FirstRound(order, deck, i) && FirstRound(order, deck, i)[order[j]] == (deck[j], deck[j])
  {
    if j < i - 1 {
      FirstRoundAt(order, deck, i - 1, j);
    }
  }

  lemma {:induction false} DealtHolesKeys(order: seq<SeatId>, deck: seq<Card>, i: nat)
    requires i <= |order| && |deck| >= 2 * |order|
    ensures DealtHoles(order, deck, i).Keys == Prefix(order, i)
  {
    if i > 0 {
      DealtHolesKeys(order, deck, i - 1);
    }
  }

  lemma {:induction false} NotInPrefix(order: seq<SeatId>, i: nat, j: nat)
    requires Ascending(order) && i <= j < |order|
    ensures order[j] !in Prefix(order, i)
  {
    if i > 0 {
      NotInPrefix(order, i - 1, j);
    }
  }
}
