/** Where the engine falls short, shown on concrete runs at small tables. */
module EngineFindings {
  import opened Money
  import opened Seats
  import opened EngineModel
  import opened EngineMoney
  import opened EngineLegal
  import opened EngineTurns
  import opened EngineAllIns

  function TableOfTwo(): (v: View)
  {
    Seat(Seat(Opened(0, 0, 1), 0), 1)
  }

  lemma {:induction false} InOrder(seats: set<SeatId>, order: seq<SeatId>)
    requires Ascending(order) && Members(order) == seats
    ensures Sorted(seats) == order
  {
    SortedSpec(seats);
    assert forall x :: (x in order <==> x in Members(order)) && (x in Sorted(seats) <==> x in Members(Sorted(seats)));
    AscendingUnique(Sorted(seats), order);
  }

  lemma {:induction false} OrderOfTwo(seats: set<SeatId>)
    requires seats == {0, 1}
    ensures Sorted(seats) == [0, 1]
  {
    assert Members([0, 1]) == seats;
    InOrder(seats, [0, 1]);
  }

  /** Heads-up with both seats taken: the dealer posts the small blind and acts first. */
  lemma {:induction false} DealtToTwo(v: View, deck: seq<Card>, handId: nat, w: View, dealer: SeatId)
    requires v.hand.seated == {0, 1} && CheckDeal(v, deck).None? && w == Dealt(v, deck, handId)
    requires dealer == (NextHandNo(v.snapshot) - 1) % 2 && NextHandNo(v.snapshot) > 0
    ensures w.hand.seated == {0, 1} && w.hand.folded == v.hand.folded && w.hand.allIn == v.hand.allIn
    ensures w.snapshot.status == Running && w.snapshot.street == Preflop && w.snapshot.nextActionSeq == 1
    ensures w.snapshot.handNo == NextHandNo(v.snapshot) && w.snapshot.actingSeatId == Some(dealer)
    ensures w.round.currentBet == BIG_BLIND && w.round.minRaiseTo == Some(2 * BIG_BLIND) && w.round.acted == {}
    ensures w.round.playerBets == map[dealer := SMALL_BLIND, 1 - dealer := BIG_BLIND] == w.pot.contributions
    ensures w.pot.mainPot == SMALL_BLIND + BIG_BLIND
    ensures w.dealing.Some? && |w.dealing.value.boardCards| == 5
  {
    OrderOfTwo(v.hand.seated);
  }

  lemma {:induction false} TurnPasses(v: View)
    requires v.hand.seated == {0, 1} && v.hand.folded == {} && 1 !in v.hand.allIn && v.round.acted == {0}
    ensures AdvanceTurn(v, 0) == (WithActor(v, Some(1)), None)
  {
    assert Unfolded(v) == {0, 1} && 1 in Unfolded(v);
    assert 1 in Actionable(v);
    OrderOfTwo(v.hand.seated);
    assert FirstWanted([0, 1], 0, 1, Actionable(v)) == Some(1);
  }

  lemma {:induction false} FlopOpens(v: View)
    requires v.hand.seated == {0, 1} == v.hand.allIn && v.hand.folded == {} && v.round.acted == {0, 1}
    requires v.snapshot.handNo == 1 && v.snapshot.street == Preflop
    ensures AdvanceTurn(v, 1).0 == WithActor(ClearedRound(Revealing(WithStreet(v, Flop), 3)), Some(1))
  {
    assert Unfolded(v) == {0, 1} && RoundComplete(v);
    OrderOfTwo(v.hand.seated);
    assert FirstWanted([0, 1], 0, 1, {0, 1}) == Some(1);
  }

  // ----- marks that survive the deal -----

  /** Seat 0 folds the first hand. The next deal leaves the fold in place, so that the second hand is
      over after one call, although seat 0 has posted its blind and was never asked to act. */
  lemma {:induction false} FoldSpoilsNextHand(deck1: seq<Card>, deck2: seq<Card>)
    requires CheckDeal(TableOfTwo(), deck1).None?
    requires |CardSet(deck2)| == |deck2| && |deck2| >= 12
    ensures var first := Apply(Dealt(TableOfTwo(), deck1, 1), PlayerAction(1, 0, Fold, None));
            && first.1.Accepted? && CheckDeal(first.0, deck2).None? && !FairStart(first.0)
            && var second := Apply(Dealt(first.0, deck2, 2), PlayerAction(1, 1, Call, None));
               && second.1.Accepted? && second.0.snapshot.status == Settled
               && Contributed(second.0, 0) == BIG_BLIND && 0 !in second.0.round.acted
  {
    var v1 := Dealt(TableOfTwo(), deck1, 1);
    assert TableOfTwo().hand.seated == {0, 1};
    DealtToTwo(TableOfTwo(), deck1, 1, v1, 0);
    FirstHandFolded(v1);
    SecondHandDealt(Apply(v1, PlayerAction(1, 0, Fold, None)).0, deck2);
  }

  lemma {:induction false} SecondHandDealt(v: View, deck: seq<Card>)
    requires v.hand.seated == {0, 1} && v.hand.folded == {0} && v.hand.allIn == {}
    requires v.snapshot.status == Settled && v.snapshot.handNo == 1
    requires |CardSet(deck)| == |deck| && |deck| >= 12
    ensures CheckDeal(v, deck).None?
    ensures var second := Apply(Dealt(v, deck, 2), PlayerAction(1, 1, Call, None));
            && second.1.Accepted? && second.0.snapshot.status == Settled
            && Contributed(second.0, 0) == BIG_BLIND && 0 !in second.0.round.acted
  {
    var w := Dealt(v, deck, 2);
    DealtToTwo(v, deck, 2, w, 1);
    SecondHandOver(w);
  }

  lemma {:induction false} FirstHandFolded(v: View)
    requires v.hand.seated == {0, 1} && v.hand.folded == {} && v.hand.allIn == {}
    requires v.snapshot.nextActionSeq == 1 && v.snapshot.actingSeatId == Some(0)
    requires v.snapshot.handNo == 1 && v.snapshot.status == Running
    ensures var r := Apply(v, PlayerAction(1, 0, Fold, None));
            && r.1.Accepted? && r.0.hand.seated == {0, 1} && r.0.hand.folded == {0} && r.0.hand.allIn == {}
            && r.0.snapshot.status == Settled && r.0.snapshot.handNo == 1 && |Unfolded(r.0)| == 1
  {
    var w := Recorded(WithFold(v, 0), 0, false);
    assert Unfolded(w) == {1};
  }

  lemma {:induction false} SecondHandOver(v: View)
    requires v.hand.seated == {0, 1} && v.hand.folded == {0} && v.hand.allIn == {}
    requires v.snapshot.nextActionSeq == 1 && v.snapshot.actingSeatId == Some(1)
    requires v.round.currentBet == BIG_BLIND && v.round.acted == {}
    requires v.round.playerBets == map[1 := SMALL_BLIND, 0 := BIG_BLIND] == v.pot.contributions
    requires v.pot.mainPot == SMALL_BLIND + BIG_BLIND
    ensures var r := Apply(v, PlayerAction(1, 1, Call, None));
            && r.1.Accepted? && r.0.snapshot.status == Settled
            && Contributed(r.0, 0) == BIG_BLIND && 0 !in r.0.round.acted
  {
    var a := PlayerAction(1, 1, Call, None);
    assert Rule(v, a) == BetsTo(BIG_BLIND);
    var w := Recorded(BetPaid(v, a, BIG_BLIND), 1, false);
    assert Unfolded(w) == {1};
  }

  // ----- all-in seats are asked to act -----

  const STAKE: Chips := 5 * BIG_BLIND

  /** Both seats go all-in before the flop. The flop then waits for an all-in seat to act, and its
      check ends the hand in a showdown with only three board cards shown. */
  lemma {:induction false} AllInSeatMustAct(deck: seq<Card>)
    requires CheckDeal(TableOfTwo(), deck).None?
    ensures var v1 := Apply(Dealt(TableOfTwo(), deck, 1), PlayerAction(1, 0, AllIn, Some(STAKE))).0;
            var v2 := Apply(v1, PlayerAction(2, 1, AllIn, Some(STAKE))).0;
            var v3 := Apply(v2, PlayerAction(3, 1, Check, None)).0;
            && v2.snapshot.status == Running && v2.snapshot.street == Flop
            && v2.snapshot.actingSeatId == Some(1) && 1 in v2.hand.allIn
            && v3.snapshot.status == Showdown && |v3.snapshot.boardCards| == 3
  {
    var v0 := Dealt(TableOfTwo(), deck, 1);
    assert TableOfTwo().hand.seated == {0, 1};
    DealtToTwo(TableOfTwo(), deck, 1, v0, 0);
    FirstAllIn(v0);
    var v1 := Apply(v0, PlayerAction(1, 0, AllIn, Some(STAKE))).0;
    SecondAllIn(v1);
    var v2 := Apply(v1, PlayerAction(2, 1, AllIn, Some(STAKE))).0;
    CheckEndsHand(v2);
  }

  lemma {:induction false} FirstAllIn(v: View)
    requires v.hand.seated == {0, 1} && v.hand.folded == {} && v.hand.allIn == {} && v.snapshot.handNo == 1
    requires v.snapshot.nextActionSeq == 1 && v.snapshot.actingSeatId == Some(0) && v.snapshot.status == Running
    requires v.snapshot.street == Preflop && v.dealing.Some? && |v.dealing.value.boardCards| == 5
    requires v.round.currentBet == BIG_BLIND && v.round.acted == {} && v.pot.mainPot == SMALL_BLIND + BIG_BLIND
    requires v.round.playerBets == map[0 := SMALL_BLIND, 1 := BIG_BLIND] == v.pot.contributions
    ensures var w := Apply(v, PlayerAction(1, 0, AllIn, Some(STAKE))).0;
            && w.hand.seated == {0, 1} && w.hand.folded == {} && w.hand.allIn == {0} && w.snapshot.handNo == 1
            && w.snapshot.nextActionSeq == 2 && w.snapshot.actingSeatId == Some(1) && w.snapshot.status == Running
            && w.snapshot.street == Preflop && w.dealing == v.dealing
            && w.round.currentBet == STAKE && w.round.acted == {0}
            && SeatBet(w, 1) == BIG_BLIND && Contributed(w, 1) == BIG_BLIND && w.pot.mainPot == STAKE + BIG_BLIND
            && w.pot.contributions == map[0 := STAKE, 1 := BIG_BLIND]
  {
    var a := PlayerAction(1, 0, AllIn, Some(STAKE));
    TurnPasses(Recorded(BetPaid(v, a, STAKE), 0, true));
  }

  lemma {:induction false} SecondAllIn(v: View)
    requires v.hand.seated == {0, 1} && v.hand.folded == {} && v.hand.allIn == {0} && v.snapshot.handNo == 1
    requires v.snapshot.nextActionSeq == 2 && v.snapshot.actingSeatId == Some(1) && v.snapshot.status == Running
    requires v.snapshot.street == Preflop && v.dealing.Some? && |v.dealing.value.boardCards| == 5
    requires v.round.currentBet == STAKE && v.round.acted == {0}
    requires SeatBet(v, 1) == BIG_BLIND && Contributed(v, 1) == BIG_BLIND && v.pot.mainPot == STAKE + BIG_BLIND
    ensures var w := Apply(v, PlayerAction(2, 1, AllIn, Some(STAKE))).0;
            && w.hand.seated == {0, 1} && w.hand.folded == {} && w.hand.allIn == {0, 1}
            && w.snapshot.nextActionSeq == 3 && w.snapshot.actingSeatId == Some(1) && w.snapshot.status == Running
            && w.snapshot.street == Flop && |w.snapshot.boardCards| == 3
            && w.round.currentBet == 0 && w.round.acted == {} && w.round.playerBets == map[]
  {
    var a := PlayerAction(2, 1, AllIn, Some(STAKE));
    FlopOpens(Recorded(BetPaid(v, a, STAKE), 1, false));
  }

  lemma {:induction false} CheckEndsHand(v: View)
    requires v.hand.seated == {0, 1} && v.hand.folded == {} && v.hand.allIn == {0, 1}
    requires v.snapshot.nextActionSeq == 3 && v.snapshot.actingSeatId == Some(1) && v.snapshot.status == Running
    requires v.round.currentBet == 0 && v.round.acted == {} && v.round.playerBets == map[]
    ensures var w := Apply(v, PlayerAction(3, 1, Check, None)).0;
            && w.snapshot.status == Showdown && w.snapshot.boardCards == v.snapshot.boardCards
            && w.hand.seated == v.hand.seated && w.hand.folded == v.hand.folded
            && w.pot.contributions == v.pot.contributions
  {
    var x := Recorded(v, 1, false);
    assert Unfolded(x) == {0, 1} && x.round.acted == {1} && Actionable(x) == {};
    assert 0 in Unfolded(x) && 0 !in x.round.acted;
    assert |Unfolded(x)| == 2;
  }

  // ----- chips in no layer -----

  const SHORT: Chips := 3 * BIG_BLIND

  lemma {:induction false} ShortAllIn(v: View)
    requires v.hand.seated == {0, 1} && v.hand.folded == {} && v.hand.allIn == {0} && v.snapshot.handNo == 1
    requires v.snapshot.nextActionSeq == 2 && v.snapshot.actingSeatId == Some(1) && v.snapshot.status == Running
    requires v.snapshot.street == Preflop && v.round.currentBet == STAKE && v.round.acted == {0}
    requires SeatBet(v, 1) == BIG_BLIND && v.pot.mainPot == STAKE + BIG_BLIND
    requires v.pot.contributions == map[0 := STAKE, 1 := BIG_BLIND]
    ensures var w := Apply(v, PlayerAction(2, 1, AllIn, Some(SHORT))).0;
            && w.hand.seated == {0, 1} && w.hand.folded == {} && w.hand.allIn == {0, 1}
            && w.snapshot.nextActionSeq == 3 && w.snapshot.actingSeatId == Some(1) && w.snapshot.status == Running
            && w.round.currentBet == 0 && w.round.acted == {} && w.round.playerBets == map[]
            && w.pot.contributions == map[0 := STAKE, 1 := SHORT]
  {
    FlopOpens(Recorded(BetPaid(v, PlayerAction(2, 1, AllIn, Some(SHORT)), SHORT), 1, false));
  }

  /** Heads-up, one seat all-in for five big blinds and the other for three: the hand comes to showdown
      with the difference in the pot. */
  function UnequalAllIns(v: View): (w: View)
  {
    Apply(Apply(Apply(v, PlayerAction(1, 0, AllIn, Some(STAKE))).0,
                PlayerAction(2, 1, AllIn, Some(SHORT))).0,
          PlayerAction(3, 1, Check, None)).0
  }

  lemma {:induction false} UnequalShowdown(deck: seq<Card>)
    requires CheckDeal(TableOfTwo(), deck).None?
    ensures var w := UnequalAllIns(Dealt(TableOfTwo(), deck, 1));
            && ChipsInv(w) && w.snapshot.status == Showdown && w.hand.seated == {0, 1} && w.hand.folded == {}
            && w.pot.contributions == map[0 := STAKE, 1 := SHORT]
  {
    var v0 := Dealt(TableOfTwo(), deck, 1);
    assert TableOfTwo().hand.seated == {0, 1};
    DealtToTwo(TableOfTwo(), deck, 1, v0, 0);
    DealtChips(TableOfTwo(), deck, 1);
    FirstAllIn(v0);
    ApplyChips(v0, PlayerAction(1, 0, AllIn, Some(STAKE)));
    UnequalFrom(Apply(v0, PlayerAction(1, 0, AllIn, Some(STAKE))).0);
  }

  lemma {:induction false} UnequalFrom(v: View)
    requires ChipsInv(v) && v.hand.seated == {0, 1}
    requires v.hand.folded == {} && v.hand.allIn == {0} && v.snapshot.handNo == 1
    requires v.snapshot.nextActionSeq == 2 && v.snapshot.actingSeatId == Some(1) && v.snapshot.status == Running
    requires v.snapshot.street == Preflop && v.round.currentBet == STAKE && v.round.acted == {0}
    requires SeatBet(v, 1) == BIG_BLIND && v.pot.mainPot == STAKE + BIG_BLIND
    requires v.pot.contributions == map[0 := STAKE, 1 := BIG_BLIND]
    ensures var w := Apply(Apply(v, PlayerAction(2, 1, AllIn, Some(SHORT))).0, PlayerAction(3, 1, Check, None)).0;
            && ChipsInv(w) && w.snapshot.status == Showdown && w.hand.seated == {0, 1} && w.hand.folded == {}
            && w.pot.contributions == map[0 := STAKE, 1 := SHORT]
  {
    ShortAllIn(v);
    ApplyChips(v, PlayerAction(2, 1, AllIn, Some(SHORT)));
    var x := Apply(v, PlayerAction(2, 1, AllIn, Some(SHORT))).0;
    CheckEndsHand(x);
    ApplyChips(x, PlayerAction(3, 1, Check, None));
  }

  // ----- a refusal that sticks -----

  /** Heads-up the first seat raises to the largest number there is. The raise is refused but stays on the
      table, and the seat may then check with only its small blind paid. */
  lemma {:induction false} RefusedRaiseSticks(deck: seq<Card>)
    requires CheckDeal(TableOfTwo(), deck).None?
    ensures var v := Dealt(TableOfTwo(), deck, 1);
            var refused := Apply(v, PlayerAction(1, 0, RaiseTo, Some(U128_MAX)));
            var checked := Apply(refused.0, PlayerAction(1, 0, Check, None));
            && refused.1 == Rejected(MoneyFault(Overflow)) && refused.0 != v && checked.1.Accepted?
            && v.round.currentBet == BIG_BLIND && Contributed(checked.0, 0) == SMALL_BLIND
  {
    var v := Dealt(TableOfTwo(), deck, 1);
    var a, check := PlayerAction(1, 0, RaiseTo, Some(U128_MAX)), PlayerAction(1, 0, Check, None);
    assert TableOfTwo().hand.seated == {0, 1};
    DealtToTwo(TableOfTwo(), deck, 1, v, 0);
    DealtChips(TableOfTwo(), deck, 1);
    HugeRaiseRefused(v, a, check);
  }

  lemma {:induction false} HugeRaiseRefused(v: View, a: PlayerAction, check: PlayerAction)
    requires ChipsInv(v) && a == PlayerAction(1, 0, RaiseTo, Some(U128_MAX)) && check == PlayerAction(1, 0, Check, None)
    requires v.snapshot.nextActionSeq == 1
    requires v.snapshot.actingSeatId == Some(0) && v.pot.mainPot == SMALL_BLIND + BIG_BLIND
    requires v.round.currentBet == BIG_BLIND && v.round.minRaiseTo == Some(2 * BIG_BLIND)
    requires v.round.playerBets == map[0 := SMALL_BLIND, 1 := BIG_BLIND] == v.pot.contributions
    ensures Apply(v, a).1 == Rejected(MoneyFault(Overflow)) && Apply(v, a).0 != v
    ensures Apply(Apply(v, a).0, check).1.Accepted? && Contributed(Apply(Apply(v, a).0, check).0, 0) == SMALL_BLIND
  {
    assert WouldOverflow(v, a);
    PotOverflowsFirst(v, 0, U128_MAX - SeatBet(v, 0));
    RefusalKeepsState(v, a);
    FreeCheckIff(v, a, check);
  }

  // ----- a street that never closes -----

  function TableOfThree(): (v: View)
  {
    Seat(TableOfTwo(), 2)
  }

  lemma {:induction false} OrderOfThree(seats: set<SeatId>)
    requires seats == {0, 1, 2}
    ensures Sorted(seats) == [0, 1, 2]
  {
    assert Members([0, 1, 2]) == seats;
    InOrder(seats, [0, 1, 2]);
  }

  /** A hand of three in which seat 0 went all-in for `STAKE` and nobody folded. */
  ghost predicate ThreeLeft(v: View)
  {
    v.hand.seated == {0, 1, 2} && v.hand.folded == {} && v.hand.allIn == {0} && v.snapshot.handNo == 1
    && v.snapshot.status == Running && v.round.currentBet == STAKE && v.snapshot.street == Preflop
  }

  lemma {:induction false} DealtToThree(deck: seq<Card>, v: View)
    requires CheckDeal(TableOfThree(), deck).None? && v == Dealt(TableOfThree(), deck, 1)
    ensures v.hand.seated == {0, 1, 2} && v.hand.folded == {} && v.hand.allIn == {} && v.snapshot.handNo == 1
    ensures v.snapshot.status == Running && v.snapshot.street == Preflop && v.snapshot.nextActionSeq == 1
    ensures v.snapshot.actingSeatId == Some(0) && v.round.currentBet == BIG_BLIND && v.round.acted == {}
    ensures v.round.playerBets == map[1 := SMALL_BLIND, 2 := BIG_BLIND] == v.pot.contributions
    ensures v.pot.mainPot == SMALL_BLIND + BIG_BLIND
  {
    assert TableOfThree().hand.seated == {0, 1, 2};
    OrderOfThree(TableOfThree().hand.seated);
    BlindsOfThree([0, 1, 2]);
  }

  lemma {:induction false} BlindsOfThree(order: seq<SeatId>)
    requires order == [0, 1, 2]
    ensures Blinds(1, order) == (1, 2, 0)
  {
  }

  /** The turn goes from one seat of three to the next when that one can act and has not. */
  lemma {:induction false} NextOfThree(x: View, seat: SeatId)
    requires x.hand.seated == {0, 1, 2} && x.hand.folded == {} && x.hand.allIn == {0} && seat < 2
    requires seat + 1 !in x.round.acted
    ensures AdvanceTurn(x, seat) == (WithActor(x, Some(seat + 1)), None)
  {
    assert Unfolded(x) == {0, 1, 2} && seat + 1 in Unfolded(x);
    assert Actionable(x) == {1, 2};
    OrderOfThree(x.hand.seated);
    assert PositionFrom([0, 1, 2], seat, seat) == Some(seat);
    assert Position([0, 1, 2], seat) == Some(seat);
    assert FirstWanted([0, 1, 2], seat, 1, {1, 2}) == Some(seat + 1);
  }

  lemma {:induction false} ThreeAllIn(v: View)
    requires v.hand.seated == {0, 1, 2} && v.hand.folded == {} && v.hand.allIn == {} && v.snapshot.handNo == 1
    requires v.snapshot.status == Running && v.snapshot.street == Preflop && v.snapshot.nextActionSeq == 1
    requires v.snapshot.actingSeatId == Some(0) && v.round.currentBet == BIG_BLIND && v.round.acted == {}
    requires v.round.playerBets == map[1 := SMALL_BLIND, 2 := BIG_BLIND] == v.pot.contributions
    requires v.pot.mainPot == SMALL_BLIND + BIG_BLIND
    ensures var r := Apply(v, PlayerAction(1, 0, AllIn, Some(STAKE)));
            && r.1.Accepted? && ThreeLeft(r.0)
            && r.0.snapshot.nextActionSeq == 2 && r.0.snapshot.actingSeatId == Some(1)
            && r.0.round.acted == {0} && SeatBet(r.0, 0) == STAKE
            && SeatBet(r.0, 1) == Contributed(r.0, 1) == SMALL_BLIND
            && SeatBet(r.0, 2) == Contributed(r.0, 2) == BIG_BLIND
            && r.0.pot.mainPot == STAKE + SMALL_BLIND + BIG_BLIND
  {
    NextOfThree(Recorded(BetPaid(v, PlayerAction(1, 0, AllIn, Some(STAKE)), STAKE), 0, true), 0);
  }

  lemma {:induction false} ThreeCall(v: View)
    requires ThreeLeft(v) && v.snapshot.nextActionSeq == 2 && v.snapshot.actingSeatId == Some(1)
    requires v.round.acted == {0} && SeatBet(v, 0) == STAKE
    requires SeatBet(v, 1) == Contributed(v, 1) == SMALL_BLIND && SeatBet(v, 2) == Contributed(v, 2) == BIG_BLIND
    requires v.pot.mainPot == STAKE + SMALL_BLIND + BIG_BLIND
    ensures var r := Apply(v, PlayerAction(2, 1, Call, None));
            && r.1.Accepted? && ThreeLeft(r.0)
            && r.0.snapshot.nextActionSeq == 3 && r.0.snapshot.actingSeatId == Some(2)
            && r.0.round.acted == {0, 1} && SeatBet(r.0, 1) == STAKE
            && SeatBet(r.0, 2) == Contributed(r.0, 2) == BIG_BLIND && r.0.pot.mainPot == 2 * STAKE + BIG_BLIND
  {
    NextOfThree(Recorded(BetPaid(v, PlayerAction(2, 1, Call, None), STAKE), 1, false), 1);
  }

  lemma {:induction false} ThreeClose(v: View)
    requires ThreeLeft(v) && v.snapshot.nextActionSeq == 3 && v.snapshot.actingSeatId == Some(2)
    requires v.round.acted == {0, 1} && SeatBet(v, 1) == STAKE
    requires SeatBet(v, 2) == Contributed(v, 2) == BIG_BLIND && v.pot.mainPot == 2 * STAKE + BIG_BLIND
    ensures var r := Apply(v, PlayerAction(3, 2, Call, None));
            && r.1.Accepted? && r.0.snapshot.street == Flop && r.0.snapshot.actingSeatId == Some(1)
            && Waiting(r.0, 0) && Actionable(r.0) == {1, 2}
            && r.0.round.currentBet == 0 && r.0.round.playerBets == map[]
  {
    var x := Recorded(BetPaid(v, PlayerAction(3, 2, Call, None), STAKE), 2, false);
    FlopOfThree(x);
  }

  lemma {:induction false} FlopOfThree(x: View)
    requires x.hand.seated == {0, 1, 2} && x.hand.folded == {} && x.hand.allIn == {0} && x.snapshot.handNo == 1
    requires x.snapshot.street == Preflop && x.round.acted == {0, 1, 2}
    requires SeatBet(x, 1) == x.round.currentBet == SeatBet(x, 2)
    ensures AdvanceTurn(x, 2).0 == WithActor(ClearedRound(Revealing(WithStreet(x, Flop), 3)), Some(1))
  {
    assert Unfolded(x) == {0, 1, 2} && RoundComplete(x);
    OrderOfThree(x.hand.seated);
    assert FirstWanted([0, 1, 2], 0, 1, {0, 1, 2}) == Some(1);
  }

  /** Seat 0 goes all-in and the two others call. On the flop they may then check as often as they like,
      each again and again, and the flop never closes, although no all-in seat is ever asked to act. */
  lemma {:induction false} FlopNeverCloses(deck: seq<Card>, n: nat) returns (checks: seq<PlayerAction>)
    requires CheckDeal(TableOfThree(), deck).None?
    ensures var v1 := Apply(Dealt(TableOfThree(), deck, 1), PlayerAction(1, 0, AllIn, Some(STAKE)));
            var v2 := Apply(v1.0, PlayerAction(2, 1, Call, None));
            var v3 := Apply(v2.0, PlayerAction(3, 2, Call, None));
            && v1.1.Accepted? && v2.1.Accepted? && v3.1.Accepted? && v3.0.snapshot.street == Flop
            && |checks| == n && AllAccepted(v3.0, checks) && (forall k :: 0 <= k < n ==> checks[k].actionType == Check)
            && var w := Play(v3.0, checks);
               w.snapshot.street == Flop && w.snapshot.actingSeatId.Some? && Waiting(w, 0)
  {
    var v0 := Dealt(TableOfThree(), deck, 1);
    DealtToThree(deck, v0);
    DealtChips(TableOfThree(), deck, 1);
    ThreeAllIn(v0);
    ApplyChips(v0, PlayerAction(1, 0, AllIn, Some(STAKE)));
    var v1 := Apply(v0, PlayerAction(1, 0, AllIn, Some(STAKE))).0;
    checks := FlopNeverClosesFrom(v1, n);
  }

  lemma {:induction false} FlopNeverClosesFrom(v: View, n: nat) returns (checks: seq<PlayerAction>)
    requires ChipsInv(v) && ThreeLeft(v) && v.snapshot.nextActionSeq == 2 && v.snapshot.actingSeatId == Some(1)
    requires v.round.acted == {0} && SeatBet(v, 0) == STAKE
    requires SeatBet(v, 1) == Contributed(v, 1) == SMALL_BLIND && SeatBet(v, 2) == Contributed(v, 2) == BIG_BLIND
    requires v.pot.mainPot == STAKE + SMALL_BLIND + BIG_BLIND
    ensures var v2 := Apply(v, PlayerAction(2, 1, Call, None));
            var v3 := Apply(v2.0, PlayerAction(3, 2, Call, None));
            && v2.1.Accepted? && v3.1.Accepted? && v3.0.snapshot.street == Flop
            && |checks| == n && AllAccepted(v3.0, checks) && (forall k :: 0 <= k < n ==> checks[k].actionType == Check)
            && var w := Play(v3.0, checks);
               w.snapshot.street == Flop && w.snapshot.actingSeatId.Some? && Waiting(w, 0)
  {
    ThreeCall(v);
    ApplyChips(v, PlayerAction(2, 1, Call, None));
    var v2 := Apply(v, PlayerAction(2, 1, Call, None)).0;
    ThreeClose(v2);
    ApplyChips(v2, PlayerAction(3, 2, Call, None));
    var v3 := Apply(v2, PlayerAction(3, 2, Call, None)).0;
    SumOfEmpty(SEAT_LIMIT);
    checks := PassesForEver(v3, 0, n);
  }

  // ----- the listed minimum raise -----

  /** A raise close to the 128-bit limit leaves a listed minimum raise that is then refused. */
  lemma {:induction false} ListedMinimumRefused(deck: seq<Card>)
    requires CheckDeal(TableOfTwo(), deck).None?
    ensures var huge: Chips := U128_MAX - BIG_BLIND;
            var v := Apply(Dealt(TableOfTwo(), deck, 1), PlayerAction(1, 0, RaiseTo, Some(huge))).0;
            var a := PlayerAction(2, 1, RaiseTo, Some(huge));
            Offered(v, a) && Apply(v, a) == (v, Rejected(ActionIllegal))
  {
    var huge: Chips := U128_MAX - BIG_BLIND;
    var v0 := Dealt(TableOfTwo(), deck, 1);
    assert TableOfTwo().hand.seated == {0, 1};
    DealtToTwo(TableOfTwo(), deck, 1, v0, 0);
    HugeRaise(v0, huge);
    var v := Apply(v0, PlayerAction(1, 0, RaiseTo, Some(huge))).0;
    OfferedByType(v, PlayerAction(2, 1, RaiseTo, Some(huge)));
  }

  lemma {:induction false} HugeRaise(v: View, huge: Chips)
    requires huge == U128_MAX - BIG_BLIND
    requires v.hand.seated == {0, 1} && v.hand.folded == {} && v.hand.allIn == {}
    requires v.snapshot.nextActionSeq == 1 && v.snapshot.actingSeatId == Some(0) && v.snapshot.status == Running
    requires v.round.currentBet == BIG_BLIND && v.round.minRaiseTo == Some(2 * BIG_BLIND) && v.round.acted == {}
    requires v.round.playerBets == map[0 := SMALL_BLIND, 1 := BIG_BLIND] == v.pot.contributions
    requires v.pot.mainPot == SMALL_BLIND + BIG_BLIND
    ensures var w := Apply(v, PlayerAction(1, 0, RaiseTo, Some(huge))).0;
            && w.snapshot.nextActionSeq == 2 && w.snapshot.actingSeatId == Some(1)
            && w.round.currentBet == huge && w.round.minRaiseTo == Some(huge) && SeatBet(w, 1) == BIG_BLIND
  {
    var a := PlayerAction(1, 0, RaiseTo, Some(huge));
    TurnPasses(Recorded(BetPaid(v, a, huge), 0, true));
  }
}
