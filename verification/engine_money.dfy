/** What holds of the chips after any number of hands, whatever is dealt, played or refused. */
module EngineMoney {
  import opened Money
  import opened Seats
  import opened Pots
  import opened EngineModel

  // ----- runs -----

  datatype Event = SeatJoins(seat: SeatId) | HandDealt(deck: seq<Card>, handId: nat) | Acts(action: PlayerAction)

  function Next(v: View, e: Event): (w: View)
  {
    match e
    case SeatJoins(seat) => Seat(v, seat)
    case HandDealt(deck, handId) => (match Deal(v, deck, handId) case Ok(w) => w case Err(_) => v)
    case Acts(a) => Apply(v, a).0
  }

  function Run(v: View, events: seq<Event>): (w: View)
  {
    if events == [] then v else Next(Run(v, events[..|events| - 1]), events[|events| - 1])
  }

  /** The event is an action that ends in an overflow. */
  predicate Overflows(v: View, e: Event)
  {
    e.Acts? && Apply(v, e.action).1 == Rejected(MoneyFault(Overflow))
  }

  predicate NoOverflow(v: View, events: seq<Event>)
  {
    events == [] ||
    (NoOverflow(v, events[..|events| - 1]) && !Overflows(Run(v, events[..|events| - 1]), events[|events| - 1]))
  }

  // ----- the invariant -----

  ghost predicate PotBalanced(v: View)
  {
    v.pot.mainPot == v.snapshot.potTotal == Total(v.pot.contributions)
  }

  /** No street bet exceeds the bet to match, and the least legal raise is above it unless doubling
      the bet no longer fits 128 bits. */
  ghost predicate Ordered(r: BettingRound)
  {
    && (forall s: SeatId :: Get(r.playerBets, s) <= r.currentBet)
    && (r.minRaiseTo.Some? ==>
          && r.minRaiseTo.value >= r.currentBet
          && (r.minRaiseTo.value > r.currentBet || 2 * r.currentBet > U128_MAX))
  }

  ghost predicate SidePotsFresh(v: View)
  {
    v.pot.sidePots == SidePots(v.pot.contributions, v.hand.folded)
  }

  ghost predicate ChipsInv(v: View)
  {
    PotBalanced(v) && Ordered(v.round) && SidePotsFresh(v)
  }

  /** Every chip shown as a street bet has been paid into the pot. */
  ghost predicate BetsBacked(v: View)
  {
    Backed(v.round.playerBets, v.pot.contributions)
  }

  ghost predicate Backed(bets: ChipMap, paid: ChipMap)
  {
    forall s: SeatId :: Get(bets, s) <= Get(paid, s)
  }

  // ----- one step -----

  lemma {:induction false} AdvanceStreetChips(w: View)
    requires PotBalanced(w) && Ordered(w.round) && Unfolded(w) != {}
    ensures PotBalanced(AdvanceStreet(w).0) && Ordered(AdvanceStreet(w).0.round)
    ensures AdvanceStreet(w).0.pot == w.pot
    ensures AdvanceStreet(w).0.hand.folded == w.hand.folded
    ensures BetsBacked(w) ==> BetsBacked(AdvanceStreet(w).0)
  {
  }

  lemma {:induction false} AdvanceTurnChips(w: View, seat: SeatId)
    requires PotBalanced(w) && Ordered(w.round)
    ensures PotBalanced(AdvanceTurn(w, seat).0) && Ordered(AdvanceTurn(w, seat).0.round)
    ensures AdvanceTurn(w, seat).0.pot == w.pot
    ensures AdvanceTurn(w, seat).0.hand.folded == w.hand.folded
    ensures BetsBacked(w) ==> BetsBacked(AdvanceTurn(w, seat).0)
  {
    if |Unfolded(w)| > 1 && RoundComplete(w) {
      AdvanceStreetChips(w);
    }
  }

  lemma {:induction false} FinishChips(w: View, seat: SeatId, raised: bool)
    requires PotBalanced(w) && Ordered(w.round)
    ensures ChipsInv(Finish(w, seat, raised).0)
    ensures BetsBacked(w) ==> BetsBacked(Finish(w, seat, raised).0)
  {
    var x := Recorded(w, seat, raised);
    assert BetsBacked(w) ==> BetsBacked(x);
    AdvanceTurnChips(x, seat);
  }

  lemma {:induction false} BetPlacedOrdered(v: View, seat: SeatId, target: Chips)
    requires Ordered(v.round)
    ensures Ordered(BetPlaced(v, seat, target).round)
  {
    GetUpdate(v.round.playerBets, seat, target);
  }

  lemma {:induction false} PaidBalances(v: View, a: PlayerAction, target: Chips)
    requires PotBalanced(v) && Ordered(v.round) && target > SeatBet(v, a.seatId)
    requires !PotOverflows(v, a.seatId, target - SeatBet(v, a.seatId))
    ensures PotBalanced(BetPaid(v, a, target)) && Ordered(BetPaid(v, a, target).round)
    ensures BetsBacked(v) ==> BetsBacked(BetPaid(v, a, target))
  {
    var delta := target - SeatBet(v, a.seatId);
    var paid: Chips := Contributed(v, a.seatId) + delta;
    TotalUpdate(v.pot.contributions, a.seatId, paid);
    GetUpdate(v.pot.contributions, a.seatId, paid);
    GetUpdate(v.round.playerBets, a.seatId, target);
    BetPlacedOrdered(v, a.seatId, target);
  }

  /** While the pot is balanced a single contribution overflows only if the pot itself does. */
  lemma {:induction false} PotOverflowsFirst(v: View, seat: SeatId, delta: Chips)
    requires PotBalanced(v)
    ensures PotOverflows(v, seat, delta) <==> v.pot.mainPot + delta > U128_MAX
  {
    GetAtMostSum(v.pot.contributions, seat, SEAT_LIMIT);
  }

  lemma {:induction false} PlaceBetChips(v: View, a: PlayerAction, target: Chips)
    requires ChipsInv(v) && target > SeatBet(v, a.seatId)
    ensures ChipsInv(PlaceBet(v, a, target).0)
    ensures BetsBacked(v) ==>
              (BetsBacked(PlaceBet(v, a, target).0) <==>
               (PlaceBet(v, a, target).1.Rejected? ==> target <= Contributed(v, a.seatId)))
  {
    var delta := target - SeatBet(v, a.seatId);
    PotOverflowsFirst(v, a.seatId, delta);
    if PotOverflows(v, a.seatId, delta) {
      BetPlacedOrdered(v, a.seatId, target);
      GetUpdate(v.round.playerBets, a.seatId, target);
      assert Get(v.round.playerBets[a.seatId := target], a.seatId) == target;
    } else {
      PaidBalances(v, a, target);
      FinishChips(BetPaid(v, a, target), a.seatId, target > v.round.currentBet);
    }
  }

  /** Any action whatsoever, accepted, refused or overflowing, keeps the chip invariant. */
  lemma {:induction false} ApplyChips(v: View, a: PlayerAction)
    requires ChipsInv(v)
    ensures ChipsInv(Apply(v, a).0)
    ensures BetsBacked(v) && Apply(v, a).1 != Rejected(MoneyFault(Overflow)) ==> BetsBacked(Apply(v, a).0)
  {
    if a.actionSeq == v.snapshot.nextActionSeq && v.snapshot.actingSeatId == Some(a.seatId) {
      match Rule(v, a)
      case Refused =>
      case Folds => FinishChips(WithFold(v, a.seatId), a.seatId, false);
      case Checks => FinishChips(v, a.seatId, false);
      case BetsTo(target) => PlaceBetChips(v, a, target);
    }
  }

  // ----- dealing -----

  /** The blinds alone make one main pot and no side pot. */
  lemma {:induction false} BlindsHaveNoSidePot(sb: SeatId, bb: SeatId, folded: set<SeatId>)
    requires sb != bb
    ensures SidePots(map[sb := SMALL_BLIND, bb := BIG_BLIND], folded) == []
  {
    var m: ChipMap := map[sb := SMALL_BLIND, bb := BIG_BLIND];
    assert Above(m, 0) == {sb, bb};
    var low := NextLevelSpec(m, 0);
    assert sb in Above(m, 0);
    assert NextLevel(m, 0) == SMALL_BLIND;
    assert Above(m, SMALL_BLIND) == {bb};
    assert LayersAbove(m, folded, SMALL_BLIND) == [];
    AboveShrinks(m, 0);
    assert Layers(m, folded) == [LayerAt(m, folded, 0)];
    assert SidePotsOf(Layers(m, folded)[1..]) == [];
  }

  lemma {:induction false} BlindsTotal(sb: SeatId, bb: SeatId)
    requires sb != bb
    ensures Total(map[sb := SMALL_BLIND, bb := BIG_BLIND]) == SMALL_BLIND + BIG_BLIND
  {
    var none: ChipMap := map[];
    SumOfEmpty(SEAT_LIMIT);
    TotalUpdate(none, sb, SMALL_BLIND);
    TotalUpdate(none[sb := SMALL_BLIND], bb, BIG_BLIND);
    assert none[sb := SMALL_BLIND][bb := BIG_BLIND] == map[sb := SMALL_BLIND, bb := BIG_BLIND];
  }

  /** A deal restores the invariant from any state, and either happens in full or not at all. */
  lemma {:induction false} DealtChips(v: View, deck: seq<Card>, handId: nat)
    requires CheckDeal(v, deck).None?
    ensures ChipsInv(Dealt(v, deck, handId)) && BetsBacked(Dealt(v, deck, handId))
  {
    var order := Sorted(v.hand.seated);
    SortedSpec(v.hand.seated);
    var d := DealerIndex(NextHandNo(v.snapshot), |order|);
    BlindsDiffer(d, order);
    var (sb, bb, _) := BlindsFrom(d, order);
    BlindsTotal(sb, bb);
    BlindsHaveNoSidePot(sb, bb, v.hand.folded);
  }

  // ----- every run -----

  lemma {:induction false} NextChips(v: View, e: Event)
    requires ChipsInv(v)
    ensures ChipsInv(Next(v, e))
    ensures BetsBacked(v) && !Overflows(v, e) ==> BetsBacked(Next(v, e))
  {
    match e
    case SeatJoins(seat) =>
    case HandDealt(deck, handId) =>
      if CheckDeal(v, deck).None? {
        DealtChips(v, deck, handId);
      }
    case Acts(a) => ApplyChips(v, a);
  }

  lemma {:induction false} OpenedChips(roomId: nat, handId: nat, handNo: U64)
    ensures ChipsInv(Opened(roomId, handId, handNo)) && BetsBacked(Opened(roomId, handId, handNo))
  {
    var none: ChipMap := map[];
    SumOfEmpty(SEAT_LIMIT);
    assert Above(none, 0) == {};
  }

  /** From an opened room, through every sequence of joins, deals and actions, accepted, refused or
      overflowing: the pot is what was paid in, bets stay ordered and the stored side pots are
      current. Short of an overflow every street bet is also backed by a payment. */
  lemma {:induction false} ChipsOverEveryRun(roomId: nat, handId: nat, handNo: U64, events: seq<Event>)
    ensures ChipsInv(Run(Opened(roomId, handId, handNo), events))
    ensures NoOverflow(Opened(roomId, handId, handNo), events) ==>
              BetsBacked(Run(Opened(roomId, handId, handNo), events))
  {
    if events == [] {
      OpenedChips(roomId, handId, handNo);
    } else {
      var init := events[..|events| - 1];
      ChipsOverEveryRun(roomId, handId, handNo, init);
      NextChips(Run(Opened(roomId, handId, handNo), init), events[|events| - 1]);
    }
  }

  // ----- what a refusal leaves behind -----

  /** In a balanced state, exactly the in-turn bets that push the pot past 128 bits overflow. */
  predicate WouldOverflow(v: View, a: PlayerAction)
  {
    && a.actionSeq == v.snapshot.nextActionSeq
    && v.snapshot.actingSeatId == Some(a.seatId)
    && Rule(v, a).BetsTo?
    && v.pot.mainPot + (Rule(v, a).target - SeatBet(v, a.seatId)) > U128_MAX
  }

  /** A refused action leaves the state as it was if and only if it was not an overflow. */
  lemma {:induction false} RefusalKeepsState(v: View, a: PlayerAction)
    requires ChipsInv(v) && Apply(v, a).1.Rejected?
    ensures Apply(v, a).0 == v <==> !WouldOverflow(v, a)
    ensures Apply(v, a).1.error.MoneyFault? <==> WouldOverflow(v, a)
  {
    if a.actionSeq == v.snapshot.nextActionSeq && v.snapshot.actingSeatId == Some(a.seatId) && Rule(v, a).BetsTo? {
      var target := Rule(v, a).target;
      PotOverflowsFirst(v, a.seatId, target - SeatBet(v, a.seatId));
      GetUpdate(v.round.playerBets, a.seatId, target);
      assert Get(BetPlaced(v, a.seatId, target).round.playerBets, a.seatId) == target;
    }
  }

  lemma {:induction false} TurnLeavesPot(x: View, seat: SeatId)
    ensures AdvanceTurn(x, seat).0.pot == x.pot
  {
  }

  /** After a bet refused for overflow the same seat may check if and only if the bet would have matched
      or raised; the check costs it nothing, whatever it still owed. */
  lemma {:induction false} FreeCheckIff(v: View, a: PlayerAction, check: PlayerAction)
    requires ChipsInv(v) && WouldOverflow(v, a) && check == PlayerAction(a.actionSeq, a.seatId, Check, None)
    ensures var w := Apply(v, a).0;
            && (Apply(w, check).1.Accepted? <==> Rule(v, a).target >= v.round.currentBet)
            && (Apply(w, check).1.Accepted? ==> Apply(w, check).0.pot.contributions == v.pot.contributions)
  {
    var target := Rule(v, a).target;
    PotOverflowsFirst(v, a.seatId, target - SeatBet(v, a.seatId));
    var w := BetHalfDone(v, a.seatId, target);
    assert SeatBet(w, a.seatId) == target;
    TurnLeavesPot(Recorded(w, a.seatId, false), a.seatId);
  }
}
