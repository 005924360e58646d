/** A hand of four that comes to showdown with a layer nobody left can win. */
module EngineStuck {
  import opened Money
  import opened Seats
  import opened EngineModel
  import opened EngineMoney
  import opened EngineTurns
  import opened EngineAllIns
  import opened EngineFindings

  function TableOfFour(): (v: View)
  {
    Seat(TableOfThree(), 3)
  }

  /** Who has folded, is all-in or has acted, the bet to match, the street bets and what everybody paid. */
  datatype Standing = Standing(street: Street, seqNo: U32, folded: set<SeatId>, allIn: set<SeatId>,
                               acted: set<SeatId>, bet: Chips, bets: ChipMap, paid: ChipMap)

  /** The first hand of four stands like that. */
  ghost predicate Stands4(v: View, st: Standing)
  {
    && v.snapshot.handNo == 1 && v.snapshot.status == Running && v.hand.seated == {0, 1, 2, 3}
    && v.hand.folded == st.folded && v.hand.allIn == st.allIn
    && v.snapshot.street == st.street && v.snapshot.nextActionSeq == st.seqNo
    && v.round.acted == st.acted && v.round.currentBet == st.bet && v.round.playerBets == st.bets
    && v.pot.contributions == st.paid
  }

  /** And nothing is amiss, and `actor` is to act. */
  ghost predicate FourAt(v: View, actor: SeatId, st: Standing)
  {
    Stands4(v, st) && ChipsInv(v) && SeatedOnly(v) && v.snapshot.actingSeatId == Some(actor)
  }

  /** The standing after a bet to `target`. */
  function Betting(st: Standing, a: PlayerAction, target: Chips): (r: Standing)
    requires Get(st.paid, a.seatId) + target <= U128_MAX && Get(st.bets, a.seatId) <= target
  {
    var all := if a.actionType == AllIn then st.allIn + {a.seatId} else st.allIn;
    st.(seqNo := Increment(st.seqNo), allIn := all,
        acted := (if target > st.bet then all else st.acted) + {a.seatId},
        bet := if target > st.bet then target else st.bet,
        bets := st.bets[a.seatId := target],
        paid := st.paid[a.seatId := Get(st.paid, a.seatId) + (target - Get(st.bets, a.seatId))])
  }

  lemma {:induction false} OrderOfFour(seats: set<SeatId>)
    requires seats == {0, 1, 2, 3}
    ensures Sorted(seats) == [0, 1, 2, 3]
  {
    assert Members([0, 1, 2, 3]) == seats;
    InOrder(seats, [0, 1, 2, 3]);
  }

  function LeftNeighbour(seat: SeatId): (next: SeatId)
  {
    if seat >= 3 then 0 else seat + 1
  }

  lemma {:induction false} LeftIsNext(order: seq<SeatId>, seat: SeatId, wanted: set<SeatId>)
    requires order == [0, 1, 2, 3] && seat < 4 && LeftNeighbour(seat) in wanted
    ensures Position(order, seat) == Some(seat) && FirstWanted(order, seat, 1, wanted) == Some(LeftNeighbour(seat))
  {
    PositionFound(order, seat, 0);
    AtIsModular(order, seat, 1);
  }

  /** The turn passes to the left neighbour if that one can act and has not. */
  lemma {:induction false} PassesLeft(x: View, seat: SeatId)
    requires x.hand.seated == {0, 1, 2, 3} && seat < 4 && |Unfolded(x)| >= 2
    requires LeftNeighbour(seat) in Actionable(x) && LeftNeighbour(seat) !in x.round.acted
    ensures AdvanceTurn(x, seat) == (WithActor(x, Some(LeftNeighbour(seat))), None)
  {
    var order := Sorted(x.hand.seated);
    OrderOfFour(x.hand.seated);
    assert LeftNeighbour(seat) in Unfolded(x);
    LeftIsNext(order, seat, Actionable(x));
  }

  /** A completed round opens the next street with seat 1 to act. */
  lemma {:induction false} OpensAtOne(x: View, seat: SeatId, next: Street)
    requires x.hand.seated == {0, 1, 2, 3} && x.snapshot.handNo == 1 && 1 in Unfolded(x) && |Unfolded(x)| >= 2
    requires RoundComplete(x) && NextStreet(x.snapshot.street) == Some(next)
    ensures AdvanceTurn(x, seat).0
         == WithActor(ClearedRound(Revealing(WithStreet(x, next), RevealCount(next))), Some(1))
  {
    var order := Sorted(x.hand.seated);
    OrderOfFour(x.hand.seated);
    AtIsModular(order, 0, 1);
    assert DealerIndex(1, |order|) == 0;
    assert FirstWanted(order, 0, 1, Unfolded(x)) == Some(1);
  }

  lemma {:induction false} AtLeastTwo(s: set<SeatId>, a: SeatId, b: SeatId)
    requires a in s && b in s && a != b
    ensures |s| >= 2
  {
    assert |s - {a}| == |s| - 1;
    assert b in s - {a};
  }

  /** The action is a bet to `target`, as things stand. */
  predicate Wants(v: View, st: Standing, a: PlayerAction, target: Chips)
  {
    && a.actionSeq == st.seqNo && Get(st.bets, a.seatId) < target <= 5 * BIG_BLIND
    && Get(st.paid, a.seatId) <= 30 * BIG_BLIND && v.pot.mainPot <= 30 * BIG_BLIND
    && match a.actionType
       case Call => target == st.bet
       case AllIn => a.amount == Some(target)
       case RaiseTo => a.amount == Some(target) && target > st.bet && v.round.minRaiseTo == None
       case _ => false
  }

  lemma {:induction false} BetTaken(v: View, a: PlayerAction, target: Chips, st: Standing)
    requires Stands4(v, st) && v.snapshot.actingSeatId == Some(a.seatId) && Wants(v, st, a, target)
    ensures Rule(v, a) == BetsTo(target) && !PotOverflows(v, a.seatId, target - SeatBet(v, a.seatId))
    ensures Apply(v, a) == Finish(BetPaid(v, a, target), a.seatId, target > v.round.currentBet)
    ensures AfterAction(v, a) == Recorded(BetPaid(v, a, target), a.seatId, target > v.round.currentBet)
  {
  }

  lemma {:induction false} BetRecordedStands(v: View, a: PlayerAction, target: Chips, st: Standing, x: View)
    requires Stands4(v, st) && Wants(v, st, a, target)
    requires !PotOverflows(v, a.seatId, target - SeatBet(v, a.seatId))
    requires x == Recorded(BetPaid(v, a, target), a.seatId, target > v.round.currentBet)
    ensures Stands4(x, Betting(st, a, target))
    ensures x.pot.mainPot == v.pot.mainPot + (target - Get(st.bets, a.seatId))
  {
  }

  lemma {:induction false} BetStands(v: View, a: PlayerAction, target: Chips, st: Standing)
    requires Stands4(v, st) && v.snapshot.actingSeatId == Some(a.seatId) && Wants(v, st, a, target)
    ensures Apply(v, a).1.Accepted? && Stands4(AfterAction(v, a), Betting(st, a, target))
    ensures AfterAction(v, a).pot.mainPot == v.pot.mainPot + (target - Get(st.bets, a.seatId))
    ensures Apply(v, a).0 == AdvanceTurn(AfterAction(v, a), a.seatId).0
  {
    BetTaken(v, a, target, st);
    BetRecordedStands(v, a, target, st, AfterAction(v, a));
  }

  /** A bet after which the turn passes left. */
  lemma {:induction false} FourBets(v: View, a: PlayerAction, target: Chips, st: Standing)
    requires FourAt(v, a.seatId, st) && a.seatId < 4 && st.folded == {} && Wants(v, st, a, target)
    requires LeftNeighbour(a.seatId) !in Betting(st, a, target).allIn + Betting(st, a, target).acted
    ensures Apply(v, a).1.Accepted? && FourAt(Apply(v, a).0, LeftNeighbour(a.seatId), Betting(st, a, target))
    ensures Apply(v, a).0.pot.mainPot == v.pot.mainPot + (target - Get(st.bets, a.seatId))
  {
    BetStands(v, a, target, st);
    var x := AfterAction(v, a);
    assert Unfolded(x) == {0, 1, 2, 3};
    assert LeftNeighbour(a.seatId) in Actionable(x);
    AtLeastTwo(Unfolded(x), 0, 1);
    PassesLeft(x, a.seatId);
    ApplyChips(v, a);
    ActionSeatedOnly(v, a);
  }

  /** The standing at the start of a street. */
  function Fresh(st: Standing, next: Street): (r: Standing)
  {
    st.(street := next, acted := {}, bet := 0, bets := map[])
  }

  /** A call that completes the round and opens the next street. */
  lemma {:induction false} FourCloses(v: View, a: PlayerAction, next: Street, st: Standing)
    requires FourAt(v, a.seatId, st) && a.seatId < 4
    requires st.folded == {} && Wants(v, st, a, st.bet) && a.actionType == Call
    requires NextStreet(st.street) == Some(next) && st.acted + {a.seatId} == {0, 1, 2, 3}
    requires forall s: SeatId :: s < 4 && s != a.seatId && s !in st.allIn ==> Get(st.bets, s) == st.bet
    ensures Apply(v, a).1.Accepted? && Apply(v, a).0.round.minRaiseTo == None
    ensures FourAt(Apply(v, a).0, 1, Fresh(Betting(st, a, st.bet), next))
    ensures Apply(v, a).0.pot.mainPot == v.pot.mainPot + (st.bet - Get(st.bets, a.seatId))
  {
    BetStands(v, a, st.bet, st);
    var x := AfterAction(v, a);
    RoundDone(x, a, st);
    OpensAtOne(x, a.seatId, next);
    ApplyChips(v, a);
    ActionSeatedOnly(v, a);
  }

  lemma {:induction false} RoundDone(x: View, a: PlayerAction, st: Standing)
    requires st.folded == {} && a.actionType == Call && Get(st.bets, a.seatId) < st.bet
    requires Get(st.paid, a.seatId) + st.bet <= U128_MAX && Stands4(x, Betting(st, a, st.bet))
    requires st.acted + {a.seatId} == {0, 1, 2, 3}
    requires forall s: SeatId :: s < 4 && s != a.seatId && s !in st.allIn ==> Get(st.bets, s) == st.bet
    ensures RoundComplete(x) && |Unfolded(x)| >= 2 && 1 in Unfolded(x)
  {
    GetUpdate(st.bets, a.seatId, st.bet);
    assert Unfolded(x) == {0, 1, 2, 3};
    AtLeastTwo(Unfolded(x), 0, 1);
  }

  function AtTheDeal(): (st: Standing)
  {
    var blinds: ChipMap := map[1 := SMALL_BLIND, 2 := BIG_BLIND];
    Standing(Preflop, 1, {}, {}, {}, BIG_BLIND, blinds, blinds)
  }

  lemma {:induction false} DealtToFour(deck: seq<Card>, v: View)
    requires CheckDeal(TableOfFour(), deck).None? && v == Dealt(TableOfFour(), deck, 1)
    ensures FourAt(v, 3, AtTheDeal())
    ensures v.pot.mainPot == SMALL_BLIND + BIG_BLIND
  {
    assert TableOfFour().hand.seated == {0, 1, 2, 3};
    OrderOfFour(TableOfFour().hand.seated);
    BlindsOfFour([0, 1, 2, 3]);
    DealtChips(TableOfFour(), deck, 1);
    DealSeatedOnly(TableOfFour(), deck, 1);
  }

  lemma {:induction false} BlindsOfFour(order: seq<SeatId>)
    requires order == [0, 1, 2, 3]
    ensures Blinds(1, order) == (1, 2, 3)
  {
  }

  // ----- the hand -----

  function OneAllIn(): (st: Standing)
  {
    Standing(Preflop, 2, {}, {3}, {3}, STAKE, map[1 := SMALL_BLIND, 2 := BIG_BLIND, 3 := STAKE],
             map[1 := SMALL_BLIND, 2 := BIG_BLIND, 3 := STAKE])
  }

  function BothAllIn(): (st: Standing)
  {
    Standing(Preflop, 3, {}, {0, 3}, {0, 3}, STAKE, map[0 := STAKE, 1 := SMALL_BLIND, 2 := BIG_BLIND, 3 := STAKE],
             map[0 := STAKE, 1 := SMALL_BLIND, 2 := BIG_BLIND, 3 := STAKE])
  }

  function OneCalled(): (st: Standing)
  {
    Standing(Preflop, 4, {}, {0, 3}, {0, 1, 3}, STAKE, map[0 := STAKE, 1 := STAKE, 2 := BIG_BLIND, 3 := STAKE],
             map[0 := STAKE, 1 := STAKE, 2 := BIG_BLIND, 3 := STAKE])
  }

  function OnFlop(): (st: Standing)
  {
    Standing(Flop, 5, {}, {0, 3}, {}, 0, map[], map[0 := STAKE, 1 := STAKE, 2 := STAKE, 3 := STAKE])
  }

  function FlopRaised(): (st: Standing)
  {
    Standing(Flop, 6, {}, {0, 3}, {0, 1, 3}, STAKE, map[1 := STAKE],
             map[0 := STAKE, 1 := 2 * STAKE, 2 := STAKE, 3 := STAKE])
  }

  function OnTurn(): (st: Standing)
  {
    Standing(Turn, 7, {}, {0, 3}, {}, 0, map[], map[0 := STAKE, 1 := 2 * STAKE, 2 := 2 * STAKE, 3 := STAKE])
  }

  lemma {:induction false} BeforeTheFlop()
    ensures Betting(AtTheDeal(), PlayerAction(1, 3, AllIn, Some(STAKE)), STAKE) == OneAllIn()
    ensures Betting(OneAllIn(), PlayerAction(2, 0, AllIn, Some(STAKE)), STAKE) == BothAllIn()
  {
  }

  lemma {:induction false} CallingAllIns()
    ensures Betting(BothAllIn(), PlayerAction(3, 1, Call, None), STAKE) == OneCalled()
    ensures Fresh(Betting(OneCalled(), PlayerAction(4, 2, Call, None), STAKE), Flop) == OnFlop()
  {
  }

  lemma {:induction false} OnTheFlop()
    ensures Betting(OnFlop(), PlayerAction(5, 1, RaiseTo, Some(STAKE)), STAKE) == FlopRaised()
    ensures Fresh(Betting(FlopRaised(), PlayerAction(6, 2, Call, None), STAKE), Turn) == OnTurn()
  {
  }

  lemma {:induction false} FirstIn(v: View, a: PlayerAction)
    requires FourAt(v, 3, AtTheDeal()) && v.pot.mainPot == SMALL_BLIND + BIG_BLIND
    requires a == PlayerAction(1, 3, AllIn, Some(STAKE))
    ensures Apply(v, a).1.Accepted? && FourAt(Apply(v, a).0, 0, OneAllIn())
    ensures Apply(v, a).0.pot.mainPot == STAKE + SMALL_BLIND + BIG_BLIND
  {
    BeforeTheFlop();
    FourBets(v, a, STAKE, AtTheDeal());
  }

  lemma {:induction false} SecondIn(v: View, a: PlayerAction)
    requires FourAt(v, 0, OneAllIn()) && v.pot.mainPot == STAKE + SMALL_BLIND + BIG_BLIND
    requires a == PlayerAction(2, 0, AllIn, Some(STAKE))
    ensures Apply(v, a).1.Accepted? && FourAt(Apply(v, a).0, 1, BothAllIn())
    ensures Apply(v, a).0.pot.mainPot == 2 * STAKE + SMALL_BLIND + BIG_BLIND
  {
    BeforeTheFlop();
    FourBets(v, a, STAKE, OneAllIn());
  }

  lemma {:induction false} FirstCall(v: View, a: PlayerAction)
    requires FourAt(v, 1, BothAllIn()) && v.pot.mainPot == 2 * STAKE + SMALL_BLIND + BIG_BLIND
    requires a == PlayerAction(3, 1, Call, None)
    ensures Apply(v, a).1.Accepted? && FourAt(Apply(v, a).0, 2, OneCalled())
    ensures Apply(v, a).0.pot.mainPot == 3 * STAKE + BIG_BLIND
  {
    CallingAllIns();
    FourBets(v, a, STAKE, BothAllIn());
  }

  lemma {:induction false} SecondCall(v: View, a: PlayerAction)
    requires FourAt(v, 2, OneCalled()) && v.pot.mainPot == 3 * STAKE + BIG_BLIND
    requires a == PlayerAction(4, 2, Call, None)
    ensures Apply(v, a).1.Accepted? && FourAt(Apply(v, a).0, 1, OnFlop())
    ensures Apply(v, a).0.pot.mainPot == 4 * STAKE && Apply(v, a).0.round.minRaiseTo == None
  {
    CallingAllIns();
    FourCloses(v, a, Flop, OneCalled());
  }

  lemma {:induction false} FlopRaise(v: View, a: PlayerAction)
    requires FourAt(v, 1, OnFlop()) && v.pot.mainPot == 4 * STAKE && v.round.minRaiseTo == None
    requires a == PlayerAction(5, 1, RaiseTo, Some(STAKE))
    ensures Apply(v, a).1.Accepted? && FourAt(Apply(v, a).0, 2, FlopRaised())
    ensures Apply(v, a).0.pot.mainPot == 5 * STAKE
  {
    OnTheFlop();
    FourBets(v, a, STAKE, OnFlop());
  }

  lemma {:induction false} FlopCall(v: View, a: PlayerAction)
    requires FourAt(v, 2, FlopRaised()) && v.pot.mainPot == 5 * STAKE && a == PlayerAction(6, 2, Call, None)
    ensures Apply(v, a).1.Accepted? && FourAt(Apply(v, a).0, 1, OnTurn())
  {
    OnTheFlop();
    FourCloses(v, a, Turn, FlopRaised());
  }

  lemma {:induction false} TwoActions(v: View, a: PlayerAction, b: PlayerAction)
    requires Apply(v, a).1.Accepted? && Apply(Apply(v, a).0, b).1.Accepted?
    ensures AllAccepted(v, [a, b]) && Play(v, [a, b]) == Apply(Apply(v, a).0, b).0
  {
    PlayFirst(Apply(v, a).0, b, []);
    assert [b] + [] == [b];
    PlayFirst(v, a, [b]);
    assert [a] + [b] == [a, b];
  }

  // Seats 3 and 0 go all-in for five big blinds and the others call. On the flop seat 1 bets five more and seat
  // 2 calls. On the turn both fold.

  function AllIns(): (actions: seq<PlayerAction>)
  {
    [PlayerAction(1, 3, AllIn, Some(STAKE)), PlayerAction(2, 0, AllIn, Some(STAKE))]
  }

  function Calls(): (actions: seq<PlayerAction>)
  {
    [PlayerAction(3, 1, Call, None), PlayerAction(4, 2, Call, None)]
  }

  function FlopBets(): (actions: seq<PlayerAction>)
  {
    [PlayerAction(5, 1, RaiseTo, Some(STAKE)), PlayerAction(6, 2, Call, None)]
  }

  function TurnFolds(): (actions: seq<PlayerAction>)
  {
    [PlayerAction(7, 1, Fold, None), PlayerAction(8, 2, Fold, None)]
  }

  lemma {:induction false} AllInsPlayed(v: View, w: View)
    requires FourAt(v, 3, AtTheDeal()) && v.pot.mainPot == SMALL_BLIND + BIG_BLIND && w == Play(v, AllIns())
    ensures AllAccepted(v, AllIns())
    ensures FourAt(w, 1, BothAllIn()) && w.pot.mainPot == 2 * STAKE + SMALL_BLIND + BIG_BLIND
  {
    var a, b := PlayerAction(1, 3, AllIn, Some(STAKE)), PlayerAction(2, 0, AllIn, Some(STAKE));
    FirstIn(v, a);
    SecondIn(Apply(v, a).0, b);
    TwoActions(v, a, b);
  }

  lemma {:induction false} CallsPlayed(v: View, w: View)
    requires FourAt(v, 1, BothAllIn()) && v.pot.mainPot == 2 * STAKE + SMALL_BLIND + BIG_BLIND && w == Play(v, Calls())
    ensures AllAccepted(v, Calls())
    ensures FourAt(w, 1, OnFlop()) && w.pot.mainPot == 4 * STAKE && w.round.minRaiseTo == None
  {
    var a, b := PlayerAction(3, 1, Call, None), PlayerAction(4, 2, Call, None);
    FirstCall(v, a);
    SecondCall(Apply(v, a).0, b);
    TwoActions(v, a, b);
  }

  lemma {:induction false} FlopPlayed(v: View, w: View)
    requires FourAt(v, 1, OnFlop()) && v.pot.mainPot == 4 * STAKE
    requires v.round.minRaiseTo == None && w == Play(v, FlopBets())
    ensures AllAccepted(v, FlopBets()) && FourAt(w, 1, OnTurn())
  {
    var a, b := PlayerAction(5, 1, RaiseTo, Some(STAKE)), PlayerAction(6, 2, Call, None);
    FlopRaise(v, a);
    FlopCall(Apply(v, a).0, b);
    TwoActions(v, a, b);
  }

  lemma {:induction false} TurnPlayed(v: View, w: View)
    requires FourAt(v, 1, OnTurn()) && w == Play(v, TurnFolds())
    ensures AllAccepted(v, TurnFolds()) && ChipsInv(w) && SeatedOnly(w) && w.snapshot.status == Showdown
    ensures w.hand.folded == {1, 2} && Unfolded(w) == {0, 3} && w.pot.contributions == OnTurn().paid
  {
    var a, b := PlayerAction(7, 1, Fold, None), PlayerAction(8, 2, Fold, None);
    FirstFold(v, a);
    var u := Apply(v, a).0;
    SecondFold(u, b);
    ApplyChips(v, a);
    ActionSeatedOnly(v, a);
    ApplyChips(u, b);
    ActionSeatedOnly(u, b);
    TwoActions(v, a, b);
  }

  lemma {:induction false} FirstFold(v: View, a: PlayerAction)
    requires FourAt(v, 1, OnTurn()) && a == PlayerAction(7, 1, Fold, None)
    ensures Apply(v, a).1.Accepted?
    ensures var w := Apply(v, a).0;
            && w.hand.seated == {0, 1, 2, 3} && w.hand.folded == {1} && w.hand.allIn == {0, 3} && w.round.acted == {1}
            && w.snapshot.actingSeatId == Some(2) && w.snapshot.nextActionSeq == 8
            && w.pot.contributions == OnTurn().paid
  {
    var x := Recorded(WithFold(v, 1), 1, false);
    assert Unfolded(x) == {0, 2, 3};
    AtLeastTwo(Unfolded(x), 0, 2);
    PassesLeft(x, 1);
  }

  lemma {:induction false} SecondFold(v: View, a: PlayerAction)
    requires v.hand.seated == {0, 1, 2, 3} && v.hand.folded == {1} && v.hand.allIn == {0, 3} && v.round.acted == {1}
    requires v.snapshot.actingSeatId == Some(2) && v.snapshot.nextActionSeq == 8 && v.pot.contributions == OnTurn().paid
    requires a == PlayerAction(8, 2, Fold, None)
    ensures Apply(v, a).1.Accepted?
    ensures var w := Apply(v, a).0;
            && w.snapshot.status == Showdown && w.hand.folded == {1, 2} && Unfolded(w) == {0, 3}
            && w.pot.contributions == OnTurn().paid
  {
    var x := Recorded(WithFold(v, 2), 2, false);
    assert Unfolded(x) == {0, 3} && Actionable(x) == {};
    AtLeastTwo(Unfolded(x), 0, 3);
    assert 0 in Unfolded(x) && 0 !in x.round.acted;
  }

  function StuckHand(v: View): (w: View)
  {
    Play(Play(Play(Play(v, AllIns()), Calls()), FlopBets()), TurnFolds())
  }

  /** The hand comes to showdown between the two who are all-in for five big blinds, with a second layer that
      only the two who folded have paid for. */
  lemma {:induction false} StuckAtShowdown(deck: seq<Card>, v: View, w: View)
    requires CheckDeal(TableOfFour(), deck).None? && v == Dealt(TableOfFour(), deck, 1) && w == StuckHand(v)
    ensures AllAccepted(v, AllIns()) && AllAccepted(Play(v, AllIns()), Calls())
    ensures var flop := Play(Play(v, AllIns()), Calls());
            AllAccepted(flop, FlopBets()) && AllAccepted(Play(flop, FlopBets()), TurnFolds())
    ensures ChipsInv(w) && SeatedOnly(w) && w.snapshot.status == Showdown && Unfolded(w) == {0, 3}
    ensures w.hand.folded == {1, 2}
    ensures w.pot.contributions == map[0 := STAKE, 1 := 2 * STAKE, 2 := 2 * STAKE, 3 := STAKE]
  {
    DealtToFour(deck, v);
    var v1 := Play(v, AllIns());
    AllInsPlayed(v, v1);
    var v2 := Play(v1, Calls());
    CallsPlayed(v1, v2);
    var v3 := Play(v2, FlopBets());
    FlopPlayed(v2, v3);
    TurnPlayed(v3, w);
  }
}
