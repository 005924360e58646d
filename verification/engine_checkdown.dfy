/** Every hand can be played to a showdown: the statements about showdowns are about something. */
module EngineCheckDown {
  import opened Money
  import opened Seats
  import opened EngineModel
  import opened EngineMoney
  import opened EngineTurns

  /** Call what is to be called, check otherwise. */
  function PassiveMove(v: View, seat: SeatId): (a: PlayerAction)
  {
    PlayerAction(v.snapshot.nextActionSeq, seat, if SeatBet(v, seat) < v.round.currentBet then Call else Check, None)
  }

  lemma {:induction false} TotalAtMost(m: ChipMap, cap: nat, n: nat)
    requires n <= SEAT_LIMIT && forall s: SeatId :: Get(m, s) <= cap
    ensures SumBelow(m, n) <= n * cap
  {
    if n > 0 {
      TotalAtMost(m, cap, n - 1);
      assert n * cap == (n - 1) * cap + cap;
    }
  }

  /** As long as the stake of every seat fits 128 bits, so does a call. */
  lemma {:induction false} CallFits(v: View, base: nat, i: nat, seat: SeatId)
    requires ChipsInv(v) && InPlay(v, base, i) && v.snapshot.actingSeatId == Some(seat)
    requires SeatBet(v, seat) < v.round.currentBet && SEAT_LIMIT * (base + v.round.currentBet) <= U128_MAX
    ensures !PotOverflows(v, seat, v.round.currentBet - SeatBet(v, seat))
  {
    var stake: Chips := base + v.round.currentBet;
    assert Contributed(v, seat) == base + SeatBet(v, seat);
    PotOverflowsFirst(v, seat, v.round.currentBet - SeatBet(v, seat));
    TotalUpdate(v.pot.contributions, seat, stake);
    GetUpdate(v.pot.contributions, seat, stake);
    TotalAtMost(v.pot.contributions[seat := stake], stake, SEAT_LIMIT);
  }

  lemma {:induction false} PassiveAccepted(v: View, base: nat, i: nat, seat: SeatId)
    requires ChipsInv(v) && InPlay(v, base, i) && v.snapshot.actingSeatId == Some(seat)
    requires SEAT_LIMIT * (base + v.round.currentBet) <= U128_MAX
    ensures Apply(v, PassiveMove(v, seat)).1.Accepted?
  {
    if SeatBet(v, seat) < v.round.currentBet {
      CallFits(v, base, i, seat);
    }
  }

  /** While the hand runs on, the turn logic keeps the bets or clears them for a new street. */
  lemma {:induction false} TurnKeepsOrClears(x: View, seat: SeatId)
    ensures var r := AdvanceTurn(x, seat).0;
            && Unfolded(r) == Unfolded(x) && r.pot == x.pot
            && (|Unfolded(x)| > 1 && x.snapshot.status == Running ==> r.snapshot.status != Settled)
            && (r.snapshot.status == Running ==>
                  || (r.round.currentBet == x.round.currentBet && r.round.playerBets == x.round.playerBets)
                  || (r.round.currentBet == 0 && r.round.playerBets == map[]))
  {
  }

  /** A call or check leaves its seat level with the bet, folds nobody and settles nothing. */
  lemma {:induction false} PassiveLevels(v: View, base: nat, i: nat, seat: SeatId)
    requires ChipsInv(v) && InPlay(v, base, i) && v.snapshot.actingSeatId == Some(seat)
    requires Apply(v, PassiveMove(v, seat)).1.Accepted?
    ensures var w := Apply(v, PassiveMove(v, seat)).0;
            && Unfolded(w) == Unfolded(v) && w.snapshot.status != Settled
            && Contributed(w, seat) == base + v.round.currentBet
            && (w.snapshot.status == Running ==> SeatBet(w, seat) == w.round.currentBet)
  {
    var a := PassiveMove(v, seat);
    assert Contributed(v, seat) == base + SeatBet(v, seat);
    assert SeatBet(v, seat) <= v.round.currentBet;
    if SeatBet(v, seat) < v.round.currentBet {
      TurnKeepsOrClears(Recorded(BetPaid(v, a, v.round.currentBet), seat, false), seat);
    } else {
      TurnKeepsOrClears(Recorded(v, seat, false), seat);
    }
  }

  /** One call or check: the stake stays the same, and the hand goes on or comes to showdown. */
  lemma {:induction false} PassiveGoesOn(v: View, base: nat, i: nat, a: PlayerAction) returns (next: nat, j: nat)
    requires ChipsInv(v) && InPlay(v, base, i) && SEAT_LIMIT * (base + v.round.currentBet) <= U128_MAX
    requires a == PassiveMove(v, v.snapshot.actingSeatId.value)
    ensures Apply(v, a).1.Accepted?
    ensures var w := Apply(v, a).0;
            && ChipsInv(w) && Stands(w, next, j) && w.snapshot.status in {Running, Showdown}
            && (w.snapshot.status == Running ==>
                  Rank(w) < Rank(v) && next + w.round.currentBet == base + v.round.currentBet)
  {
    PassiveAccepted(v, base, i, a.seatId);
    next, j := StepInPlay(v, base, i, a);
    ApplyChips(v, a);
    PassiveLevels(v, base, i, a.seatId);
    var w := Apply(v, a).0;
    if w.snapshot.status == Running {
      assert Contributed(w, a.seatId) == next + SeatBet(w, a.seatId);
    }
  }

  /** The actions lead to a showdown, each of them accepted and none an all-in. */
  predicate LeadsToShowdown(v: View, actions: seq<PlayerAction>)
  {
    AllAccepted(v, actions) && NoAllIn(actions) && Play(v, actions).snapshot.status == Showdown
  }

  lemma {:induction false} FirstOfMany(v: View, a: PlayerAction, rest: seq<PlayerAction>)
    requires Apply(v, a).1.Accepted? && a.actionType != AllIn && LeadsToShowdown(Apply(v, a).0, rest)
    ensures LeadsToShowdown(v, [a] + rest)
  {
    PlayFirst(v, a, rest);
  }

  /** Calling and checking takes any hand in play to its showdown. */
  lemma {:induction false} CheckDown(v: View, base: nat, i: nat) returns (actions: seq<PlayerAction>)
    requires ChipsInv(v) && InPlay(v, base, i) && SEAT_LIMIT * (base + v.round.currentBet) <= U128_MAX
    ensures LeadsToShowdown(v, actions)
    decreases Rank(v)
  {
    var a := PassiveMove(v, v.snapshot.actingSeatId.value);
    var next, j := PassiveGoesOn(v, base, i, a);
    var rest := [];
    if Apply(v, a).0.snapshot.status == Running {
      rest := CheckDown(Apply(v, a).0, next, j);
    }
    actions := [a] + rest;
    FirstOfMany(v, a, rest);
  }

  /** Every fairly dealt hand can reach its showdown without an all-in. */
  lemma {:induction false} DealCanBeCheckedDown(v: View, deck: seq<Card>, handId: nat)
    returns (actions: seq<PlayerAction>)
    requires CheckDeal(v, deck).None? && FairStart(v)
    ensures LeadsToShowdown(Dealt(v, deck, handId), actions)
  {
    DealStartsPlay(v, deck, handId);
    DealtChips(v, deck, handId);
    var i :| InPlay(Dealt(v, deck, handId), 0, i);
    actions := CheckDown(Dealt(v, deck, handId), 0, i);
  }
}
