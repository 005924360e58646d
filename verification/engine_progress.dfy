/** Turn order and progress of any hand, all-ins included. */
module EngineProgress {
  import opened Money
  import opened Seats
  import opened Pots
  import opened EngineModel
  import opened EngineMoney
  import opened EngineTurns
  import opened EngineRaises
  import opened EngineAllIns

  // ----- turn order and progress on a street that is not held up -----

  /** The seat at index `i` is to act and has not acted; those still able to act who have not come
      before those who have, going round from it; and nobody is awaited in vain. */
  ghost predicate InTurn(v: View, i: nat)
  {
    var order := Sorted(v.hand.seated);
    && v.snapshot.status == Running && v.snapshot.street != ShowdownStreet
    && i < |order| && v.snapshot.actingSeatId == Some(order[i])
    && order[i] in Unfolded(v) && order[i] !in v.round.acted
    && |Unfolded(v)| >= 2 && Matched(v) && AllInsDone(v)
    && Arc(order, i, 0, Actionable(v), v.round.acted)
  }

  /** Between an action and the choice of the next seat. */
  ghost predicate TurnDone(x: View, i: nat)
  {
    var order := Sorted(x.hand.seated);
    && x.snapshot.status == Running && x.snapshot.street != ShowdownStreet
    && i < |order| && (order[i] in Unfolded(x) ==> order[i] in x.round.acted) && Matched(x)
    && (forall s :: s in Unfolded(x) && s in x.hand.allIn ==> s in x.round.acted)
    && Arc(order, i, 1, Actionable(x), x.round.acted)
  }

  /** After a raise everybody who can act is to act again. */
  lemma {:induction false} ArcReopened(order: seq<SeatId>, i: nat, actionable: set<SeatId>, allIn: set<SeatId>)
    requires Ascending(order) && i < |order| && actionable !! allIn
    ensures Arc(order, i, 1, actionable, allIn + {order[i]})
  {
    forall p | 1 <= p < |order| ensures At(order, i, p) != order[i] {
      OthersElsewhere(order, i, p);
    }
  }

  /** What an accepted action does to the standing of the seats. */
  lemma {:induction false} StandingAfter(v: View, a: PlayerAction, x: View)
    requires Apply(v, a).1.Accepted? && x == AfterAction(v, a)
    ensures x.hand.seated == v.hand.seated
    ensures x.snapshot.street == v.snapshot.street && x.snapshot.status == v.snapshot.status
    ensures v.hand.folded <= x.hand.folded <= v.hand.folded + {a.seatId}
    ensures v.hand.allIn <= x.hand.allIn <= v.hand.allIn + {a.seatId}
    ensures Unraised(v, a) ==> x.round.acted == v.round.acted + {a.seatId} && x.round.currentBet == v.round.currentBet
    ensures !Unraised(v, a) ==> x.round.acted == x.hand.allIn + {a.seatId} && x.round.currentBet > v.round.currentBet
  {
  }

  lemma {:induction false} TurnTaken(v: View, i: nat, a: PlayerAction, x: View)
    requires ChipsInv(v) && InTurn(v, i) && Apply(v, a).1.Accepted? && x == AfterAction(v, a)
    ensures a.seatId == Sorted(v.hand.seated)[i] && x.hand.seated == v.hand.seated
    ensures TurnDone(x, i) && x.snapshot.street == v.snapshot.street
    ensures || (x.round.currentBet == v.round.currentBet && OneFewerToAct(v, x, a.seatId))
            || x.round.currentBet > v.round.currentBet
  {
    StandingAfter(v, a, x);
    ActionMatched(v, a);
    ArcTaken(v, i, a, x);
  }

  lemma {:induction false} ArcTaken(v: View, i: nat, a: PlayerAction, x: View)
    requires InTurn(v, i) && Apply(v, a).1.Accepted? && x == AfterAction(v, a)
    ensures a.seatId == Sorted(v.hand.seated)[i]
    ensures Arc(Sorted(v.hand.seated), i, 1, Actionable(x), x.round.acted)
  {
    var order := Sorted(v.hand.seated);
    SortedSpec(v.hand.seated);
    StandingAfter(v, a, x);
    if Unraised(v, a) {
      ArcAfterAction(order, i, Actionable(v), Actionable(x), v.round.acted);
    } else {
      ArcReopened(order, i, Actionable(x), x.hand.allIn);
    }
  }

  lemma {:induction false} TurnGoesOn(x: View, i: nat) returns (j: nat)
    requires TurnDone(x, i) && |Unfolded(x)| >= 2 && !RoundComplete(x)
    ensures Actionable(x) != {}
    ensures InTurn(WithActor(x, Some(NextToAct(x, Sorted(x.hand.seated)[i]))), j)
  {
    var order := Sorted(x.hand.seated);
    SortedSpec(x.hand.seated);
    var late := LateSeat(x);
    assert late in Members(order);
    j := NearestIsNext(order, i, Actionable(x), x.round.acted, late);
    PositionFound(order, i, 0);
    var w := WithActor(x, Some(NextToAct(x, order[i])));
    assert w.hand.seated == x.hand.seated && Unfolded(w) == Unfolded(x) && Actionable(w) == Actionable(x);
  }

  /** The seat at index `i` is to act on a street that waits for an all-in seat it will not ask. */
  ghost predicate HeldUp(v: View, i: nat)
  {
    var order := Sorted(v.hand.seated);
    && v.snapshot.status == Running && v.snapshot.street != ShowdownStreet
    && i < |order| && v.snapshot.actingSeatId == Some(order[i]) && order[i] in Unfolded(v)
    && |Unfolded(v)| >= 2 && Matched(v) && Stalled(v)
  }

  lemma {:induction false} StreetInTurn(x: View) returns (j: nat)
    requires x.snapshot.status == Running && |Unfolded(x)| >= 2 && NextStreet(x.snapshot.street).Some?
    ensures InTurn(AdvanceStreet(x).0, j) || HeldUp(AdvanceStreet(x).0, j)
  {
    j := LeftSeatFound(x);
    var w := AdvanceStreet(x).0;
    assert w.hand.seated == x.hand.seated && Unfolded(w) == Unfolded(x) && w.round.acted == {};
    if s :| s in Unfolded(w) && s in w.hand.allIn && w.snapshot.actingSeatId != Some(s) {
      assert Waiting(w, s);
    }
  }

  /** Where a hand can stand after an action on a street that is not held up: in turn, held up on a new
      street, over because one seat is left, or at showdown with the whole board shown. */
  ghost predicate Proceeds(w: View, i: nat)
  {
    match w.snapshot.status
    case Running => InTurn(w, i) || HeldUp(w, i)
    case Settled => w.snapshot.actingSeatId.None? && |Unfolded(w)| <= 1
    case Showdown =>
      && w.snapshot.actingSeatId.None? && w.snapshot.street == ShowdownStreet
      && (w.dealing.Some? ==> w.snapshot.boardCards == w.dealing.value.boardCards)
    case _ => false
  }

  lemma {:induction false} TurnProceeds(x: View, i: nat, w: View) returns (j: nat)
    requires TurnDone(x, i) && w == AdvanceTurn(x, Sorted(x.hand.seated)[i]).0
    ensures Proceeds(w, j)
    ensures w.snapshot.status == Running ==> NoSlower(x, w) && (w.snapshot.street == x.snapshot.street ==> InTurn(w, j))
  {
    j := 0;
    if |Unfolded(x)| >= 2 {
      if !RoundComplete(x) {
        j := TurnGoesOn(x, i);
      } else if NextStreet(x.snapshot.street).Some? {
        j := StreetInTurn(x);
      } else if x.dealing.Some? {
        assert Take(x.dealing.value.boardCards, |x.dealing.value.boardCards|) == x.dealing.value.boardCards;
      }
    }
  }

  /** Any accepted action, all-ins included: turn order is kept unless a new street opens stalled, and the
      measure falls. */
  lemma {:induction false} StepInTurn(v: View, i: nat, a: PlayerAction) returns (j: nat)
    requires ChipsInv(v) && InTurn(v, i) && Apply(v, a).1.Accepted?
    ensures var w := Apply(v, a).0;
            && Proceeds(w, j)
            && (w.snapshot.status == Running ==> Rank(w) < Rank(v))
            && (w.snapshot.status == Running && w.snapshot.street == v.snapshot.street ==> InTurn(w, j))
  {
    var x := AfterAction(v, a);
    TurnTaken(v, i, a, x);
    j := TurnProceeds(x, i, Apply(v, a).0);
    if Apply(v, a).0.snapshot.status == Running {
      RankFalls(v, x, Apply(v, a).0, a.seatId);
    }
  }

  // ----- a street that is held up -----

  /** A raise counts every all-in seat as having acted, and so frees the street. */
  lemma {:induction false} RaiseFrees(v: View, i: nat, a: PlayerAction, x: View)
    requires ChipsInv(v) && HeldUp(v, i) && Apply(v, a).1.Accepted? && x == AfterAction(v, a) && !Unraised(v, a)
    ensures a.seatId == Sorted(x.hand.seated)[i] && TurnDone(x, i)
    ensures x.snapshot.street == v.snapshot.street && x.round.currentBet > v.round.currentBet
  {
    SortedSpec(v.hand.seated);
    StandingAfter(v, a, x);
    ActionMatched(v, a);
    ArcReopened(Sorted(v.hand.seated), i, Actionable(x), x.hand.allIn);
  }

  lemma {:induction false} SeatedAt(v: View, seat: SeatId) returns (j: nat)
    requires seat in v.hand.seated
    ensures j < |Sorted(v.hand.seated)| && Sorted(v.hand.seated)[j] == seat
  {
    SortedSpec(v.hand.seated);
    assert seat in Members(Sorted(v.hand.seated));
    j :| 0 <= j < |Sorted(v.hand.seated)| && Sorted(v.hand.seated)[j] == seat;
  }

  /** Where any hand from a fair deal can stand: in turn, held up, or over. */
  ghost predicate Goes(w: View, i: nat)
  {
    match w.snapshot.status
    case Running => InTurn(w, i) || HeldUp(w, i)
    case Settled => w.snapshot.actingSeatId.None? && |Unfolded(w)| <= 1
    case Showdown => w.snapshot.actingSeatId.None? && w.snapshot.street == ShowdownStreet
    case _ => false
  }

  lemma {:induction false} HeldUpOver(x: View, seat: SeatId)
    requires x.snapshot.status == Running && !RoundComplete(x) && (|Unfolded(x)| <= 1 || Actionable(x) == {})
    ensures Goes(AdvanceTurn(x, seat).0, 0) && AdvanceTurn(x, seat).0.snapshot.status != Running
  {
  }

  lemma {:induction false} HeldUpOn(v: View, x: View, w: View, s: SeatId, t: SeatId) returns (j: nat)
    requires x.snapshot.status == Running && x.snapshot.street != ShowdownStreet && |Unfolded(x)| >= 2 && Matched(x)
    requires t in Actionable(x) && w == WithActor(x, Some(t)) && Waiting(w, s)
    requires x.snapshot.street == v.snapshot.street && x.round.currentBet == v.round.currentBet
    requires Unfolded(x) - x.round.acted <= Unfolded(v) - v.round.acted
    ensures HeldUp(w, j) && Rank(w) <= Rank(v)
  {
    j := SeatedAt(x, t);
    assert Unfolded(w) == Unfolded(x);
    RankStays(v, w);
  }

  /** Without a raise the street stays held up on the same measure, or the hand is over. */
  lemma {:induction false} HeldUpStays(v: View, i: nat, a: PlayerAction) returns (j: nat)
    requires ChipsInv(v) && HeldUp(v, i) && Apply(v, a).1.Accepted? && Unraised(v, a)
    ensures var w := Apply(v, a).0;
            && Goes(w, j)
            && (w.snapshot.status == Running ==> HeldUp(w, j) && Rank(w) <= Rank(v))
  {
    var x, w := AfterAction(v, a), Apply(v, a).0;
    var s :| s in Unfolded(v) && Waiting(v, s);
    StandingAfter(v, a, x);
    ActionMatched(v, a);
    StillAwaited(v, s, a);
    StillWaiting(v, s, a);
    assert w == AdvanceTurn(x, a.seatId).0;
    j := 0;
    if |Unfolded(x)| >= 2 && Actionable(x) != {} {
      NextIsActionable(x, a.seatId);
      j := HeldUpOn(v, x, w, s, NextToAct(x, a.seatId));
    } else {
      HeldUpOver(x, a.seatId);
    }
  }

  lemma {:induction false} RankStays(v: View, w: View)
    requires w.snapshot.street == v.snapshot.street && w.round.currentBet == v.round.currentBet
    requires Unfolded(w) - w.round.acted <= Unfolded(v) - v.round.acted
    ensures Rank(w) <= Rank(v)
  {
    SubsetSize(Unfolded(w) - w.round.acted, Unfolded(v) - v.round.acted);
  }

  /** A passing action on a held-up street: it brings the hand no closer to its end. */
  predicate Idle(v: View, a: PlayerAction)
  {
    Stalled(v) && Unraised(v, a)
  }

  /** Any accepted action in any running hand: turn order is kept or regained unless the street is held up,
      the measure never rises, and it falls unless the action is idle. */
  lemma {:induction false} StepAnyhow(v: View, i: nat, a: PlayerAction) returns (j: nat)
    requires ChipsInv(v) && Goes(v, i) && Apply(v, a).1.Accepted?
    ensures var w := Apply(v, a).0;
            && Goes(w, j)
            && (w.snapshot.status == Running ==> Rank(w) <= Rank(v) && (Rank(w) < Rank(v) || Idle(v, a)))
  {
    if InTurn(v, i) {
      j := StepInTurn(v, i, a);
    } else if Unraised(v, a) {
      j := HeldUpStays(v, i, a);
    } else {
      var x := AfterAction(v, a);
      RaiseFrees(v, i, a, x);
      j := TurnProceeds(x, i, Apply(v, a).0);
      if Apply(v, a).0.snapshot.status == Running {
        RankFalls(v, x, Apply(v, a).0, a.seatId);
      }
    }
  }

  function IdleCount(v: View, actions: seq<PlayerAction>): (n: nat)
    decreases |actions|
  {
    if actions == [] then 0
    else (if Idle(v, actions[0]) then 1 else 0) + IdleCount(Apply(v, actions[0]).0, actions[1..])
  }

  lemma {:induction false} PlayAnyhow(v: View, i: nat, actions: seq<PlayerAction>) returns (j: nat)
    requires ChipsInv(v) && Goes(v, i) && AllAccepted(v, actions)
    ensures ChipsInv(Play(v, actions)) && Goes(Play(v, actions), j)
    ensures |actions| <= (if v.snapshot.status == Running then Rank(v) + 1 else 0) + IdleCount(v, actions)
    decreases |actions|
  {
    j := i;
    if v.snapshot.status != Running {
      NothingAfterTheEnd(v, actions);
    } else if actions != [] {
      j := StepAnyhow(v, i, actions[0]);
      ApplyChips(v, actions[0]);
      j := PlayAnyhow(Apply(v, actions[0]).0, j, actions[1..]);
    }
  }

  // ----- whole hands -----

  lemma {:induction false} DealGoes(v: View, deck: seq<Card>, handId: nat) returns (i: nat)
    requires CheckDeal(v, deck).None? && FairStart(v)
    ensures ChipsInv(Dealt(v, deck, handId)) && InTurn(Dealt(v, deck, handId), i)
  {
    DealStartsPlay(v, deck, handId);
    DealtChips(v, deck, handId);
    i :| InPlay(Dealt(v, deck, handId), 0, i);
    DealtInTurn(Dealt(v, deck, handId), i);
  }

  /** A hand dealt on a fair start in which nothing overflows, whatever is played, all-ins included: it is in
      play with its turn order intact, held up by an all-in seat that is not asked, or over; and all its
      accepted actions but the idle ones on held-up streets are bounded in number. */
  lemma {:induction false} HandWithAllIns(v: View, deck: seq<Card>, handId: nat, actions: seq<PlayerAction>)
    returns (j: nat)
    requires CheckDeal(v, deck).None? && FairStart(v) && NoneOverflow(Dealt(v, deck, handId), actions)
    ensures ChipsInv(Play(Dealt(v, deck, handId), actions)) && Goes(Play(Dealt(v, deck, handId), actions), j)
    ensures var dealt := Dealt(v, deck, handId);
            |Kept(dealt, actions)| <= Rank(dealt) + 1 + IdleCount(dealt, Kept(dealt, actions))
  {
    var dealt := Dealt(v, deck, handId);
    var i := DealGoes(v, deck, handId);
    RefusalsDropOut(dealt, actions);
    j := PlayAnyhow(dealt, i, Kept(dealt, actions));
  }

  predicate NeverStalls(v: View, actions: seq<PlayerAction>)
    decreases |actions|
  {
    !Stalled(v) && (actions == [] || NeverStalls(Apply(v, actions[0]).0, actions[1..]))
  }

  lemma {:induction false} PlayInTurn(v: View, i: nat, actions: seq<PlayerAction>) returns (j: nat)
    requires ChipsInv(v) && Proceeds(v, i) && AllAccepted(v, actions) && NeverStalls(v, actions)
    ensures Proceeds(Play(v, actions), j) && IdleCount(v, actions) == 0
    decreases |actions|
  {
    j := i;
    if v.snapshot.status != Running {
      NothingAfterTheEnd(v, actions);
    } else if actions != [] {
      j := StepInTurn(v, i, actions[0]);
      ApplyChips(v, actions[0]);
      j := PlayInTurn(Apply(v, actions[0]).0, j, actions[1..]);
    }
  }

  /** If no street is ever held up, there are no idle actions and a showdown shows the whole board. */
  lemma {:induction false} HandNeverHeldUp(v: View, deck: seq<Card>, handId: nat, actions: seq<PlayerAction>)
    returns (j: nat)
    requires CheckDeal(v, deck).None? && FairStart(v) && NoneOverflow(Dealt(v, deck, handId), actions)
    requires NeverStalls(Dealt(v, deck, handId), Kept(Dealt(v, deck, handId), actions))
    ensures Proceeds(Play(Dealt(v, deck, handId), actions), j)
    ensures |Kept(Dealt(v, deck, handId), actions)| <= Rank(Dealt(v, deck, handId)) + 1
  {
    var dealt := Dealt(v, deck, handId);
    var i := DealGoes(v, deck, handId);
    RefusalsDropOut(dealt, actions);
    j := PlayInTurn(dealt, i, Kept(dealt, actions));
    var _ := HandWithAllIns(v, deck, handId, actions);
  }

  lemma {:induction false} DealtInTurn(v: View, i: nat)
    requires InPlay(v, 0, i) && v.round.acted == {}
    ensures InTurn(v, i)
  {
  }

  /** Folds, checks and calls after which the street is still open. */
  predicate OnStreet(v: View, actions: seq<PlayerAction>)
  {
    && AllAccepted(v, actions) && Passive(actions)
    && Play(v, actions).snapshot.street == v.snapshot.street && Play(v, actions).snapshot.actingSeatId.Some?
  }

  lemma {:induction false} StaysOnStreet(v: View, actions: seq<PlayerAction>)
    requires OnStreet(v, actions) && actions != []
    ensures var w := Apply(v, actions[0]).0; w.snapshot.street == v.snapshot.street && OnStreet(w, actions[1..])
  {
    assert actions[0].actionType in {Fold, Check, Call};
    PassiveStep(v, actions[0]);
    PassiveKeepsBet(Apply(v, actions[0]).0, actions[1..]);
  }

  lemma {:induction false} PassesBounded(v: View, i: nat, actions: seq<PlayerAction>)
    requires ChipsInv(v) && InTurn(v, i) && OnStreet(v, actions)
    ensures |actions| <= Rank(v) + 1
    decreases |actions|
  {
    if actions != [] {
      StaysOnStreet(v, actions);
      var j := StepInTurn(v, i, actions[0]);
      ApplyChips(v, actions[0]);
      if Apply(v, actions[0]).0.snapshot.status == Running {
        PassesBounded(Apply(v, actions[0]).0, j, actions[1..]);
      } else {
        NothingAfterTheEnd(Apply(v, actions[0]).0, actions[1..]);
      }
    }
  }

  ghost predicate Bounded(v: View)
  {
    exists n: nat :: AtMost(v, n)
  }

  ghost predicate AtMost(v: View, n: nat)
  {
    forall actions :: OnStreet(v, actions) ==> |actions| <= n
  }

  lemma {:induction false} BoundedInTurn(v: View, i: nat)
    requires ChipsInv(v) && CallsFit(v) && Actionable(v) != {} && (InTurn(v, i) || HeldUp(v, i))
    ensures Bounded(v) <==> AllInsDone(v)
  {
    if AllInsDone(v) {
      forall actions | OnStreet(v, actions) ensures |actions| <= Rank(v) + 1 {
        PassesBounded(v, i, actions);
      }
      assert AtMost(v, Rank(v) + 1);
    } else {
      var s :| s in Unfolded(v) && s in v.hand.allIn && s !in v.round.acted && v.snapshot.actingSeatId != Some(s);
      forall n: nat ensures !AtMost(v, n) {
        var actions := PassesForEver(v, s, n + 1);
        assert OnStreet(v, actions);
      }
    }
  }

  /** In any state of any hand from a fair deal without overflow, somebody being to act and able to act and
      calls fitting: folding, checking and calling must end or close the street if and only if every
      unfolded all-in seat has acted or is the one to act. */
  lemma {:induction false} PassesBoundedIff(v: View, deck: seq<Card>, handId: nat, actions: seq<PlayerAction>, w: View)
    requires CheckDeal(v, deck).None? && FairStart(v) && NoneOverflow(Dealt(v, deck, handId), actions)
    requires w == Play(Dealt(v, deck, handId), actions)
    requires w.snapshot.actingSeatId.Some? && Actionable(w) != {} && CallsFit(w)
    ensures Bounded(w) <==> AllInsDone(w)
  {
    var i := HandWithAllIns(v, deck, handId, actions);
    BoundedInTurn(w, i);
  }
}
