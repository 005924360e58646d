/** What the amounts an action list shows come to in play. */
module EngineRaises {
  import opened Money
  import opened Seats
  import opened EngineModel
  import opened EngineMoney
  import opened EngineTurns
  import opened EngineDealing

  lemma {:induction false} TurnKeepsBet(w: View, seat: SeatId)
    ensures var r := AdvanceTurn(w, seat).0;
            && StreetIndex(w.snapshot.street) <= StreetIndex(r.snapshot.street)
            && (r.snapshot.street == w.snapshot.street ==>
                  r.round.currentBet == w.round.currentBet && r.round.minRaiseTo == w.round.minRaiseTo)
            && r.pot == w.pot
  {
  }

  lemma {:induction false} ActionSetsBet(v: View, a: PlayerAction)
    requires Apply(v, a).1.Accepted?
    ensures var w := Apply(v, a).0;
            && StreetIndex(v.snapshot.street) <= StreetIndex(w.snapshot.street)
            && (w.snapshot.street == v.snapshot.street ==>
                  if Rule(v, a).BetsTo? && Rule(v, a).target > v.round.currentBet
                  then w.round.currentBet == Rule(v, a).target
                       && w.round.minRaiseTo == Some(NextMinRaiseTo(v.round.currentBet, Rule(v, a).target))
                  else w.round.currentBet == v.round.currentBet && w.round.minRaiseTo == v.round.minRaiseTo)
  {
    match Rule(v, a)
    case Refused =>
    case Folds => TurnKeepsBet(Recorded(WithFold(v, a.seatId), a.seatId, false), a.seatId);
    case Checks => TurnKeepsBet(Recorded(v, a.seatId, false), a.seatId);
    case BetsTo(target) =>
      TurnKeepsBet(Recorded(BetPaid(v, a, target), a.seatId, target > v.round.currentBet), a.seatId);
  }

  predicate Passive(actions: seq<PlayerAction>)
  {
    forall k :: 0 <= k < |actions| ==> actions[k].actionType in {Fold, Check, Call}
  }

  /** No street comes back, and on the same street bet and minimum raise are the same. */
  predicate KeepsBet(v: View, w: View)
  {
    && StreetIndex(v.snapshot.street) <= StreetIndex(w.snapshot.street)
    && (w.snapshot.street == v.snapshot.street ==>
          w.round.currentBet == v.round.currentBet && w.round.minRaiseTo == v.round.minRaiseTo)
  }

  lemma {:induction false} PassiveStep(v: View, a: PlayerAction)
    requires Apply(v, a).1.Accepted? && a.actionType in {Fold, Check, Call}
    ensures KeepsBet(v, Apply(v, a).0)
  {
    ActionSetsBet(v, a);
  }

  lemma {:induction false} PassiveKeepsBet(v: View, actions: seq<PlayerAction>)
    requires AllAccepted(v, actions) && Passive(actions)
    ensures KeepsBet(v, Play(v, actions))
    decreases |actions|
  {
    if actions != [] {
      assert actions[0].actionType in {Fold, Check, Call};
      PassiveStep(v, actions[0]);
      PassiveKeepsBet(Apply(v, actions[0]).0, actions[1..]);
    }
  }

  /** An accepted raise exceeds the bet and reaches the minimum, and sets both for the street. */
  lemma {:induction false} RaiseSets(v: View, a: PlayerAction)
    requires a.actionType == RaiseTo && Apply(v, a).1.Accepted?
    ensures a.amount.Some? && a.amount.value > v.round.currentBet
    ensures v.round.minRaiseTo.Some? ==> a.amount.value >= v.round.minRaiseTo.value
    ensures var w := Apply(v, a).0;
            && StreetIndex(v.snapshot.street) <= StreetIndex(w.snapshot.street)
            && (w.snapshot.street == v.snapshot.street ==>
                  w.round.currentBet == a.amount.value
                  && w.round.minRaiseTo == Some(NextMinRaiseTo(v.round.currentBet, a.amount.value)))
  {
    ActionSetsBet(v, a);
  }

  /** After a raise, the next raise on the same street, whatever folds, checks and calls lie between,
      raises by at least as much, unless doubling the raise no longer fits 128 bits. */
  lemma {:induction false} RaisesNeverShrink(v: View, a: PlayerAction, w: View, between: seq<PlayerAction>,
                                             x: View, b: PlayerAction)
    requires a.actionType == RaiseTo == b.actionType && Apply(v, a).1.Accepted? && w == Apply(v, a).0
    requires AllAccepted(w, between) && Passive(between) && x == Play(w, between)
    requires x.snapshot.street == v.snapshot.street && Apply(x, b).1.Accepted?
    ensures a.amount.Some? && b.amount.Some? && v.round.currentBet < a.amount.value < b.amount.value
    ensures 2 * a.amount.value - v.round.currentBet <= U128_MAX ==>
              b.amount.value - a.amount.value >= a.amount.value - v.round.currentBet
  {
    RaiseSets(v, a);
    PassiveKeepsBet(w, between);
    RaiseSets(x, b);
  }

  /** After a raise from `before` to `a.amount` on the same street, the seat to act may raise to `amount` if and
      only if that raises by at least as much again, the pot permitting. Where twice the size does not fit 128
      bits any larger bet will do. */
  lemma {:induction false} NextRaiseIff(v: View, a: PlayerAction, b: PlayerAction)
    requires ChipsInv(v) && a.actionType == RaiseTo == b.actionType && Apply(v, a).1.Accepted? && b.amount.Some?
    requires var w := Apply(v, a).0;
             && w.snapshot.street == v.snapshot.street && w.snapshot.actingSeatId == Some(b.seatId)
             && b.actionSeq == w.snapshot.nextActionSeq && !WouldOverflow(w, b)
    ensures a.amount.Some? && v.round.currentBet < a.amount.value
    ensures 2 * a.amount.value - v.round.currentBet <= U128_MAX ==>
              (Apply(Apply(v, a).0, b).1.Accepted? <==>
                 b.amount.value - a.amount.value >= a.amount.value - v.round.currentBet)
    ensures 2 * a.amount.value - v.round.currentBet > U128_MAX ==>
              (Apply(Apply(v, a).0, b).1.Accepted? <==> b.amount.value > a.amount.value)
  {
    var w := Apply(v, a).0;
    RaiseSets(v, a);
    ApplyChips(v, a);
    RaiseTaken(w, b);
  }

  lemma {:induction false} RaiseTaken(w: View, b: PlayerAction)
    requires ChipsInv(w) && b.actionType == RaiseTo && b.amount.Some? && !WouldOverflow(w, b)
    requires w.snapshot.actingSeatId == Some(b.seatId) && b.actionSeq == w.snapshot.nextActionSeq
    ensures Apply(w, b).1.Accepted? <==>
              && b.amount.value > w.round.currentBet
              && (w.round.minRaiseTo.Some? ==> b.amount.value >= w.round.minRaiseTo.value)
  {
    assert SeatBet(w, b.seatId) <= w.round.currentBet;
    if Rule(w, b).BetsTo? {
      PotOverflowsFirst(w, b.seatId, Rule(w, b).target - SeatBet(w, b.seatId));
    }
  }

  /** An accepted call costs exactly what the action list says it does. */
  lemma {:induction false} CallCostsAsListed(v: View, a: PlayerAction)
    requires a.actionType == Call && Apply(v, a).1.Accepted?
    ensures var w := Apply(v, a).0;
            && w.pot.mainPot > v.pot.mainPot
            && w.pot.mainPot - v.pot.mainPot == Contributed(w, a.seatId) - Contributed(v, a.seatId) <= U128_MAX
            && LegalAction(Call, Some(w.pot.mainPot - v.pot.mainPot), Some(w.pot.mainPot - v.pot.mainPot))
               in LegalActions(v, a.seatId)
  {
    var target := v.round.currentBet;
    assert Rule(v, a) == BetsTo(target);
    TurnKeepsBet(Recorded(BetPaid(v, a, target), a.seatId, false), a.seatId);
    var offers := LegalActions(v, a.seatId);
    assert offers[1].actionType == Call;
  }
}
