/** Turn order and termination of a hand played without all-ins. */
module EngineTurns {
  import opened Arith
  import opened Money
  import opened Seats
  import opened EngineModel
  import opened EngineMoney

  // ----- the table as a circle -----

  /** The seat `p` places to the left of index `i`. */
  function At(order: seq<SeatId>, i: nat, p: nat): (s: SeatId)
    requires i < |order| && p <= |order|
  {
    order[if i + p < |order| then i + p else i + p - |order|]
  }

  lemma {:induction false} AtIsModular(order: seq<SeatId>, i: nat, p: nat)
    requires i < |order| && p <= |order|
    ensures order[(i + p) % |order|] == At(order, i, p)
  {
    WrapIndex(i + p, |order|);
  }

  /** The search round the table stops at the first wanted seat and skips no other. */
  lemma {:induction false} FirstWantedSpec(order: seq<SeatId>, i: nat, step: nat, wanted: set<SeatId>, last: nat)
    returns (k: nat)
    requires i < |order| && step <= last <= |order| && At(order, i, last) in wanted
    ensures step <= k <= last && At(order, i, k) in wanted
    ensures FirstWanted(order, i, step, wanted) == Some(At(order, i, k))
    ensures forall p :: step <= p < k ==> At(order, i, p) !in wanted
    decreases last - step
  {
    AtIsModular(order, i, step);
    if At(order, i, step) in wanted {
      k := step;
    } else {
      k := FirstWantedSpec(order, i, step + 1, wanted, last);
    }
  }

  /** Among the unfolded seats, those still to act come first, going round from index `i`. */
  ghost predicate Arc(order: seq<SeatId>, i: nat, from: nat, unfolded: set<SeatId>, acted: set<SeatId>)
    requires i < |order|
  {
    forall p, q ::
      (from <= p < q < |order|
       && At(order, i, p) in unfolded && At(order, i, q) in unfolded && At(order, i, q) !in acted)
      ==> At(order, i, p) !in acted
  }

  /** Turning the circle to the next unfolded seat keeps the arc, once the seat left behind is done. */
  lemma {:induction false} ArcMoves(order: seq<SeatId>, i: nat, k: nat, unfolded: set<SeatId>, acted: set<SeatId>)
    requires i < |order| && 1 <= k < |order|
    requires Arc(order, i, 1, unfolded, acted)
    requires At(order, i, 0) in unfolded ==> At(order, i, 0) in acted
    requires forall p :: 1 <= p < k ==> At(order, i, p) !in unfolded
    ensures Arc(order, if i + k < |order| then i + k else i + k - |order|, 0, unfolded, acted)
  {
    var n := |order|;
    var j := if i + k < n then i + k else i + k - n;
    forall p, q | 0 <= p < q < n
                  && At(order, j, p) in unfolded && At(order, j, q) in unfolded && At(order, j, q) !in acted
      ensures At(order, j, p) !in acted
    {
      var q' := if k + q < n then k + q else k + q - n;
      assert At(order, j, q) == At(order, i, q');
      assert q' >= k;
      assert At(order, j, p) == At(order, i, k + p);
    }
  }

  lemma {:induction false} OthersElsewhere(order: seq<SeatId>, i: nat, p: nat)
    requires Ascending(order) && i < |order| && 1 <= p < |order|
    ensures At(order, i, p) != order[i]
  {
  }

  /** The seat at `i` acts, perhaps by folding: the others keep their arc. */
  lemma {:induction false} ArcAfterAction(order: seq<SeatId>, i: nat, unfolded: set<SeatId>, left: set<SeatId>,
                                          acted: set<SeatId>)
    requires Ascending(order) && i < |order| && Arc(order, i, 0, unfolded, acted) && left <= unfolded
    ensures Arc(order, i, 1, left, acted + {order[i]})
  {
    forall p | 1 <= p < |order| ensures At(order, i, p) != order[i] {
      OthersElsewhere(order, i, p);
    }
  }

  /** After a raise everybody else is to act again. */
  lemma {:induction false} ArcAfterRaise(order: seq<SeatId>, i: nat, unfolded: set<SeatId>, allIn: set<SeatId>)
    requires Ascending(order) && i < |order| && (forall s :: s in order ==> s !in allIn)
    ensures Arc(order, i, 1, unfolded, allIn + {order[i]})
  {
    forall p | 1 <= p < |order| ensures At(order, i, p) !in allIn + {order[i]} {
      OthersElsewhere(order, i, p);
    }
  }

  // ----- the invariant of a hand in play -----

  /** Unfolded seats have put in `base` on earlier streets plus their bet on this one, nobody has
      put in more, only seated players have put in anything, and whoever has acted has matched the
      bet. */
  ghost predicate Level(v: View, base: nat)
  {
    && (forall s :: s in Unfolded(v) ==> Get(v.pot.contributions, s) == base + Get(v.round.playerBets, s))
    && (forall s :: s in Unfolded(v) && s in v.round.acted ==> Get(v.round.playerBets, s) == v.round.currentBet)
    && (forall s: SeatId :: Get(v.pot.contributions, s) <= base + v.round.currentBet)
    && (forall s: SeatId :: Get(v.pot.contributions, s) > 0 ==> s in v.hand.seated)
    && base + v.round.currentBet >= BIG_BLIND
  }

  /** A hand in play: the seat at index `i` is to act. */
  ghost predicate InPlay(v: View, base: nat, i: nat)
  {
    var order := Sorted(v.hand.seated);
    && v.snapshot.status == Running && v.snapshot.street != ShowdownStreet
    && i < |order| && v.snapshot.actingSeatId == Some(order[i])
    && order[i] in Unfolded(v) && order[i] !in v.round.acted
    && |Unfolded(v)| >= 2
    && v.hand.allIn !! v.hand.seated
    && Arc(order, i, 0, Unfolded(v), v.round.acted)
    && Level(v, base)
  }

  /** Between an action and the choice of the next seat. */
  ghost predicate JustActed(v: View, base: nat, i: nat)
  {
    var order := Sorted(v.hand.seated);
    && v.snapshot.status == Running && v.snapshot.street != ShowdownStreet
    && i < |order|
    && (order[i] in Unfolded(v) ==> order[i] in v.round.acted)
    && v.hand.allIn !! v.hand.seated
    && Arc(order, i, 1, Unfolded(v), v.round.acted)
    && Level(v, base)
  }

  /** Everyone left has put in the same amount `stake`, and nobody has put in more. */
  ghost predicate Squared(v: View, stake: nat)
  {
    && |Unfolded(v)| >= 2
    && stake >= BIG_BLIND
    && (forall s :: s in Unfolded(v) ==> Get(v.pot.contributions, s) == stake)
    && (forall s: SeatId :: Get(v.pot.contributions, s) <= stake)
    && (forall s: SeatId :: Get(v.pot.contributions, s) > 0 ==> s in v.hand.seated)
  }

  // ----- the measure -----

  function StreetsLeft(s: Street): (n: nat)
  {
    match s
    case Preflop => 3
    case Flop => 2
    case Turn => 1
    case River => 0
    case ShowdownStreet => 0
  }

  /** Streets left, then room to raise, then seats still to act: one number that counts down. */
  function Rank(v: View): (r: nat)
  {
    (StreetsLeft(v.snapshot.street) * (U128_MAX + 1) + (U128_MAX - v.round.currentBet)) * (SEAT_LIMIT + 1)
    + |Unfolded(v) - v.round.acted|
  }

  lemma {:induction false} FewSeatsBelow(s: set<SeatId>, n: nat)
    requires n <= SEAT_LIMIT
    ensures |AscendingBelow(s, n)| <= n
  {
    if n > 0 {
      FewSeatsBelow(s, n - 1);
    }
  }

  lemma {:induction false} FewSeats(s: set<SeatId>)
    ensures |s| <= SEAT_LIMIT
  {
    FewSeatsBelow(s, SEAT_LIMIT);
    SortedSpec(s);
  }

  // ----- from one seat to the next -----

  lemma {:induction false} PositionFound(order: seq<SeatId>, i: nat, from: nat)
    requires Ascending(order) && from <= i < |order|
    ensures PositionFrom(order, order[i], from) == Some(i)
    decreases i - from
  {
    if from < i {
      PositionFound(order, i, from + 1);
    }
  }

  /** Where a seat other than `order[i]` sits, counted from `i`. */
  lemma {:induction false} Distance(order: seq<SeatId>, i: nat, seat: SeatId) returns (p: nat)
    requires i < |order| && seat in order && seat != order[i]
    ensures 1 <= p < |order| && At(order, i, p) == seat
  {
    var j :| 0 <= j < |order| && order[j] == seat;
    p := if j >= i then j - i else j - i + |order|;
  }

  /** While somebody unfolded has yet to act, the nearest unfolded seat has not acted either. */
  lemma {:induction false} NearestIsNext(order: seq<SeatId>, i: nat, unfolded: set<SeatId>, acted: set<SeatId>,
                                         late: SeatId)
    returns (j: nat)
    requires i < |order| && Arc(order, i, 1, unfolded, acted)
    requires order[i] in unfolded ==> order[i] in acted
    requires late in order && late in unfolded && late !in acted
    ensures j < |order| && FirstWanted(order, i, 1, unfolded) == Some(order[j])
    ensures order[j] in unfolded && order[j] !in acted
    ensures Arc(order, j, 0, unfolded, acted)
  {
    var last := Distance(order, i, late);
    var k := FirstWantedSpec(order, i, 1, unfolded, last);
    assert At(order, i, k) !in acted;
    ArcMoves(order, i, k, unfolded, acted);
    j := if i + k < |order| then i + k else i + k - |order|;
  }

  lemma {:induction false} TurnMoves(v: View, base: nat, i: nat) returns (j: nat)
    requires JustActed(v, base, i) && |Unfolded(v)| >= 2 && !RoundComplete(v)
    ensures Actionable(v) == Unfolded(v)
    ensures InPlay(WithActor(v, Some(NextToAct(v, Sorted(v.hand.seated)[i]))), base, j)
  {
    var order := Sorted(v.hand.seated);
    SortedSpec(v.hand.seated);
    var late :| late in Unfolded(v) && late !in v.round.acted;
    assert late in Members(order);
    j := NearestIsNext(order, i, Unfolded(v), v.round.acted, late);
    PositionFound(order, i, 0);
    assert Actionable(v) == Unfolded(v);
    var w := WithActor(v, Some(NextToAct(v, order[i])));
    assert w.hand.seated == v.hand.seated && Unfolded(w) == Unfolded(v);
    assert Level(w, base);
  }

  /** The search for the first seat left of the button always finds one. */
  lemma {:induction false} SomeoneIsLeft(order: seq<SeatId>, d: nat, unfolded: set<SeatId>, someone: SeatId)
    returns (j: nat)
    requires d < |order| && someone in order && someone in unfolded
    ensures j < |order| && FirstWanted(order, d, 1, unfolded) == Some(order[j]) && order[j] in unfolded
  {
    var last := |order|;
    if someone != order[d] {
      last := Distance(order, d, someone);
    }
    var k := FirstWantedSpec(order, d, 1, unfolded, last);
    j := if d + k < |order| then d + k else d + k - |order|;
  }

  lemma {:induction false} LevelOnNewStreet(v: View, base: nat)
    requires Level(v, base) && Unfolded(v) != {} && RoundComplete(v) && v.hand.allIn !! v.hand.seated
    requires NextStreet(v.snapshot.street).Some?
    ensures Level(AdvanceStreet(v).0, base + v.round.currentBet)
  {
    var w := AdvanceStreet(v).0;
    assert Unfolded(w) == Unfolded(v) && w.pot == v.pot && w.round.playerBets == map[] && w.round.currentBet == 0;
  }

  lemma {:induction false} LeftSeatFound(v: View) returns (j: nat)
    requires Unfolded(v) != {}
    ensures j < |Sorted(v.hand.seated)| && LeftOfButton(v) == Sorted(v.hand.seated)[j] && LeftOfButton(v) in Unfolded(v)
  {
    var order := Sorted(v.hand.seated);
    SortedSpec(v.hand.seated);
    var someone :| someone in Unfolded(v);
    assert someone in Members(order);
    j := SomeoneIsLeft(order, DealerIndex(v.snapshot.handNo, |order|), Unfolded(v), someone);
  }

  /** A finished round opens the next street with everybody to act. */
  lemma {:induction false} StreetOpens(v: View, base: nat, i: nat) returns (j: nat)
    requires JustActed(v, base, i) && |Unfolded(v)| >= 2 && RoundComplete(v)
    requires NextStreet(v.snapshot.street).Some?
    ensures InPlay(AdvanceStreet(v).0, base + v.round.currentBet, j)
  {
    j := LeftSeatFound(v);
    LevelOnNewStreet(v, base);
    var w := AdvanceStreet(v).0;
    assert w.hand.seated == v.hand.seated && Unfolded(w) == Unfolded(v) && w.round.acted == {};
  }

  lemma {:induction false} HandClosesSquared(v: View, base: nat, i: nat)
    requires JustActed(v, base, i) && |Unfolded(v)| >= 2 && RoundComplete(v)
    ensures Squared(AdvanceStreet(v).0, base + v.round.currentBet)
  {
    var w := AdvanceStreet(v).0;
    assert Unfolded(w) == Unfolded(v) && w.pot == v.pot;
  }

  // ----- one action -----

  /** The seat that just acted is the only one to leave the set of unfolded seats still to act. */
  ghost predicate OneFewerToAct(v: View, w: View, seat: SeatId)
  {
    Unfolded(w) - w.round.acted == (Unfolded(v) - v.round.acted) - {seat}
  }

  lemma {:induction false} FoldRecorded(v: View, base: nat, i: nat, seat: SeatId, w: View)
    requires InPlay(v, base, i) && seat == Sorted(v.hand.seated)[i]
    requires w == Recorded(WithFold(v, seat), seat, false)
    ensures JustActed(w, base, i) && OneFewerToAct(v, w, seat)
  {
    SortedSpec(v.hand.seated);
    ArcAfterAction(Sorted(v.hand.seated), i, Unfolded(v), Unfolded(w), v.round.acted);
  }

  lemma {:induction false} CheckRecorded(v: View, base: nat, i: nat, seat: SeatId, w: View)
    requires ChipsInv(v) && InPlay(v, base, i) && seat == Sorted(v.hand.seated)[i]
    requires SeatBet(v, seat) >= v.round.currentBet
    requires w == Recorded(v, seat, false)
    ensures JustActed(w, base, i) && OneFewerToAct(v, w, seat)
  {
    SortedSpec(v.hand.seated);
    ArcAfterAction(Sorted(v.hand.seated), i, Unfolded(v), Unfolded(w), v.round.acted);
  }

  lemma {:induction false} LevelAfterBet(v: View, base: nat, i: nat, a: PlayerAction, target: Chips, w: View)
    requires ChipsInv(v) && InPlay(v, base, i) && a.seatId == Sorted(v.hand.seated)[i] && a.actionType != AllIn
    requires target > SeatBet(v, a.seatId) && target >= v.round.currentBet
    requires !PotOverflows(v, a.seatId, target - SeatBet(v, a.seatId))
    requires w == Recorded(BetPaid(v, a, target), a.seatId, target > v.round.currentBet)
    ensures Level(w, base)
  {
    SortedSpec(v.hand.seated);
    var paid: Chips := Contributed(v, a.seatId) + (target - SeatBet(v, a.seatId));
    GetUpdate(v.round.playerBets, a.seatId, target);
    GetUpdate(v.pot.contributions, a.seatId, paid);
    assert Unfolded(w) == Unfolded(v) && w.round.currentBet == target;
    assert w.round.playerBets == v.round.playerBets[a.seatId := target];
    assert w.pot.contributions == v.pot.contributions[a.seatId := paid];
  }

  lemma {:induction false} BetRecorded(v: View, base: nat, i: nat, a: PlayerAction, target: Chips, w: View)
    requires ChipsInv(v) && InPlay(v, base, i) && a.seatId == Sorted(v.hand.seated)[i] && a.actionType != AllIn
    requires target > SeatBet(v, a.seatId) && target >= v.round.currentBet
    requires !PotOverflows(v, a.seatId, target - SeatBet(v, a.seatId))
    requires w == Recorded(BetPaid(v, a, target), a.seatId, target > v.round.currentBet)
    ensures JustActed(w, base, i)
    ensures w.snapshot.street == v.snapshot.street && w.round.currentBet == target
    ensures target == v.round.currentBet ==> OneFewerToAct(v, w, a.seatId)
  {
    SortedSpec(v.hand.seated);
    LevelAfterBet(v, base, i, a, target, w);
    var order := Sorted(v.hand.seated);
    assert forall s :: s in order ==> s in Members(order);
    if target > v.round.currentBet {
      ArcAfterRaise(order, i, Unfolded(w), v.hand.allIn);
    } else {
      ArcAfterAction(order, i, Unfolded(v), Unfolded(w), v.round.acted);
    }
  }

  /** Where an all-in-free hand can stand after an action: still in play, over because one seat is
      left, or at showdown with everybody left having put in the same `base`. */
  ghost predicate Stands(v: View, base: nat, i: nat)
  {
    match v.snapshot.status
    case Running => InPlay(v, base, i)
    case Settled => v.snapshot.actingSeatId.None? && |Unfolded(v)| <= 1
    case Showdown => v.snapshot.actingSeatId.None? && v.snapshot.street == ShowdownStreet && Squared(v, base)
    case _ => false
  }

  /** Either nothing that the measure reads has changed, or a street was completed. */
  ghost predicate NoSlower(v: View, w: View)
  {
    || (w.snapshot.street == v.snapshot.street && w.round.currentBet == v.round.currentBet
        && Unfolded(w) == Unfolded(v) && w.round.acted == v.round.acted)
    || StreetsLeft(w.snapshot.street) < StreetsLeft(v.snapshot.street)
  }

  lemma {:induction false} RoundClosed(v: View, base: nat, i: nat) returns (j: nat)
    requires JustActed(v, base, i) && |Unfolded(v)| >= 2 && RoundComplete(v)
    ensures Stands(AdvanceStreet(v).0, base + v.round.currentBet, j)
    ensures AdvanceStreet(v).0.snapshot.status == Running ==> NoSlower(v, AdvanceStreet(v).0)
  {
    j := 0;
    if NextStreet(v.snapshot.street).Some? {
      j := StreetOpens(v, base, i);
    } else {
      HandClosesSquared(v, base, i);
    }
  }

  lemma {:induction false} TurnPassed(v: View, base: nat, i: nat, w: View) returns (base': nat, j: nat)
    requires JustActed(v, base, i) && w == AdvanceTurn(v, Sorted(v.hand.seated)[i]).0
    ensures Stands(w, base', j)
    ensures w.snapshot.status == Running ==> NoSlower(v, w)
  {
    base', j := base, 0;
    if |Unfolded(v)| >= 2 {
      if RoundComplete(v) {
        base' := base + v.round.currentBet;
        j := RoundClosed(v, base, i);
        assert w == AdvanceStreet(v).0;
      } else {
        j := TurnMoves(v, base, i);
        assert w == WithActor(v, Some(NextToAct(v, Sorted(v.hand.seated)[i])));
      }
    }
  }

  lemma {:induction false} RankFalls(v: View, x: View, w: View, seat: SeatId)
    requires x.snapshot.street == v.snapshot.street
    requires || (x.round.currentBet == v.round.currentBet
                 && seat in Unfolded(v) - v.round.acted && OneFewerToAct(v, x, seat))
             || x.round.currentBet > v.round.currentBet
    requires NoSlower(x, w)
    ensures Rank(w) < Rank(v)
  {
    FewSeats(Unfolded(x) - x.round.acted);
    FewSeats(Unfolded(w) - w.round.acted);
  }

  /** What an accepted action that is not an all-in records before the turn moves on. */
  lemma {:induction false} StepRecorded(v: View, base: nat, i: nat, a: PlayerAction) returns (x: View)
    requires ChipsInv(v) && InPlay(v, base, i)
    requires Apply(v, a).1.Accepted? && a.actionType != AllIn
    ensures a.seatId == Sorted(v.hand.seated)[i] && x.hand.seated == v.hand.seated
    ensures Apply(v, a).0 == AdvanceTurn(x, a.seatId).0
    ensures JustActed(x, base, i) && x.snapshot.street == v.snapshot.street
    ensures || (x.round.currentBet == v.round.currentBet && OneFewerToAct(v, x, a.seatId))
            || x.round.currentBet > v.round.currentBet
  {
    var seat := a.seatId;
    match Rule(v, a) {
      case Folds =>
        x := Recorded(WithFold(v, seat), seat, false);
        FoldRecorded(v, base, i, seat, x);
      case Checks =>
        x := Recorded(v, seat, false);
        CheckRecorded(v, base, i, seat, x);
      case BetsTo(target) =>
        x := Recorded(BetPaid(v, a, target), seat, target > v.round.currentBet);
        BetRecorded(v, base, i, a, target, x);
    }
  }

  /** One accepted action that is not an all-in: the invariant is kept and the measure falls. */
  lemma {:induction false} StepInPlay(v: View, base: nat, i: nat, a: PlayerAction) returns (base': nat, j: nat)
    requires ChipsInv(v) && InPlay(v, base, i)
    requires Apply(v, a).1.Accepted? && a.actionType != AllIn
    ensures Stands(Apply(v, a).0, base', j)
    ensures Apply(v, a).0.snapshot.status == Running ==> Rank(Apply(v, a).0) < Rank(v)
  {
    var x := StepRecorded(v, base, i, a);
    base', j := TurnPassed(x, base, i, Apply(v, a).0);
    if Apply(v, a).0.snapshot.status == Running {
      RankFalls(v, x, Apply(v, a).0, a.seatId);
    }
  }

  // ----- whole hands -----

  function Play(v: View, actions: seq<PlayerAction>): (w: View)
    decreases |actions|
  {
    if actions == [] then v else Play(Apply(v, actions[0]).0, actions[1..])
  }

  predicate AllAccepted(v: View, actions: seq<PlayerAction>)
    decreases |actions|
  {
    actions == [] || (Apply(v, actions[0]).1.Accepted? && AllAccepted(Apply(v, actions[0]).0, actions[1..]))
  }

  lemma {:induction false} PlayFirst(v: View, a: PlayerAction, rest: seq<PlayerAction>)
    requires Apply(v, a).1.Accepted? && AllAccepted(Apply(v, a).0, rest)
    ensures AllAccepted(v, [a] + rest) && Play(v, [a] + rest) == Play(Apply(v, a).0, rest)
  {
    assert ([a] + rest)[1..] == rest;
  }

  predicate NoAllIn(actions: seq<PlayerAction>)
  {
    forall k :: 0 <= k < |actions| ==> actions[k].actionType != AllIn
  }

  /** No action on the way pushes the pot past 128 bits; refusals of any other kind are welcome. */
  predicate NoneOverflow(v: View, actions: seq<PlayerAction>)
    decreases |actions|
  {
    actions == [] || (!WouldOverflow(v, actions[0]) && NoneOverflow(Apply(v, actions[0]).0, actions[1..]))
  }

  /** The actions that are accepted on the way. */
  function Kept(v: View, actions: seq<PlayerAction>): (r: seq<PlayerAction>)
    decreases |actions|
  {
    if actions == [] then []
    else (if Apply(v, actions[0]).1.Accepted? then [actions[0]] else []) + Kept(Apply(v, actions[0]).0, actions[1..])
  }

  /** Short of an overflow, refused actions leave no trace. */
  lemma {:induction false} RefusalsDropOut(v: View, actions: seq<PlayerAction>)
    requires ChipsInv(v) && NoneOverflow(v, actions)
    ensures AllAccepted(v, Kept(v, actions)) && Play(v, Kept(v, actions)) == Play(v, actions)
    decreases |actions|
  {
    if actions != [] {
      var next := Apply(v, actions[0]).0;
      ApplyChips(v, actions[0]);
      RefusalsDropOut(next, actions[1..]);
      if Apply(v, actions[0]).1.Accepted? {
        assert Kept(v, actions)[1..] == Kept(next, actions[1..]);
      } else {
        RefusalKeepsState(v, actions[0]);
        assert Kept(v, actions) == Kept(v, actions[1..]);
      }
    }
  }

  /** Once nobody is to act, nothing more is accepted. */
  lemma {:induction false} NothingAfterTheEnd(v: View, actions: seq<PlayerAction>)
    requires v.snapshot.actingSeatId.None? && AllAccepted(v, actions)
    ensures actions == []
  {
  }

  /** Every all-in-free way of playing on keeps the invariant, and no way of playing on is longer
      than the measure allows. */
  lemma {:induction false} PlayOn(v: View, base: nat, i: nat, actions: seq<PlayerAction>) returns (base': nat, j: nat)
    requires ChipsInv(v) && Stands(v, base, i) && AllAccepted(v, actions) && NoAllIn(actions)
    ensures ChipsInv(Play(v, actions)) && Stands(Play(v, actions), base', j)
    ensures |actions| <= if v.snapshot.status == Running then Rank(v) + 1 else 0
    decreases |actions|
  {
    base', j := base, i;
    if v.snapshot.status != Running {
      NothingAfterTheEnd(v, actions);
    } else if actions != [] {
      base', j := StepInPlay(v, base, i, actions[0]);
      ApplyChips(v, actions[0]);
      base', j := PlayOn(Apply(v, actions[0]).0, base', j, actions[1..]);
    }
  }

  /** In play there is always something to do: the seat to act may fold. */
  lemma {:induction false} NeverStuck(v: View, base: nat, i: nat) returns (a: PlayerAction)
    requires InPlay(v, base, i)
    ensures a.actionType != AllIn && Apply(v, a).1.Accepted?
  {
    a := PlayerAction(v.snapshot.nextActionSeq, Sorted(v.hand.seated)[i], Fold, None);
  }

  // ----- dealing -----

  /** No seat at the table is still marked all-in, at least two are not marked folded, and the first
      to act is one of them. */
  ghost predicate FairStart(v: View)
  {
    SortedSpec(v.hand.seated);
    && v.hand.allIn !! v.hand.seated
    && |Unfolded(v)| >= 2
    && (|v.hand.seated| >= 2 ==> Blinds(NextHandNo(v.snapshot), Sorted(v.hand.seated)).2 !in v.hand.folded)
  }

  lemma {:induction false} DealtInOrder(v: View, deck: seq<Card>, handId: nat)
    requires CheckDeal(v, deck).None?
    ensures Level(Dealt(v, deck, handId), 0)
  {
    var order := Sorted(v.hand.seated);
    SortedSpec(v.hand.seated);
    assert forall i :: 0 <= i < |order| ==> order[i] in Members(order);
  }

  /** A deal starts a hand in play if and only if the marks left by earlier hands permit it. */
  lemma {:induction false} DealStartsPlay(v: View, deck: seq<Card>, handId: nat)
    requires CheckDeal(v, deck).None?
    ensures (exists base, i :: InPlay(Dealt(v, deck, handId), base, i)) <==> FairStart(v)
    ensures FairStart(v) ==> exists i :: InPlay(Dealt(v, deck, handId), 0, i)
  {
    var w := Dealt(v, deck, handId);
    var order := Sorted(v.hand.seated);
    SortedSpec(v.hand.seated);
    DealtInOrder(v, deck, handId);
    var first := Blinds(NextHandNo(v.snapshot), order).2;
    assert Unfolded(w) == Unfolded(v);
    if FairStart(v) {
      var i :| 0 <= i < |order| && order[i] == first;
      assert order[i] in Members(order);
      assert InPlay(w, 0, i);
    }
  }

  /** A hand dealt on a fair start in which no all-in is accepted and nothing overflows: wherever it is
      cut off, whatever was refused on the way, it is in play with its turn order intact, over with one
      seat left, or at showdown with equal stakes; and it has a bounded number of accepted actions. */
  lemma {:induction false} HandFromDeal(v: View, deck: seq<Card>, handId: nat, actions: seq<PlayerAction>)
    returns (base: nat, j: nat)
    requires CheckDeal(v, deck).None? && FairStart(v)
    requires NoneOverflow(Dealt(v, deck, handId), actions) && NoAllIn(Kept(Dealt(v, deck, handId), actions))
    ensures ChipsInv(Play(Dealt(v, deck, handId), actions))
    ensures Stands(Play(Dealt(v, deck, handId), actions), base, j)
    ensures |Kept(Dealt(v, deck, handId), actions)| <= Rank(Dealt(v, deck, handId)) + 1
  {
    DealStartsPlay(v, deck, handId);
    DealtChips(v, deck, handId);
    var dealt := Dealt(v, deck, handId);
    var i :| InPlay(dealt, 0, i);
    RefusalsDropOut(dealt, actions);
    base, j := PlayOn(dealt, 0, i, Kept(dealt, actions));
  }
}
