/** What becomes of turn order and progress once a seat is all-in. */
module EngineAllIns {
  import opened Money
  import opened Seats
  import opened Pots
  import opened EngineModel
  import opened EngineMoney
  import opened EngineTurns
  import opened EngineDealing
  import opened EngineRaises
  import opened EngineCheckDown

  // ----- who the street waits for -----

  /** The round wants `s` to act, but the turn skips `s`: it is all-in, has not acted on this street
      and is not the seat to act. */
  predicate Waiting(v: View, s: SeatId)
  {
    && s in Unfolded(v) && s in v.hand.allIn && s !in v.round.acted
    && v.snapshot.actingSeatId.Some? && v.snapshot.actingSeatId.value != s
  }

  predicate Stalled(v: View)
  {
    exists s :: s in Unfolded(v) && Waiting(v, s)
  }

  predicate Unraised(v: View, a: PlayerAction)
  {
    Rule(v, a).BetsTo? ==> Rule(v, a).target <= v.round.currentBet
  }

  predicate UnraisedRun(v: View, actions: seq<PlayerAction>)
    decreases |actions|
  {
    actions == [] || (Unraised(v, actions[0]) && UnraisedRun(Apply(v, actions[0]).0, actions[1..]))
  }

  lemma {:induction false} FirstWantedIsWanted(order: seq<SeatId>, start: nat, step: nat, wanted: set<SeatId>)
    ensures FirstWanted(order, start, step, wanted).Some? ==> FirstWanted(order, start, step, wanted).value in wanted
    decreases |order| + 1 - step
  {
    if step <= |order| && order != [] {
      FirstWantedIsWanted(order, start, step + 1, wanted);
    }
  }

  /** While the street lasts the turn goes to a seat that can act. */
  lemma {:induction false} NextIsActionable(x: View, seat: SeatId)
    requires Actionable(x) != {}
    ensures NextToAct(x, seat) in Actionable(x)
  {
    SortedSpec(Actionable(x));
    assert Sorted(Actionable(x))[0] in Members(Sorted(Actionable(x)));
    var p := Position(Sorted(x.hand.seated), seat);
    if p.Some? {
      FirstWantedIsWanted(Sorted(x.hand.seated), p.value, 1, Actionable(x));
    }
  }

  // ----- a stalled street stays open -----

  /** Without a raise the awaited seat stays awaited in what is recorded. */
  lemma {:induction false} StillAwaited(v: View, s: SeatId, a: PlayerAction)
    requires Waiting(v, s) && Apply(v, a).1.Accepted? && Unraised(v, a)
    ensures var x := AfterAction(v, a);
            && s in Unfolded(x) && s in x.hand.allIn && s !in x.round.acted && !RoundComplete(x)
            && x.snapshot.street == v.snapshot.street && x.snapshot.boardCards == v.snapshot.boardCards
  {
    assert a.seatId != s;
  }

  /** Either somebody can act and the street goes on waiting for `s`, or the hand is over. */
  lemma {:induction false} StillWaiting(v: View, s: SeatId, a: PlayerAction)
    requires Waiting(v, s) && Apply(v, a).1.Accepted? && Unraised(v, a)
    ensures var x, w := AfterAction(v, a), Apply(v, a).0;
            && Unfolded(w) == Unfolded(x) && Actionable(w) == Actionable(x)
            && if |Unfolded(w)| >= 2 && Actionable(w) != {}
               then Waiting(w, s) && w.snapshot.street == v.snapshot.street
                    && w.snapshot.boardCards == v.snapshot.boardCards
               else w.snapshot.actingSeatId.None?
  {
    StillAwaited(v, s, a);
    var x := AfterAction(v, a);
    assert Apply(v, a).0 == AdvanceTurn(x, a.seatId).0;
    if Actionable(x) != {} {
      NextIsActionable(x, a.seatId);
    }
  }

  /** A street that waits for an all-in seat cannot be closed by folds, checks, calls or all-ins that do
      not raise, however many there are, as long as two seats are unfolded and one can act. */
  lemma {:induction false} StreetStaysOpen(v: View, s: SeatId, actions: seq<PlayerAction>)
    requires Waiting(v, s) && AllAccepted(v, actions) && UnraisedRun(v, actions)
    requires |Unfolded(v)| >= 2 && Actionable(v) != {}
    ensures var w := Play(v, actions);
            if |Unfolded(w)| >= 2 && Actionable(w) != {}
            then Waiting(w, s) && w.snapshot.street == v.snapshot.street
                 && w.snapshot.boardCards == v.snapshot.boardCards
            else w.snapshot.actingSeatId.None?
    decreases |actions|
  {
    if actions != [] {
      var w := Apply(v, actions[0]).0;
      StillWaiting(v, s, actions[0]);
      if |Unfolded(w)| >= 2 && Actionable(w) != {} {
        StreetStaysOpen(w, s, actions[1..]);
      } else {
        NothingAfterTheEnd(w, actions[1..]);
      }
    }
  }

  // ----- and can go on for ever -----

  /** Everybody can still call the bet without the pot overflowing. */
  ghost predicate CallsFit(v: View)
  {
    v.pot.mainPot + SEAT_LIMIT * v.round.currentBet <= U128_MAX + Total(v.round.playerBets)
  }

  lemma {:induction false} CallStillFits(v: View, seat: SeatId)
    requires ChipsInv(v) && CallsFit(v) && SeatBet(v, seat) < v.round.currentBet
    ensures !PotOverflows(v, seat, v.round.currentBet - SeatBet(v, seat))
    ensures CallsFit(BetPaid(v, PassiveMove(v, seat), v.round.currentBet))
  {
    var bets := v.round.playerBets[seat := v.round.currentBet];
    TotalUpdate(v.round.playerBets, seat, v.round.currentBet);
    GetUpdate(v.round.playerBets, seat, v.round.currentBet);
    TotalAtMost(bets, v.round.currentBet, SEAT_LIMIT);
    PotOverflowsFirst(v, seat, v.round.currentBet - SeatBet(v, seat));
  }

  /** A call or check is accepted, changes nobody's standing and leaves everybody able to call. */
  lemma {:induction false} PassiveRecorded(v: View, seat: SeatId)
    requires ChipsInv(v) && CallsFit(v) && v.snapshot.actingSeatId == Some(seat)
    ensures Apply(v, PassiveMove(v, seat)).1.Accepted? && Unraised(v, PassiveMove(v, seat))
    ensures var x := AfterAction(v, PassiveMove(v, seat));
            && x.hand == v.hand.(nextActionSeq := x.hand.nextActionSeq) && CallsFit(x)
            && x.round.acted == v.round.acted + {seat} && x.round.currentBet == v.round.currentBet
  {
    if SeatBet(v, seat) < v.round.currentBet {
      CallStillFits(v, seat);
    }
  }

  lemma {:induction false} TwoUnfolded(v: View, s: SeatId, t: SeatId)
    requires s in Unfolded(v) && t in Unfolded(v) && s != t
    ensures |Unfolded(v)| >= 2
  {
    assert |{s, t}| == 2 && {s, t} <= Unfolded(v);
    SubsetSize({s, t}, Unfolded(v));
  }

  lemma {:induction false} OnePass(v: View, s: SeatId, a: PlayerAction)
    requires ChipsInv(v) && CallsFit(v) && Waiting(v, s) && Actionable(v) != {}
    requires a == PassiveMove(v, v.snapshot.actingSeatId.value)
    ensures Apply(v, a).1.Accepted?
    ensures var w := Apply(v, a).0;
            && ChipsInv(w) && CallsFit(w) && Waiting(w, s) && Actionable(w) != {}
            && w.snapshot.street == v.snapshot.street && w.round.currentBet == v.round.currentBet
  {
    PassiveRecorded(v, a.seatId);
    var x := AfterAction(v, a);
    assert Actionable(x) == Actionable(v) && Unfolded(x) == Unfolded(v);
    StillWaiting(v, s, a);
    var t :| t in Actionable(v);
    TwoUnfolded(x, s, t);
    ApplyChips(v, a);
    assert Apply(v, a).0 == WithActor(x, Some(NextToAct(x, a.seatId)));
  }

  /** On a street that waits for an all-in seat, those who can act may check and call for ever: there
      are accepted runs of every length, and the street is still open after each. */
  lemma {:induction false} PassesForEver(v: View, s: SeatId, n: nat) returns (actions: seq<PlayerAction>)
    requires ChipsInv(v) && CallsFit(v) && Waiting(v, s) && Actionable(v) != {}
    ensures |actions| == n && AllAccepted(v, actions) && Passive(actions)
    ensures v.round.currentBet == 0 ==> forall k :: 0 <= k < n ==> actions[k].actionType == Check
    ensures var w := Play(v, actions); Waiting(w, s) && w.snapshot.street == v.snapshot.street
    decreases n
  {
    actions := [];
    if n > 0 {
      var a := PassiveMove(v, v.snapshot.actingSeatId.value);
      OnePass(v, s, a);
      var rest := PassesForEver(Apply(v, a).0, s, n - 1);
      actions := [a] + rest;
      PlayFirst(v, a, rest);
    }
  }

  // ----- when passing closes the street -----

  /** Whoever has acted has matched the bet, is all-in or has folded. */
  ghost predicate Matched(v: View)
  {
    forall s :: s in v.round.acted ==>
      s in v.hand.allIn || s in v.hand.folded || Get(v.round.playerBets, s) == v.round.currentBet
  }

  /** The action completes the betting round. */
  predicate Completes(v: View, a: PlayerAction)
  {
    Apply(v, a).1.Accepted? && |Unfolded(AfterAction(v, a))| > 1 && RoundComplete(AfterAction(v, a))
  }

  /** Folds, checks and calls, the last of which is the first to complete the round. */
  predicate Closes(v: View, actions: seq<PlayerAction>)
    decreases |actions|
  {
    && actions != [] && actions[0].actionType in {Fold, Check, Call}
    && Apply(v, actions[0]).1.Accepted?
    && if Completes(v, actions[0]) then |actions| == 1 else Closes(Apply(v, actions[0]).0, actions[1..])
  }

  lemma {:induction false} WaitingNeverCloses(v: View, s: SeatId, actions: seq<PlayerAction>)
    requires Waiting(v, s)
    ensures !Closes(v, actions)
    decreases |actions|
  {
    if actions != [] && actions[0].actionType in {Fold, Check, Call} && Apply(v, actions[0]).1.Accepted? {
      StillAwaited(v, s, actions[0]);
      StillWaiting(v, s, actions[0]);
      var w := Apply(v, actions[0]).0;
      if w.snapshot.actingSeatId.Some? {
        WaitingNeverCloses(w, s, actions[1..]);
      }
    }
  }

  /** Nobody is awaited in vain: the round is complete or somebody who can act has yet to do so. */
  lemma {:induction false} LateSeat(x: View) returns (late: SeatId)
    requires Matched(x) && Unfolded(x) != {} && !RoundComplete(x)
    requires forall s :: s in Unfolded(x) && s in x.hand.allIn ==> s in x.round.acted
    ensures late in Actionable(x) - x.round.acted
  {
    var s :| s in Unfolded(x) && !(s in x.round.acted && (s in x.hand.allIn || SeatBet(x, s) == x.round.currentBet));
    late := s;
  }

  /** Somebody who can act and has not is at most `d` places ahead of `seat`, unless `seat` itself has
      yet to act or `d` is beyond the table. */
  ghost predicate Ahead(v: View, seat: SeatId, d: nat)
  {
    seat in Unfolded(v) - v.round.acted || d > |Sorted(v.hand.seated)| || Reaches(v, seat, d)
  }

  ghost predicate Reaches(v: View, seat: SeatId, d: nat)
  {
    var order := Sorted(v.hand.seated);
    exists i, p :: 0 <= i < |order| && 1 <= p <= d && p <= |order| && order[i] == seat
                   && At(order, i, p) in Actionable(v) - v.round.acted
  }

  lemma {:induction false} AnyoneAhead(x: View, t: SeatId, late: SeatId)
    requires t in Actionable(x) && late in Actionable(x) - x.round.acted
    ensures Ahead(x, t, |Sorted(x.hand.seated)|)
  {
    var order := Sorted(x.hand.seated);
    SortedSpec(x.hand.seated);
    assert t in Members(order) && late in Members(order);
    if t in x.round.acted {
      var j :| 0 <= j < |order| && order[j] == t;
      var p := Distance(order, j, late);
      assert At(order, j, p) in Actionable(x) - x.round.acted;
    }
  }

  /** The next wanted seat is the one sought `p` places ahead, or brings it closer. */
  lemma {:induction false} NextIsCloser(order: seq<SeatId>, i: nat, p: nat, wanted: set<SeatId>)
    returns (j: nat, d: nat)
    requires i < |order| && 1 <= p <= |order| && At(order, i, p) in wanted
    ensures j < |order| && FirstWanted(order, i, 1, wanted) == Some(order[j]) && d < p
    ensures At(order, j, d) == At(order, i, p)
  {
    var k := FirstWantedSpec(order, i, 1, wanted, p);
    j := if i + k < |order| then i + k else i + k - |order|;
    d := p - k;
  }

  lemma {:induction false} CloserAhead(x: View, seat: SeatId, d: nat) returns (d': nat)
    requires Actionable(x) != {} && Reaches(x, seat, d)
    ensures d' < d && Ahead(x, NextToAct(x, seat), d')
  {
    var order := Sorted(x.hand.seated);
    SortedSpec(x.hand.seated);
    var i, p :| 0 <= i < |order| && 1 <= p <= d && p <= |order| && order[i] == seat
                && At(order, i, p) in Actionable(x) - x.round.acted;
    PositionFound(order, i, 0);
    var j;
    j, d' := NextIsCloser(order, i, p, Actionable(x));
    assert order[j] == NextToAct(x, seat);
    assert At(order, j, d') in Actionable(x) - x.round.acted;
    if d' == 0 {
      assert order[j] in Unfolded(x) - x.round.acted;
    } else {
      assert Reaches(x, order[j], d');
    }
  }

  lemma {:induction false} ReachesStays(v: View, x: View, seat: SeatId, d: nat)
    requires Reaches(v, seat, d) && seat !in Unfolded(v) - v.round.acted
    requires x.hand.seated == v.hand.seated && Actionable(x) == Actionable(v) && x.round.acted == v.round.acted + {seat}
    ensures Reaches(x, seat, d)
  {
    var order := Sorted(v.hand.seated);
    var i, p :| 0 <= i < |order| && 1 <= p <= d && p <= |order| && order[i] == seat
                && At(order, i, p) in Actionable(v) - v.round.acted;
    assert At(order, i, p) in Actionable(x) - x.round.acted;
  }

  lemma {:induction false} PassiveMatched(v: View, seat: SeatId)
    requires ChipsInv(v) && CallsFit(v) && Matched(v) && v.snapshot.actingSeatId == Some(seat)
    requires Apply(v, PassiveMove(v, seat)).1.Accepted?
    ensures Matched(AfterAction(v, PassiveMove(v, seat)))
  {
    assert SeatBet(v, seat) <= v.round.currentBet;
    GetUpdate(v.round.playerBets, seat, v.round.currentBet);
  }

  /** Nobody is awaited in vain, and everybody left could call. */
  ghost predicate Passable(v: View, seat: SeatId)
  {
    && ChipsInv(v) && Matched(v) && CallsFit(v)
    && v.snapshot.actingSeatId == Some(seat) && |Unfolded(v)| >= 2 && !Stalled(v)
  }

  /** One call or check either completes the round or passes the turn among those who can act. */
  lemma {:induction false} PassOn(v: View, seat: SeatId, a: PlayerAction, x: View) returns (t: SeatId)
    requires Passable(v, seat) && a == PassiveMove(v, seat)
    requires Apply(v, a).1.Accepted? && x == AfterAction(v, a) && !Completes(v, a)
    ensures Unfolded(x) == Unfolded(v) && Actionable(x) == Actionable(v)
    ensures x.round.acted == v.round.acted + {seat} && x.hand.seated == v.hand.seated
    ensures Actionable(x) - x.round.acted != {} && t == NextToAct(x, seat) && t in Actionable(x)
    ensures Apply(v, a).0 == WithActor(x, Some(t)) && Passable(Apply(v, a).0, t)
  {
    PassiveRecorded(v, seat);
    PassiveMatched(v, seat);
    assert Unfolded(x) == Unfolded(v);
    forall s | s in Unfolded(x) && s in x.hand.allIn ensures s in x.round.acted {
      assert !Waiting(v, s);
    }
    var late := LateSeat(x);
    NextIsActionable(x, seat);
    t := NextToAct(x, seat);
    ApplyChips(v, a);
    var w := Apply(v, a).0;
    assert w == WithActor(x, Some(t));
    assert !Stalled(w);
  }

  /** Then fewer seats are left to act, or the next of them is closer. */
  lemma {:induction false} PassComesCloser(v: View, seat: SeatId, a: PlayerAction, d: nat) returns (t: SeatId, d': nat)
    requires Passable(v, seat) && Ahead(v, seat, d) && a == PassiveMove(v, seat)
    requires Apply(v, a).1.Accepted? && !Completes(v, a)
    ensures var w := Apply(v, a).0;
            && Passable(w, t) && Ahead(w, t, d')
            && Unfolded(w) - w.round.acted == (Unfolded(v) - v.round.acted) - {seat}
            && (seat in Unfolded(v) - v.round.acted || d' < d)
  {
    var x := AfterAction(v, a);
    t := PassOn(v, seat, a, x);
    var late :| late in Actionable(x) - x.round.acted;
    d' := |Sorted(x.hand.seated)|;
    AnyoneAhead(x, t, late);
    if seat !in Unfolded(v) - v.round.acted && d <= |Sorted(v.hand.seated)| {
      ReachesStays(v, x, seat, d);
      d' := CloserAhead(x, seat, d);
    }
    assert Reaches(x, t, d') ==> Reaches(Apply(v, a).0, t, d');
  }

  lemma {:induction false} PassingCloses(v: View, seat: SeatId, d: nat) returns (actions: seq<PlayerAction>)
    requires Passable(v, seat) && Ahead(v, seat, d)
    ensures Closes(v, actions)
    decreases |Unfolded(v) - v.round.acted|, d
  {
    var a := PassiveMove(v, seat);
    PassiveRecorded(v, seat);
    actions := [a];
    if !Completes(v, a) {
      var t, d' := PassComesCloser(v, seat, a, d);
      var rest := PassingCloses(Apply(v, a).0, t, d');
      actions := [a] + rest;
      assert actions[1..] == rest;
    }
  }

  ghost predicate CanClose(v: View)
  {
    exists actions :: Closes(v, actions)
  }

  lemma {:induction false} StalledCannotClose(v: View)
    requires Stalled(v)
    ensures !CanClose(v)
  {
    var s :| s in Unfolded(v) && Waiting(v, s);
    forall actions ensures !Closes(v, actions) {
      WaitingNeverCloses(v, s, actions);
    }
  }

  /** Every unfolded all-in seat has acted or is the one to act. */
  ghost predicate AllInsDone(v: View)
  {
    forall s :: s in Unfolded(v) && s in v.hand.allIn ==> s in v.round.acted || v.snapshot.actingSeatId == Some(s)
  }

  /** In a state where whoever has acted has matched the bet, calls fit, somebody is to act and two seats
      are unfolded: folds, checks and calls can close the street if and only if every unfolded all-in
      seat has acted or is the one to act. */
  lemma {:induction false} PassingClosesIff(v: View)
    requires ChipsInv(v) && Matched(v) && CallsFit(v) && v.snapshot.actingSeatId.Some? && |Unfolded(v)| >= 2
    ensures CanClose(v) <==> AllInsDone(v)
    ensures Stalled(v) <==> !AllInsDone(v)
  {
    if !AllInsDone(v) {
      var s :| s in Unfolded(v) && s in v.hand.allIn && s !in v.round.acted && v.snapshot.actingSeatId != Some(s);
      assert Waiting(v, s);
      StalledCannotClose(v);
    } else {
      var actions := PassingCloses(v, v.snapshot.actingSeatId.value, |Sorted(v.hand.seated)| + 1);
    }
  }

  // ----- the conditions hold in every run -----

  lemma {:induction false} TurnMatched(x: View, seat: SeatId)
    requires Matched(x)
    ensures Matched(AdvanceTurn(x, seat).0)
  {
  }

  lemma {:induction false} ActionMatched(v: View, a: PlayerAction)
    requires ChipsInv(v) && Matched(v) && Apply(v, a).1.Accepted?
    ensures Matched(AfterAction(v, a)) && Matched(Apply(v, a).0)
  {
    assert SeatBet(v, a.seatId) <= v.round.currentBet;
    if Rule(v, a).BetsTo? {
      GetUpdate(v.round.playerBets, a.seatId, Rule(v, a).target);
    }
    TurnMatched(AfterAction(v, a), a.seatId);
  }

  lemma {:induction false} NextMatched(v: View, e: Event)
    requires ChipsInv(v) && Matched(v) && !Overflows(v, e)
    ensures Matched(Next(v, e))
  {
    if e.Acts? {
      if Apply(v, e.action).1.Accepted? {
        ActionMatched(v, e.action);
      } else {
        RefusalKeepsState(v, e.action);
      }
    }
  }

  /** Short of an overflow, in every state of every run whoever has acted has matched the bet. */
  lemma {:induction false} MatchedOverEveryRun(roomId: nat, handId: nat, handNo: U64, events: seq<Event>)
    requires NoOverflow(Opened(roomId, handId, handNo), events)
    ensures Matched(Run(Opened(roomId, handId, handNo), events))
  {
    if events != [] {
      var init := events[..|events| - 1];
      MatchedOverEveryRun(roomId, handId, handNo, init);
      ChipsOverEveryRun(roomId, handId, handNo, init);
      NextMatched(Run(Opened(roomId, handId, handNo), init), events[|events| - 1]);
    }
  }

  /** Only seated players have chips in the pot, and only they are asked to act. */
  ghost predicate SeatedOnly(v: View)
  {
    && PaidBy(v.pot.contributions, v.hand.seated)
    && (v.snapshot.actingSeatId.Some? ==> v.snapshot.actingSeatId.value in v.hand.seated)
  }

  ghost predicate PaidBy(paid: ChipMap, seats: set<SeatId>)
  {
    forall s: SeatId :: Get(paid, s) > 0 ==> s in seats
  }

  lemma {:induction false} TurnSeatedOnly(x: View, seat: SeatId)
    requires PaidBy(x.pot.contributions, x.hand.seated)
    ensures SeatedOnly(AdvanceTurn(x, seat).0)
  {
    if |Unfolded(x)| > 1 {
      var j := LeftSeatFound(x);
      if Actionable(x) != {} {
        NextIsActionable(x, seat);
      }
    }
  }

  lemma {:induction false} ActionSeatedOnly(v: View, a: PlayerAction)
    requires SeatedOnly(v)
    ensures SeatedOnly(Apply(v, a).0)
  {
    if Apply(v, a).1.Accepted? {
      var x := AfterAction(v, a);
      if Rule(v, a).BetsTo? {
        var delta := Rule(v, a).target - SeatBet(v, a.seatId);
        GetUpdate(v.pot.contributions, a.seatId, Contributed(v, a.seatId) + delta);
      }
      assert x.hand.seated == v.hand.seated && PaidBy(x.pot.contributions, x.hand.seated);
      TurnSeatedOnly(x, a.seatId);
    }
  }

  lemma {:induction false} DealSeatedOnly(v: View, deck: seq<Card>, handId: nat)
    requires CheckDeal(v, deck).None?
    ensures SeatedOnly(Dealt(v, deck, handId))
  {
    var order := Sorted(v.hand.seated);
    SortedSpec(v.hand.seated);
    assert forall i :: 0 <= i < |order| ==> order[i] in Members(order);
  }

  /** In every state of every run only seated players have chips in the pot. */
  lemma {:induction false} SeatedOverEveryRun(roomId: nat, handId: nat, handNo: U64, events: seq<Event>)
    ensures SeatedOnly(Run(Opened(roomId, handId, handNo), events))
  {
    if events != [] {
      var init, e := events[..|events| - 1], events[|events| - 1];
      SeatedOverEveryRun(roomId, handId, handNo, init);
      var v := Run(Opened(roomId, handId, handNo), init);
      match e
      case SeatJoins(seat) =>
      case HandDealt(deck, id) =>
        if CheckDeal(v, deck).None? {
          DealSeatedOnly(v, deck, id);
        }
      case Acts(a) => ActionSeatedOnly(v, a);
    }
  }

  /** A completed round opens a street that is stalled if and only if an unfolded seat other than the
      first left of the button is all-in. */
  lemma {:induction false} OpensStalledIff(v: View, a: PlayerAction)
    requires Completes(v, a) && NextStreet(v.snapshot.street).Some?
    ensures var x := AfterAction(v, a);
            && Unfolded(x) != {}
            && (Stalled(Apply(v, a).0) <==>
                  exists s :: s in Unfolded(x) && s in x.hand.allIn && s != LeftOfButton(x))
  {
    var x, w := AfterAction(v, a), Apply(v, a).0;
    assert w == AdvanceStreet(x).0 && Unfolded(w) == Unfolded(x);
    if s :| s in Unfolded(x) && s in x.hand.allIn && s != LeftOfButton(x) {
      assert Waiting(w, s);
    }
  }

  /** The index of the button: the hands go round the table from the first seat on. */
  function ButtonAt(handNo: U64, seats: nat): (d: nat)
    requires seats > 0
    ensures d < seats
  {
    (if handNo == 0 then 0 else handNo - 1) % seats
  }

  lemma {:induction false} LeftOfButtonAt(x: View) returns (k: nat)
    requires Unfolded(x) != {}
    ensures var order := Sorted(x.hand.seated);
            && 1 <= k <= |order|
            && var d := ButtonAt(x.snapshot.handNo, |order|);
               && LeftOfButton(x) == At(order, d, k) && At(order, d, k) in Unfolded(x)
               && forall p :: 1 <= p < k ==> At(order, d, p) in x.hand.folded
  {
    var order := Sorted(x.hand.seated);
    SortedSpec(x.hand.seated);
    var someone :| someone in Unfolded(x);
    assert someone in Members(order);
    var d := DealerIndex(x.snapshot.handNo, |order|);
    var last := |order|;
    if someone != order[d] {
      last := Distance(order, d, someone);
    }
    k := FirstWantedSpec(order, d, 1, Unfolded(x), last);
    forall p | 1 <= p < k ensures At(order, d, p) in x.hand.folded {
      assert At(order, d, p) in Members(order);
    }
  }

  /** An action that completes a round with a street to follow gives the turn to the first seat to the left of
      the button, `k` places on, that has not folded. */
  lemma {:induction false} OpensLeftOfButton(v: View, a: PlayerAction) returns (k: nat)
    requires Completes(v, a) && NextStreet(v.snapshot.street).Some?
    ensures var order := Sorted(v.hand.seated);
            |order| >= 2 && Holder(Button, v.snapshot.handNo, order) == order[ButtonAt(v.snapshot.handNo, |order|)]
    ensures var order, w := Sorted(v.hand.seated), Apply(v, a).0;
            && 1 <= k <= |order| && w.hand.seated == v.hand.seated
            && var d := ButtonAt(v.snapshot.handNo, |order|);
               && w.snapshot.actingSeatId == Some(At(order, d, k)) && At(order, d, k) in Unfolded(w)
               && forall p :: 1 <= p < k ==> At(order, d, p) in w.hand.folded
  {
    var x := AfterAction(v, a);
    k := LeftOfButtonAt(x);
    SortedSpec(x.hand.seated);
    SubsetSize(Unfolded(x), x.hand.seated);
    StreetOpenedBy(x, a.seatId);
  }

  lemma {:induction false} StreetOpenedBy(x: View, seat: SeatId)
    requires |Unfolded(x)| > 1 && RoundComplete(x) && NextStreet(x.snapshot.street).Some?
    ensures var w := AdvanceTurn(x, seat).0;
            w.hand == x.hand.(street := w.hand.street, actingSeatId := w.hand.actingSeatId)
            && w.snapshot.actingSeatId == Some(LeftOfButton(x))
  {
  }

  // ----- when an all-in seat is asked to act, and when the board stays short -----

  /** After an accepted action the seat to act is all-in if and only if the action completed a round with
      a street to follow and the first unfolded seat left of the button is all-in. */
  lemma {:induction false} ActorAllInIff(v: View, a: PlayerAction)
    requires Apply(v, a).1.Accepted?
    ensures var x, w := AfterAction(v, a), Apply(v, a).0;
            w.snapshot.actingSeatId.Some? && w.snapshot.actingSeatId.value in w.hand.allIn <==>
              Completes(v, a) && NextStreet(v.snapshot.street).Some? && LeftOfButton(x) in x.hand.allIn
  {
    var x := AfterAction(v, a);
    assert Apply(v, a).0 == AdvanceTurn(x, a.seatId).0 && x.snapshot.street == v.snapshot.street;
    if Actionable(x) != {} {
      NextIsActionable(x, a.seatId);
    }
  }

  lemma {:induction false} NobodyCanAct(x: View)
    requires Actionable(x) == {} && Unfolded(x) != {}
    ensures RoundComplete(x) <==> forall s :: s in Unfolded(x) ==> s in x.round.acted
  {
    forall s | s in Unfolded(x) ensures s in x.hand.allIn {
      assert s !in Actionable(x);
    }
  }

  lemma {:induction false} ShortTurnIff(x: View, seat: SeatId)
    requires BoardShown(x) && x.snapshot.status == Running
    ensures var w := AdvanceTurn(x, seat).0;
            w.snapshot.status == Showdown && w.snapshot.boardCards != x.dealing.value.boardCards <==>
              && x.snapshot.boardCards != x.dealing.value.boardCards
              && |Unfolded(x)| >= 2 && Actionable(x) == {} && exists s :: s in Unfolded(x) && s !in x.round.acted
  {
    var board := x.dealing.value.boardCards;
    assert Take(board, |board|) == board;
    if |Unfolded(x)| >= 2 {
      if Actionable(x) == {} {
        NobodyCanAct(x);
      }
    }
  }

  /** An accepted action leads to a showdown that hides part of the dealt board if and only if part of it
      is still hidden, two seats remain, none of them can act, and one of them has not acted. */
  lemma {:induction false} ShortShowdownIff(v: View, a: PlayerAction)
    requires BoardShown(v) && v.snapshot.status == Running && Apply(v, a).1.Accepted?
    ensures var x, w := AfterAction(v, a), Apply(v, a).0;
            w.snapshot.status == Showdown && w.snapshot.boardCards != v.dealing.value.boardCards <==>
              && v.snapshot.boardCards != v.dealing.value.boardCards
              && |Unfolded(x)| >= 2 && Actionable(x) == {} && exists s :: s in Unfolded(x) && s !in x.round.acted
  {
    ShortTurnIff(AfterAction(v, a), a.seatId);
  }
}
