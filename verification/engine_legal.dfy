/** The actions the engine offers are the actions it accepts. */
module EngineLegal {
  import opened Money
  import opened EngineModel
  import opened EngineMoney

  /** `a` fits an entry of the offered list: a raise reaches the listed minimum, an all-in names an
      amount above the seat's own street bet. */
  ghost predicate Offered(v: View, a: PlayerAction)
  {
    exists k :: 0 <= k < |LegalActions(v, a.seatId)| && Fits(v, LegalActions(v, a.seatId)[k], a)
  }

  ghost predicate Fits(v: View, offer: LegalAction, a: PlayerAction)
  {
    && offer.actionType == a.actionType
    && (a.actionType == RaiseTo ==>
          a.amount.Some? && offer.minAmount.Some? && offer.minAmount.value <= a.amount.value)
    && (a.actionType == AllIn ==> a.amount.Some? && SeatBet(v, a.seatId) < a.amount.value)
  }

  lemma {:induction false} OfferedByType(v: View, a: PlayerAction)
    requires v.snapshot.actingSeatId == Some(a.seatId)
    ensures a.actionType == Fold ==> Offered(v, a)
    ensures a.actionType == Check ==> (Offered(v, a) <==> v.round.currentBet <= SeatBet(v, a.seatId))
    ensures a.actionType == Call ==> (Offered(v, a) <==> v.round.currentBet > SeatBet(v, a.seatId))
    ensures a.actionType == RaiseTo ==>
              (Offered(v, a) <==> a.amount.Some? && LegalActions(v, a.seatId)[2].minAmount.value <= a.amount.value)
    ensures a.actionType == AllIn ==> (Offered(v, a) <==> a.amount.Some? && SeatBet(v, a.seatId) < a.amount.value)
  {
    var offers := LegalActions(v, a.seatId);
    assert |offers| == 4;
    assert offers[0].actionType == Fold && offers[2].actionType == RaiseTo && offers[3].actionType == AllIn;
    assert Offered(v, a) <==>
        Fits(v, offers[0], a) || Fits(v, offers[1], a) || Fits(v, offers[2], a) || Fits(v, offers[3], a);
  }

  /** With the right sequence number an action is accepted if and only if it is offered, a raise is
      above the bet to match, and the pot can hold it. The middle condition only bites once doubling
      the bet no longer fits 128 bits: there the listed minimum itself is refused. */
  lemma {:induction false} AcceptedIffOffered(v: View, a: PlayerAction)
    requires ChipsInv(v) && a.actionSeq == v.snapshot.nextActionSeq
    ensures Apply(v, a).1.Accepted? <==>
              && Offered(v, a)
              && (a.actionType == RaiseTo ==> a.amount.value > v.round.currentBet)
              && !WouldOverflow(v, a)
    ensures 2 * v.round.currentBet <= U128_MAX ==>
              (Apply(v, a).1.Accepted? <==> Offered(v, a) && !WouldOverflow(v, a))
  {
    if v.snapshot.actingSeatId == Some(a.seatId) {
      OfferedByType(v, a);
      assert SeatBet(v, a.seatId) <= v.round.currentBet;
      if Rule(v, a).BetsTo? {
        PotOverflowsFirst(v, a.seatId, Rule(v, a).target - SeatBet(v, a.seatId));
      }
    }
  }

  /** The same, in every state any run can reach. */
  lemma {:induction false} AcceptedIffOfferedOverEveryRun(roomId: nat, handId: nat, handNo: U64,
                                                          events: seq<Event>, a: PlayerAction)
    requires a.actionSeq == Run(Opened(roomId, handId, handNo), events).snapshot.nextActionSeq
    ensures var v := Run(Opened(roomId, handId, handNo), events);
            && (Apply(v, a).1.Accepted? <==>
                  && Offered(v, a)
                  && (a.actionType == RaiseTo ==> a.amount.value > v.round.currentBet)
                  && !WouldOverflow(v, a))
            && (2 * v.round.currentBet <= U128_MAX ==>
                  (Apply(v, a).1.Accepted? <==> Offered(v, a) && !WouldOverflow(v, a)))
            && (Apply(v, a).1.Rejected? && !WouldOverflow(v, a) ==> Apply(v, a).0 == v)
  {
    ChipsOverEveryRun(roomId, handId, handNo, events);
    var v := Run(Opened(roomId, handId, handNo), events);
    AcceptedIffOffered(v, a);
    if Apply(v, a).1.Rejected? {
      RefusalKeepsState(v, a);
    }
  }
}
