/** The snapshot shown to players and the state behind it tell the same story. */
module EngineSnapshot {
  import opened Money
  import opened Seats
  import opened EngineModel
  import opened EngineMoney

  /** The copies of hand id, street, sequence number and acting seat agree. */
  predicate Mirrored(v: View)
  {
    && v.snapshot.handId == v.hand.handId
    && v.snapshot.street == v.hand.street
    && v.snapshot.nextActionSeq == v.hand.nextActionSeq
    && v.snapshot.actingSeatId == v.hand.actingSeatId == v.round.actingSeatId
  }

  lemma {:induction false} TurnMirrored(x: View, seat: SeatId)
    requires Mirrored(x)
    ensures Mirrored(AdvanceTurn(x, seat).0)
  {
  }

  lemma {:induction false} FinishMirrored(v: View, seat: SeatId, raised: bool)
    requires Mirrored(v)
    ensures Mirrored(Finish(v, seat, raised).0)
  {
    TurnMirrored(Recorded(v, seat, raised), seat);
  }

  lemma {:induction false} ActionMirrored(v: View, a: PlayerAction)
    requires Mirrored(v)
    ensures Mirrored(Apply(v, a).0)
  {
    if a.actionSeq == v.snapshot.nextActionSeq && v.snapshot.actingSeatId == Some(a.seatId) {
      match Rule(v, a)
      case Refused =>
      case Folds => FinishMirrored(WithFold(v, a.seatId), a.seatId, false);
      case Checks => FinishMirrored(v, a.seatId, false);
      case BetsTo(target) =>
        if !PotOverflows(v, a.seatId, target - SeatBet(v, a.seatId)) {
          FinishMirrored(BetPaid(v, a, target), a.seatId, target > v.round.currentBet);
        }
    }
  }

  /** In every state of every run the copies agree. */
  lemma {:induction false} MirroredOverEveryRun(roomId: nat, handId: nat, handNo: U64, events: seq<Event>)
    ensures Mirrored(Run(Opened(roomId, handId, handNo), events))
  {
    if events != [] {
      var init, e := events[..|events| - 1], events[|events| - 1];
      MirroredOverEveryRun(roomId, handId, handNo, init);
      if e.Acts? {
        ActionMirrored(Run(Opened(roomId, handId, handNo), init), e.action);
      }
    }
  }

  // ----- the sequence number -----

  lemma {:induction false} TurnKeepsSeq(x: View, seat: SeatId)
    ensures AdvanceTurn(x, seat).0.snapshot.nextActionSeq == x.snapshot.nextActionSeq
    ensures AdvanceTurn(x, seat).0.snapshot.roomId == x.snapshot.roomId
    ensures AdvanceTurn(x, seat).0.snapshot.handId == x.snapshot.handId
  {
  }

  /** An accepted action moves the sequence number on by one, up to the last 32-bit number, and a refused one
      leaves it. So an accepted action is not accepted again before that. */
  lemma {:induction false} AcceptedOnce(v: View, a: PlayerAction)
    ensures Apply(v, a).1.Accepted? && v.snapshot.nextActionSeq < U32_MAX ==>
              && Apply(v, a).0.snapshot.nextActionSeq == v.snapshot.nextActionSeq + 1
              && Apply(Apply(v, a).0, a) == (Apply(v, a).0, Rejected(ActionIllegal))
    ensures Apply(v, a).1.Accepted? && v.snapshot.nextActionSeq == U32_MAX ==>
              Apply(v, a).0.snapshot.nextActionSeq == U32_MAX
    ensures Apply(v, a).1.Rejected? ==> Apply(v, a).0.snapshot.nextActionSeq == v.snapshot.nextActionSeq
    ensures Apply(v, a).0.snapshot.roomId == v.snapshot.roomId && Apply(v, a).0.snapshot.handId == v.snapshot.handId
  {
    if Apply(v, a).1.Accepted? {
      TurnKeepsSeq(AfterAction(v, a), a.seatId);
    }
  }

  // ----- when a deal succeeds -----

  /** No card appears twice. */
  ghost predicate NoRepeats(deck: seq<Card>)
  {
    forall i, j :: 0 <= i < j < |deck| ==> deck[i] != deck[j]
  }

  lemma {:induction false} OneCardMore(deck: seq<Card>, last: Card)
    ensures NoRepeats(deck + [last]) <==> NoRepeats(deck) && last !in deck
  {
    var more := deck + [last];
    if NoRepeats(more) {
      forall i | 0 <= i < |deck| ensures deck[i] != last {
        assert more[i] != more[|deck|];
      }
      assert forall i, j :: 0 <= i < j < |deck| ==> more[i] == deck[i] && more[j] == deck[j];
    }
  }

  lemma {:induction false} CardsCounted(deck: seq<Card>)
    ensures |CardSet(deck)| <= |deck|
    ensures |CardSet(deck)| == |deck| <==> NoRepeats(deck)
  {
    if deck != [] {
      var init, last := deck[..|deck| - 1], deck[|deck| - 1];
      CardsCounted(init);
      OneCardMore(init, last);
      assert deck == init + [last];
      assert CardSet(deck) == CardSet(init) + {last};
      assert last in init <==> last in CardSet(init);
    }
  }

  /** A deal succeeds if and only if two are seated, no card appears twice, and there are two cards a seat and
      eight more. The first of these that fails, in this order, is the error. */
  lemma {:induction false} DealSucceedsIff(v: View, deck: seq<Card>, handId: nat)
    ensures Deal(v, deck, handId).Ok? <==>
              |v.hand.seated| >= 2 && NoRepeats(deck) && |deck| >= 2 * |v.hand.seated| + 8
    ensures Deal(v, deck, handId) == Err(NotEnoughPlayersToDeal) <==> |v.hand.seated| < 2
    ensures Deal(v, deck, handId) == Err(DuplicateCardsInDeck) <==> |v.hand.seated| >= 2 && !NoRepeats(deck)
  {
    CardsCounted(deck);
  }
}
