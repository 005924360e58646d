/** From the deal to the wallet: what is paid out for a whole hand. */
module HandPaidOut {
  import opened Money
  import opened Seats
  import opened PotTheorems
  import opened Settlement
  import opened SettlementTheorems
  import opened ShowdownEval
  import opened ShowdownSettlement
  import opened EngineModel
  import opened EngineMoney
  import opened EngineTurns
  import opened Payouts
  import opened PayoutTheorems

  datatype SettleError = NotPlanned(planning: PlanError) | NotPaid(paying: PayoutError)

  /** Plans the showdown and pays the plan out. A hand that cannot be planned changes nothing. */
  method SettleShowdown(
    desk: PayoutDesk, strength: Strength, v: View, input: ShowdownInput, bps: U16,
    addresses: map<SeatId, string>, minConfirmations: nat, wallet: Wallet, room: Result<(), string>)
    returns (r: Result<Plan, SettleError>)
    modifies desk
    ensures match SettlementPlan(strength, v, input, bps)
            case Err(e) => r == Err(NotPlanned(e)) && desk.Now() == old(desk.Now())
            case Ok(plan) =>
              var (books, paid) := Settle(old(desk.Now()), plan, addresses, minConfirmations, wallet, room);
              desk.Now() == books && r == if paid.Ok? then Ok(plan) else Err(NotPaid(paid.error))
  {
    var planned := BuildSettlementPlan(strength, v, input, bps);
    if planned.Err? {
      return Err(NotPlanned(planned.error));
    }
    var paid := desk.SettleDirect(planned.value, addresses, minConfirmations, wallet, room);
    r := if paid.Ok? then Ok(planned.value) else Err(NotPaid(paid.error));
  }

  /** A hand in which no all-in was accepted, played from a fair deal to showdown and then closed by direct
      settlement: the confirmed transfers plus the rake are the pot, to the chip, and so are the ledger
      entries, if and only if the shares reach it, as they do for any pot whose square fits 128 bits. Every
      transfer goes to the own address of a seat that holds a best hand. */
  lemma {:induction false} PotPaidOut(
    v: View, deck: seq<Card>, handId: nat, actions: seq<PlayerAction>, w: View,
    strength: Strength, input: ShowdownInput, bps: U16,
    b: Books, addresses: map<SeatId, string>, minConfirmations: nat, wallet: Wallet, room: Result<(), string>)
    returns (plan: Plan, transfers: seq<Transfer>, entries: seq<LedgerEntry>)
    requires CheckDeal(v, deck).None? && FairStart(v)
    requires NoneOverflow(Dealt(v, deck, handId), actions) && NoAllIn(Kept(Dealt(v, deck, handId), actions))
    requires w == Play(Dealt(v, deck, handId), actions) && w.snapshot.status == HandStatus.Showdown
    requires Shown(w, input) && bps <= BPS
    requires SettlementPlan(strength, w, input, bps).Ok? ==>
               var planned := SettlementPlan(strength, w, input, bps).value;
               Settle(b, planned, addresses, minConfirmations, wallet, room).0.closed != b.closed
    ensures SettlementPlan(strength, w, input, bps) == Ok(plan) && Delivered(plan, addresses, minConfirmations, wallet)
    ensures Settle(b, plan, addresses, minConfirmations, wallet, room).0.sent == b.sent + transfers
    ensures Settle(b, plan, addresses, minConfirmations, wallet, room).0.ledger == b.ledger + entries
    ensures SumTransfers(transfers) + plan.rakeAmount == SumEntries(entries) <= w.snapshot.potTotal
    ensures AwardsFor(strength, w, input).Some?
    ensures SumEntries(entries) == w.snapshot.potTotal <==>
              SharesReach(AwardsFor(strength, w, input).value, plan.rakeAmount)
    ensures w.snapshot.potTotal * w.snapshot.potTotal <= U128_MAX ==> SumEntries(entries) == w.snapshot.potTotal
    ensures PaysBest(strength, w, input, bps, plan) && Booked(plan, entries)
    ensures forall k :: 0 <= k < |transfers| ==>
              && HoldsBest(strength, input, Some(Sorted(Unfolded(w))), transfers[k].toSeat)
              && transfers[k].toSeat in addresses && transfers[k].toAddress == addresses[transfers[k].toSeat]
  {
    var stake;
    stake, plan := WholeHandConserves(v, deck, handId, actions, w, strength, input, bps);
    transfers, entries := ClosedMeansPaid(b, plan, addresses, minConfirmations, wallet, room);
    forall k | 0 <= k < |transfers|
      ensures && HoldsBest(strength, input, Some(Sorted(Unfolded(w))), transfers[k].toSeat)
              && transfers[k].toSeat in addresses && transfers[k].toAddress == addresses[transfers[k].toSeat]
    {
      var p := Due(plan.payouts)[k];
      assert p in plan.payouts && Pays(plan, p, addresses, transfers[k]);
    }
  }

  /** In any state of any run, all-ins included: a hand closed by direct settlement has had its whole pot paid
      out or raked, except what the largest contribution exceeds the next by, if and only if the shares
      reach the layers. */
  lemma {:induction false} AnyPotPaidOut(
    roomId: nat, handId: nat, handNo: U64, events: seq<Event>, w: View, strength: Strength, input: ShowdownInput,
    bps: U16,
    plan: Plan, b: Books, addresses: map<SeatId, string>, minConfirmations: nat, wallet: Wallet, room: Result<(),
    string>)
    returns (transfers: seq<Transfer>)
    requires w == Run(Opened(roomId, handId, handNo), events)
    requires SettlementPlan(strength, w, input, bps) == Ok(plan)
    requires Settle(b, plan, addresses, minConfirmations, wallet, room).0.closed != b.closed
    ensures Delivered(plan, addresses, minConfirmations, wallet)
    ensures Settle(b, plan, addresses, minConfirmations, wallet, room).0.sent == b.sent + transfers
    ensures AwardsFor(strength, w, input).Some?
    ensures var excess := Largest(w.pot.contributions) - RunnerUp(w.pot.contributions);
            SumTransfers(transfers) + plan.rakeAmount + excess == w.snapshot.potTotal <==>
              SharesReach(AwardsFor(strength, w, input).value, plan.rakeAmount)
  {
    ChipsOverEveryRun(roomId, handId, handNo, events);
    PlanMissesExcess(strength, w, input, bps, plan);
    var entries;
    transfers, entries := ClosedMeansPaid(b, plan, addresses, minConfirmations, wallet, room);
  }
}
