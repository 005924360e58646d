/** Paying a settlement plan out: ledger entries, wallet transfers, settlement records, closing the hand. */
module Payouts {
  import opened Money
  import opened Seats
  import opened Apportion
  import opened Settlement
  import opened SettlementTheorems

  datatype TxStatus = Pending | Confirmed | Failed

  datatype Receipt = Receipt(txHash: string, status: TxStatus, confirmations: nat)

  datatype Transfer = Transfer(roomId: nat, handId: nat, toSeat: SeatId, toAddress: string, amount: Chips)

  datatype Submission = Submission(seatId: SeatId, txHash: string)

  /** What the wallet answers to its k-th request. Nothing is assumed about it. */
  datatype Wallet = Wallet(
    submit: (nat, Transfer) -> Result<string, string>,
    receipt: (nat, string) -> Result<Receipt, string>)

  datatype RecordStatus = MarkedSubmitted | MarkedConfirmed | MarkedPending | MarkedFailed | ManualReviewRequired

  datatype ErrorDetail = ReceiptFailed | ReviewAfterFailure

  datatype Record = Record(
    planId: nat, roomId: nat, handId: nat, txHash: Option<string>,
    status: RecordStatus, retryCount: nat, detail: Option<ErrorDetail>)

  datatype StatusUpdate = StatusUpdate(txHash: string, status: RecordStatus, retryCount: nat,
                                       detail: Option<ErrorDetail>)

  datatype Direction = Credit | Debit

  datatype LedgerEntry = LedgerEntry(
    roomId: nat, handId: nat, seatId: Option<SeatId>, amount: Chips, direction: Direction)

  datatype PayoutError =
    | TotalOverflows
    | MissingAddress(seatId: SeatId)
    | WalletFault(message: string)
    | RoomFault(message: string)

  /** Everything a payout writes to: plans and records, the ledger, what the wallet was asked, and
      the hands the room has closed. Ids from `nextId` on are unused. */
  datatype Books = Books(
    plans: map<nat, Plan>, records: map<nat, Record>, nextId: nat,
    ledger: seq<LedgerEntry>, sent: seq<Transfer>, closed: seq<nat>)

  predicate IdsUsed(b: Books)
  {
    forall id :: id in b.records ==> id < b.nextId
  }

  // ----- settlement records -----

  function Touched(r: Record, u: StatusUpdate): (s: Record)
  {
    if r.txHash == Some(u.txHash) then r.(status := u.status, retryCount := u.retryCount, detail := u.detail) else r
  }

  function Updated(records: map<nat, Record>, u: StatusUpdate): (m: map<nat, Record>)
  {
    map id | id in records :: Touched(records[id], u)
  }

  function UpdateAll(records: map<nat, Record>, updates: seq<StatusUpdate>): (m: map<nat, Record>)
  {
    if updates == [] then records
    else Updated(UpdateAll(records, updates[..|updates| - 1]), updates[|updates| - 1])
  }

  function StatusUpdateFor(r: Receipt): (u: StatusUpdate)
  {
    match r.status
    case Confirmed => StatusUpdate(r.txHash, MarkedConfirmed, 0, None)
    case Pending => StatusUpdate(r.txHash, MarkedPending, 0, None)
    case Failed => StatusUpdate(r.txHash, MarkedFailed, 1, Some(ReceiptFailed))
  }

  function StatusUpdates(receipts: seq<Receipt>): (us: seq<StatusUpdate>)
  {
    if receipts == [] then []
    else StatusUpdates(receipts[..|receipts| - 1]) + [StatusUpdateFor(receipts[|receipts| - 1])]
  }

  /** Every failed receipt sends its record to manual review. */
  function ReviewUpdates(receipts: seq<Receipt>): (us: seq<StatusUpdate>)
  {
    if receipts == [] then []
    else
      var init, last := ReviewUpdates(receipts[..|receipts| - 1]), receipts[|receipts| - 1];
      if last.status == Failed
      then init + [StatusUpdate(last.txHash, ManualReviewRequired, 1, Some(ReviewAfterFailure))]
      else init
  }

  /** The records after the receipts have been written and the failed ones marked for review. */
  function Reviewed(records: map<nat, Record>, receipts: seq<Receipt>): (m: map<nat, Record>)
  {
    UpdateAll(UpdateAll(records, StatusUpdates(receipts)), ReviewUpdates(receipts))
  }

  function SubmittedRecord(planId: nat, plan: Plan, s: Submission): (r: Record)
  {
    Record(planId, plan.roomId, plan.handId, Some(s.txHash), MarkedSubmitted, 0, None)
  }

  function WithRecords(b: Books, planId: nat, plan: Plan, subs: seq<Submission>): (r: Books)
  {
    if subs == [] then b
    else
      var init := WithRecords(b, planId, plan, subs[..|subs| - 1]);
      init.(records := init.records[init.nextId := SubmittedRecord(planId, plan, subs[|subs| - 1])],
            nextId := init.nextId + 1)
  }

  // ----- the ledger -----

  function PayoutEntries(plan: Plan, ps: seq<Payout>): (es: seq<LedgerEntry>)
  {
    if ps == [] then []
    else PayoutEntries(plan, ps[..|ps| - 1])
         + [LedgerEntry(plan.roomId, plan.handId, Some(ps[|ps| - 1].seatId), ps[|ps| - 1].amount, Debit)]
  }

  function Entries(plan: Plan): (es: seq<LedgerEntry>)
  {
    (if plan.rakeAmount != 0 then [LedgerEntry(plan.roomId, plan.handId, None, plan.rakeAmount, Credit)] else [])
    + PayoutEntries(plan, plan.payouts)
  }

  // ----- the wallet -----

  function TransferFor(plan: Plan, p: Payout, address: string): (t: Transfer)
  {
    Transfer(plan.roomId, plan.handId, p.seatId, address, p.amount)
  }

  /** The transfers asked for, and the submissions or the error that ended them. */
  datatype Sending = Sending(transfers: seq<Transfer>, result: Result<seq<Submission>, PayoutError>)

  function Send(plan: Plan, addresses: map<SeatId, string>, wallet: Wallet, n: nat): (s: Sending)
    requires n <= |plan.payouts|
  {
    if n == 0 then Sending([], Ok([]))
    else
      var s := Send(plan, addresses, wallet, n - 1);
      var p := plan.payouts[n - 1];
      if s.result.Err? || p.amount == 0 then s
      else if p.seatId !in addresses then s.(result := Err(MissingAddress(p.seatId)))
      else
        var t := TransferFor(plan, p, addresses[p.seatId]);
        match wallet.submit(|s.transfers|, t)
        case Err(e) => Sending(s.transfers + [t], Err(WalletFault(e)))
        case Ok(hash) => Sending(s.transfers + [t], Ok(s.result.value + [Submission(p.seatId, hash)]))
  }

  /** A confirmation is only believed from the required depth on. */
  function Judged(r: Receipt, minConfirmations: nat): (j: Receipt)
  {
    if r.status == Confirmed && r.confirmations < minConfirmations then r.(status := Pending) else r
  }

  function Receipts(wallet: Wallet, subs: seq<Submission>, minConfirmations: nat): (r: Result<seq<Receipt>,
                    PayoutError>)
  {
    if subs == [] then Ok([])
    else
      var k := |subs| - 1;
      var init := Receipts(wallet, subs[..k], minConfirmations);
      if init.Err? then init
      else
        match wallet.receipt(k, subs[k].txHash)
        case Err(e) => Err(WalletFault(e))
        case Ok(receipt) => Ok(init.value + [Judged(receipt, minConfirmations)])
  }

  // ----- direct settlement -----

  predicate AllConfirmed(receipts: seq<Receipt>)
  {
    forall k :: 0 <= k < |receipts| ==> receipts[k].status == Confirmed
  }

  function Planned(b: Books, plan: Plan): (r: Books)
  {
    b.(plans := b.plans[b.nextId := plan], nextId := b.nextId + 1, ledger := b.ledger + Entries(plan))
  }

  function Closed(b: Books, plan: Plan, receipts: seq<Receipt>, room: Result<(), string>): (r: (Books, Result<Plan,
                  PayoutError>))
  {
    var w := b.(records := Reviewed(b.records, receipts));
    if !AllConfirmed(receipts) then (w, Ok(plan))
    else
      match room
      case Err(e) => (w, Err(RoomFault(e)))
      case Ok(_) => (w.(closed := w.closed + [plan.handId]), Ok(plan))
  }

  /** A plan paid out seat by seat. Whatever was written before an error stays written. */
  function Settle(b: Books, plan: Plan, addresses: map<SeatId, string>, minConfirmations: nat, wallet: Wallet,
                  room: Result<(), string>): (r: (Books, Result<Plan, PayoutError>))
  {
    if SumAmounts(plan.payouts) > U128_MAX then (b, Err(TotalOverflows))
    else
      var sending := Send(plan, addresses, wallet, |plan.payouts|);
      var asked := Planned(b, plan).(sent := b.sent + sending.transfers);
      match sending.result
      case Err(e) => (asked, Err(e))
      case Ok(subs) =>
        var recorded := WithRecords(asked, b.nextId, plan, subs);
        match Receipts(wallet, subs, minConfirmations)
        case Err(e) => (recorded, Err(e))
        case Ok(receipts) => Closed(recorded, plan, receipts, room)
  }

  // ----- the same, in place -----

  class PayoutDesk {
    var plans: map<nat, Plan>
    var records: map<nat, Record>
    var nextId: nat
    var ledger: seq<LedgerEntry>
    var sent: seq<Transfer>
    var closed: seq<nat>

    constructor ()
      ensures Now() == Books(map[], map[], 0, [], [], [])
    {
      plans, records, nextId, ledger, sent, closed := map[], map[], 0, [], [], [];
    }

    ghost function Now(): (b: Books)
      reads this
    {
      Books(plans, records, nextId, ledger, sent, closed)
    }

    method InsertRecord(r: Record)
      modifies this
      ensures Now() == old(Now()).(records := old(records)[old(nextId) := r], nextId := old(nextId) + 1)
    {
      records := records[nextId := r];
      nextId := nextId + 1;
    }

    /** Visits the records one by one, in any order. */
    method UpdateByTxHash(u: StatusUpdate)
      modifies this`records
      ensures records == Updated(old(records), u)
    {
      var todo := records.Keys;
      while todo != {}
        invariant records.Keys == old(records).Keys && todo <= records.Keys
        invariant forall id :: id in records ==>
                    records[id] == if id in todo then old(records)[id] else Touched(old(records)[id], u)
        decreases |todo|
      {
        var id :| id in todo;
        records := records[id := Touched(records[id], u)];
        todo := todo - {id};
      }
    }

    method PersistSubmissions(planId: nat, plan: Plan, subs: seq<Submission>)
      modifies this
      ensures Now() == WithRecords(old(Now()), planId, plan, subs)
    {
      for i := 0 to |subs|
        invariant Now() == WithRecords(old(Now()), planId, plan, subs[..i])
      {
        assert subs[..i + 1][..i] == subs[..i];
        InsertRecord(SubmittedRecord(planId, plan, subs[i]));
      }
      assert subs[..|subs|] == subs;
    }

    method PersistReceipts(receipts: seq<Receipt>)
      modifies this`records
      ensures records == UpdateAll(old(records), StatusUpdates(receipts))
    {
      for i := 0 to |receipts|
        invariant records == UpdateAll(old(records), StatusUpdates(receipts[..i]))
      {
        assert receipts[..i + 1][..i] == receipts[..i];
        ghost var us := StatusUpdates(receipts[..i + 1]);
        assert us[..|us| - 1] == StatusUpdates(receipts[..i]);
        UpdateByTxHash(StatusUpdateFor(receipts[i]));
      }
      assert receipts[..|receipts|] == receipts;
    }

    method MarkFailedForReview(receipts: seq<Receipt>) returns (marked: nat)
      modifies this`records
      ensures records == UpdateAll(old(records), ReviewUpdates(receipts))
      ensures marked == |ReviewUpdates(receipts)|
    {
      marked := 0;
      for i := 0 to |receipts|
        invariant records == UpdateAll(old(records), ReviewUpdates(receipts[..i]))
        invariant marked == |ReviewUpdates(receipts[..i])|
      {
        assert receipts[..i + 1][..i] == receipts[..i];
        if receipts[i].status == Failed {
          ghost var us := ReviewUpdates(receipts[..i + 1]);
          assert us[..|us| - 1] == ReviewUpdates(receipts[..i]);
          UpdateByTxHash(StatusUpdate(receipts[i].txHash, ManualReviewRequired, 1, Some(ReviewAfterFailure)));
          marked := marked + 1;
        }
      }
      assert receipts[..|receipts|] == receipts;
    }

    method RecordPlan(plan: Plan)
      modifies this`ledger
      ensures ledger == old(ledger) + Entries(plan)
    {
      var entries := [];
      if plan.rakeAmount != 0 {
        entries := [LedgerEntry(plan.roomId, plan.handId, None, plan.rakeAmount, Credit)];
      }
      ghost var rake := entries;
      for i := 0 to |plan.payouts|
        invariant entries == rake + PayoutEntries(plan, plan.payouts[..i])
      {
        assert plan.payouts[..i + 1][..i] == plan.payouts[..i];
        var p := plan.payouts[i];
        entries := entries + [LedgerEntry(plan.roomId, plan.handId, Some(p.seatId), p.amount, Debit)];
      }
      assert plan.payouts[..|plan.payouts|] == plan.payouts;
      ledger := ledger + entries;
    }

    method SubmitDirect(plan: Plan, addresses: map<SeatId, string>, wallet: Wallet)
      returns (r: Result<seq<Submission>, PayoutError>)
      modifies this`sent
      ensures r == Send(plan, addresses, wallet, |plan.payouts|).result
      ensures sent == old(sent) + Send(plan, addresses, wallet, |plan.payouts|).transfers
    {
      var subs, asked := [], 0;
      for i := 0 to |plan.payouts|
        invariant Send(plan, addresses, wallet, i).result == Ok(subs)
        invariant asked == |Send(plan, addresses, wallet, i).transfers|
        invariant sent == old(sent) + Send(plan, addresses, wallet, i).transfers
      {
        var p := plan.payouts[i];
        if p.amount == 0 {
          continue;
        }
        if p.seatId !in addresses {
          SendStops(plan, addresses, wallet, i + 1);
          return Err(MissingAddress(p.seatId));
        }
        var t := TransferFor(plan, p, addresses[p.seatId]);
        sent := sent + [t];
        var answer := wallet.submit(asked, t);
        asked := asked + 1;
        if answer.Err? {
          SendStops(plan, addresses, wallet, i + 1);
          return Err(WalletFault(answer.error));
        }
        subs := subs + [Submission(p.seatId, answer.value)];
      }
      return Ok(subs);
    }

    static method CheckSubmissions(wallet: Wallet, subs: seq<Submission>, minConfirmations: nat)
      returns (r: Result<seq<Receipt>, PayoutError>)
      ensures r == Receipts(wallet, subs, minConfirmations)
    {
      var receipts := [];
      for k := 0 to |subs|
        invariant Receipts(wallet, subs[..k], minConfirmations) == Ok(receipts)
      {
        assert subs[..k + 1][..k] == subs[..k];
        var answer := wallet.receipt(k, subs[k].txHash);
        if answer.Err? {
          ReceiptsStop(wallet, subs, minConfirmations, k + 1);
          return Err(WalletFault(answer.error));
        }
        var receipt := answer.value;
        if receipt.status == Confirmed && receipt.confirmations < minConfirmations {
          receipt := receipt.(status := Pending);
        }
        receipts := receipts + [receipt];
      }
      assert subs[..|subs|] == subs;
      return Ok(receipts);
    }

    method SettleDirect(plan: Plan, addresses: map<SeatId, string>, minConfirmations: nat, wallet: Wallet,
                        room: Result<(), string>) returns (r: Result<Plan, PayoutError>)
      modifies this
      ensures (Now(), r) == Settle(old(Now()), plan, addresses, minConfirmations, wallet, room)
    {
      var total := CheckedTotal(plan.payouts);
      if total.Err? {
        return Err(TotalOverflows);
      }
      var planId := nextId;
      plans, nextId := plans[planId := plan], nextId + 1;
      RecordPlan(plan);
      var submitted := SubmitDirect(plan, addresses, wallet);
      if submitted.Err? {
        return Err(submitted.error);
      }
      PersistSubmissions(planId, plan, submitted.value);
      var checked := CheckSubmissions(wallet, submitted.value, minConfirmations);
      if checked.Err? {
        return Err(checked.error);
      }
      PersistReceipts(checked.value);
      var marked := MarkFailedForReview(checked.value);
      if AllConfirmed(checked.value) {
        if room.Err? {
          return Err(RoomFault(room.error));
        }
        closed := closed + [plan.handId];
      }
      return Ok(plan);
    }
  }

  lemma {:induction false} SendStops(plan: Plan, addresses: map<SeatId, string>, wallet: Wallet, n: nat)
    requires n <= |plan.payouts| && Send(plan, addresses, wallet, n).result.Err?
    ensures Send(plan, addresses, wallet, |plan.payouts|) == Send(plan, addresses, wallet, n)
    decreases |plan.payouts| - n
  {
    if n < |plan.payouts| {
      SendStops(plan, addresses, wallet, n + 1);
    }
  }

  lemma {:induction false} ReceiptsStop(wallet: Wallet, subs: seq<Submission>, minConfirmations: nat, n: nat)
    requires n <= |subs| && Receipts(wallet, subs[..n], minConfirmations).Err?
    ensures Receipts(wallet, subs, minConfirmations) == Receipts(wallet, subs[..n], minConfirmations)
    decreases |subs| - n
  {
    if n < |subs| {
      assert subs[..n + 1][..n] == subs[..n];
      ReceiptsStop(wallet, subs, minConfirmations, n + 1);
    } else {
      assert subs[..n] == subs;
    }
  }
}
