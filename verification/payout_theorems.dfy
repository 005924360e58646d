/** What direct settlement guarantees, for every behaviour of the wallet. */
module PayoutTheorems {
  import opened Money
  import opened Seats
  import opened Apportion
  import opened Settlement
  import opened Payouts

  // ----- which transfers are asked for -----

  /** The payouts that need a transfer. */
  function Due(ps: seq<Payout>): (due: seq<Payout>)
  {
    if ps == [] then []
    else if ps[|ps| - 1].amount == 0 then Due(ps[..|ps| - 1])
    else Due(ps[..|ps| - 1]) + [ps[|ps| - 1]]
  }

  /** The k-th due payout could be sent and the wallet took it. */
  ghost predicate Taken(plan: Plan, addresses: map<SeatId, string>, wallet: Wallet, due: seq<Payout>, k: nat)
    requires k < |due|
  {
    due[k].seatId in addresses && wallet.submit(k, TransferFor(plan, due[k], addresses[due[k].seatId])).Ok?
  }

  function HashOf(plan: Plan, addresses: map<SeatId, string>, wallet: Wallet, p: Payout, k: nat): (h: string)
    requires p.seatId in addresses && wallet.submit(k, TransferFor(plan, p, addresses[p.seatId])).Ok?
  {
    wallet.submit(k, TransferFor(plan, p, addresses[p.seatId])).value
  }

  /** The transfers follow the due payouts, each taken by the wallet, up to the first that is not. */
  ghost predicate InStep(plan: Plan, addresses: map<SeatId, string>, wallet: Wallet, due: seq<Payout>, s: Sending)
  {
    var m := |s.transfers|;
    && m <= |due|
    && (forall k :: 0 <= k < m ==>
          due[k].seatId in addresses && s.transfers[k] == TransferFor(plan, due[k], addresses[due[k].seatId]))
    && match s.result
       case Ok(subs) =>
         && m == |due| == |subs|
         && forall k :: 0 <= k < m ==>
              && Taken(plan, addresses, wallet, due, k)
              && subs[k] == Submission(due[k].seatId, HashOf(plan, addresses, wallet, due[k], k))
       case Err(e) => StoppedBy(plan, addresses, wallet, due, m, e)
  }

  ghost predicate StoppedBy(plan: Plan, addresses: map<SeatId, string>, wallet: Wallet, due: seq<Payout>, m: nat,
                            e: PayoutError)
    requires m <= |due|
  {
    || (m < |due| && e == MissingAddress(due[m].seatId) && due[m].seatId !in addresses
        && forall k :: 0 <= k < m ==> Taken(plan, addresses, wallet, due, k))
    || (0 < m && due[m - 1].seatId in addresses && e.WalletFault?
        && wallet.submit(m - 1, TransferFor(plan, due[m - 1], addresses[due[m - 1].seatId])) == Err(e.message)
        && forall k :: 0 <= k < m - 1 ==> Taken(plan, addresses, wallet, due, k))
  }

  /** A transfer of the payout `p` of `plan`, to the address known for its seat. */
  predicate Pays(plan: Plan, p: Payout, addresses: map<SeatId, string>, t: Transfer)
  {
    && t.roomId == plan.roomId && t.handId == plan.handId
    && t.toSeat == p.seatId && t.amount == p.amount
    && p.seatId in addresses && t.toAddress == addresses[p.seatId]
  }

  lemma {:induction false} SendInStep(plan: Plan, addresses: map<SeatId, string>, wallet: Wallet, n: nat)
    requires n <= |plan.payouts|
    ensures InStep(plan, addresses, wallet, Due(plan.payouts[..n]), Send(plan, addresses, wallet, n))
  {
    if n > 0 {
      SendInStep(plan, addresses, wallet, n - 1);
      assert plan.payouts[..n][..n - 1] == plan.payouts[..n - 1];
      StillInStep(plan, addresses, wallet, Due(plan.payouts[..n - 1]), n);
    }
  }

  lemma {:induction false} StillInStep(plan: Plan, addresses: map<SeatId, string>, wallet: Wallet,
                                       due: seq<Payout>, n: nat)
    requires 0 < n <= |plan.payouts| && InStep(plan, addresses, wallet, due, Send(plan, addresses, wallet, n - 1))
    ensures plan.payouts[n - 1].amount == 0 ==> InStep(plan, addresses, wallet, due, Send(plan, addresses, wallet, n))
    ensures plan.payouts[n - 1].amount != 0 ==>
              InStep(plan, addresses, wallet, due + [plan.payouts[n - 1]], Send(plan, addresses, wallet, n))
  {
    var s := Send(plan, addresses, wallet, n - 1);
    var p := plan.payouts[n - 1];
    var more := due + [p];
    assert forall k :: 0 <= k < |due| ==> more[k] == due[k];
    assert forall k :: 0 <= k < |due| ==>
        (Taken(plan, addresses, wallet, more, k) <==> Taken(plan, addresses, wallet, due, k));
    if s.result.Ok? && p.amount != 0 && p.seatId in addresses {
      assert wallet.submit(|due|, TransferFor(plan, p, addresses[p.seatId])).Ok? <==>
          Taken(plan, addresses, wallet, more, |due|);
    }
  }

  // ----- when the hand is closed -----

  /** The receipt for a payout's own transaction is a confirmation of the required depth. */
  ghost predicate ConfirmedDeep(wallet: Wallet, k: nat, hash: string, minConfirmations: nat)
  {
    var answer := wallet.receipt(k, hash);
    answer.Ok? && answer.value.status == Confirmed && answer.value.confirmations >= minConfirmations
  }

  /** Every due payout has an address, was taken by the wallet, and is confirmed deeply enough. */
  ghost predicate Delivered(plan: Plan, addresses: map<SeatId, string>, minConfirmations: nat, wallet: Wallet)
  {
    var due := Due(plan.payouts);
    forall k :: 0 <= k < |due| ==>
      && Taken(plan, addresses, wallet, due, k)
      && ConfirmedDeep(wallet, k, HashOf(plan, addresses, wallet, due[k], k), minConfirmations)
  }

  lemma {:induction false} ReceiptsMatch(wallet: Wallet, subs: seq<Submission>, minConfirmations: nat)
    ensures var r := Receipts(wallet, subs, minConfirmations);
            && (r.Ok? <==> forall k :: 0 <= k < |subs| ==> wallet.receipt(k, subs[k].txHash).Ok?)
            && (r.Ok? ==> |r.value| == |subs|)
            && (r.Ok? ==> forall k :: 0 <= k < |subs| ==>
                  r.value[k] == Judged(wallet.receipt(k, subs[k].txHash).value, minConfirmations))
  {
    if subs != [] {
      ReceiptsMatch(wallet, subs[..|subs| - 1], minConfirmations);
    }
  }

  lemma {:induction false} AllConfirmedIff(wallet: Wallet, subs: seq<Submission>, minConfirmations: nat)
    ensures var r := Receipts(wallet, subs, minConfirmations);
            r.Ok? && AllConfirmed(r.value) <==>
              forall k :: 0 <= k < |subs| ==> ConfirmedDeep(wallet, k, subs[k].txHash, minConfirmations)
  {
    ReceiptsMatch(wallet, subs, minConfirmations);
    var r := Receipts(wallet, subs, minConfirmations);
    if r.Ok? {
      assert forall k :: 0 <= k < |subs| ==>
          (r.value[k].status == Confirmed <==> ConfirmedDeep(wallet, k, subs[k].txHash, minConfirmations));
    }
  }

  lemma {:induction false} RecordsLeaveRest(b: Books, planId: nat, plan: Plan, subs: seq<Submission>)
    ensures var w := WithRecords(b, planId, plan, subs);
            w.closed == b.closed && w.sent == b.sent && w.ledger == b.ledger && w.plans == b.plans
            && w.nextId == b.nextId + |subs|
  {
    if subs != [] {
      RecordsLeaveRest(b, planId, plan, subs[..|subs| - 1]);
    }
  }

  /** Direct settlement closes the hand, once, if and only if every due payout was delivered and the
      room agrees. Otherwise it closes nothing. */
  lemma {:induction false} ClosesIff(
    b: Books, plan: Plan, addresses: map<SeatId, string>, minConfirmations: nat, wallet: Wallet, room: Result<(),
    string>)
    ensures Settle(b, plan, addresses, minConfirmations, wallet, room).0.closed ==
              if SumAmounts(plan.payouts) <= U128_MAX && room.Ok?
                 && Delivered(plan, addresses, minConfirmations, wallet)
              then b.closed + [plan.handId] else b.closed
  {
    SendInStep(plan, addresses, wallet, |plan.payouts|);
    assert plan.payouts[..|plan.payouts|] == plan.payouts;
    var s := Send(plan, addresses, wallet, |plan.payouts|);
    var due := Due(plan.payouts);
    if s.result.Ok? {
      var subs := s.result.value;
      RecordsLeaveRest(Planned(b, plan).(sent := b.sent + s.transfers), b.nextId, plan, subs);
      AllConfirmedIff(wallet, subs, minConfirmations);
    } else {
      NotDelivered(plan, addresses, minConfirmations, wallet, |s.transfers|, s.result.error);
    }
  }

  /** The receipt for every due payout's own transaction was answered. */
  ghost predicate Answered(plan: Plan, addresses: map<SeatId, string>, wallet: Wallet)
  {
    var due := Due(plan.payouts);
    forall k :: 0 <= k < |due| ==>
      && Taken(plan, addresses, wallet, due, k)
      && wallet.receipt(k, HashOf(plan, addresses, wallet, due[k], k)).Ok?
  }

  /** Direct settlement reports success, and the plan, if and only if the total fits, every due payout was
      taken and answered for, and the room agrees to close a hand that was delivered. */
  lemma {:induction false} SucceedsIff(
    b: Books, plan: Plan, addresses: map<SeatId, string>, minConfirmations: nat, wallet: Wallet, room: Result<(),
    string>)
    ensures var r := Settle(b, plan, addresses, minConfirmations, wallet, room).1;
            && (r.Ok? <==>
                  && SumAmounts(plan.payouts) <= U128_MAX && Answered(plan, addresses, wallet)
                  && (Delivered(plan, addresses, minConfirmations, wallet) ==> room.Ok?))
            && (r.Ok? ==> r.value == plan)
  {
    SendInStep(plan, addresses, wallet, |plan.payouts|);
    assert plan.payouts[..|plan.payouts|] == plan.payouts;
    var s := Send(plan, addresses, wallet, |plan.payouts|);
    if s.result.Ok? {
      ReceiptsMatch(wallet, s.result.value, minConfirmations);
      AllConfirmedIff(wallet, s.result.value, minConfirmations);
    } else {
      NotAnswered(plan, addresses, wallet, |s.transfers|, s.result.error);
    }
  }

  lemma {:induction false} NotAnswered(plan: Plan, addresses: map<SeatId, string>, wallet: Wallet, m: nat,
                                       e: PayoutError)
    requires m <= |Due(plan.payouts)| && StoppedBy(plan, addresses, wallet, Due(plan.payouts), m, e)
    ensures !Answered(plan, addresses, wallet)
  {
    var due := Due(plan.payouts);
    var k := if e.MissingAddress? then m else m - 1;
    assert !Taken(plan, addresses, wallet, due, k);
  }

  lemma {:induction false} NotDelivered(
    plan: Plan, addresses: map<SeatId, string>, minConfirmations: nat, wallet: Wallet, m: nat, e: PayoutError)
    requires m <= |Due(plan.payouts)| && StoppedBy(plan, addresses, wallet, Due(plan.payouts), m, e)
    ensures !Delivered(plan, addresses, minConfirmations, wallet)
  {
    var due := Due(plan.payouts);
    var k := if e.MissingAddress? then m else m - 1;
    assert !Taken(plan, addresses, wallet, due, k);
  }

  // ----- where the records end up -----

  /** The last receipt that names a transaction. */
  function LastReceipt(receipts: seq<Receipt>, hash: string): (r: Option<Receipt>)
  {
    if receipts == [] then None
    else if receipts[|receipts| - 1].txHash == hash then Some(receipts[|receipts| - 1])
    else LastReceipt(receipts[..|receipts| - 1], hash)
  }

  predicate FailedOnce(receipts: seq<Receipt>, hash: string)
  {
    exists k :: 0 <= k < |receipts| && receipts[k].txHash == hash && receipts[k].status == Failed
  }

  lemma {:induction false} UpdateAllKeys(records: map<nat, Record>, us: seq<StatusUpdate>)
    ensures UpdateAll(records, us).Keys == records.Keys
    ensures forall id :: id in records ==> UpdateAll(records, us)[id].txHash == records[id].txHash
  {
    if us != [] {
      UpdateAllKeys(records, us[..|us| - 1]);
    }
  }

  lemma {:induction false} StatusUpdatesAt(records: map<nat, Record>, receipts: seq<Receipt>, id: nat, hash: string)
    requires id in records && records[id].txHash == Some(hash)
    ensures var m := UpdateAll(records, StatusUpdates(receipts));
            && id in m
            && m[id] == match LastReceipt(receipts, hash)
                        case None => records[id]
                        case Some(last) => Touched(records[id], StatusUpdateFor(last))
  {
    if receipts != [] {
      StatusUpdatesAt(records, receipts[..|receipts| - 1], id, hash);
      var us := StatusUpdates(receipts);
      assert us[..|us| - 1] == StatusUpdates(receipts[..|receipts| - 1]);
    }
  }

  lemma {:induction false} ReviewUpdatesAt(records: map<nat, Record>, receipts: seq<Receipt>, id: nat, hash: string)
    requires id in records && records[id].txHash == Some(hash)
    ensures var m := UpdateAll(records, ReviewUpdates(receipts));
            && id in m
            && m[id] == if FailedOnce(receipts, hash)
                        then records[id].(status := ManualReviewRequired, retryCount := 1,
                                          detail := Some(ReviewAfterFailure))
                        else records[id]
  {
    if receipts != [] {
      var n := |receipts| - 1;
      ReviewUpdatesAt(records, receipts[..n], id, hash);
      assert FailedOnce(receipts, hash) <==>
          FailedOnce(receipts[..n], hash) || (receipts[n].txHash == hash && receipts[n].status == Failed);
      if receipts[n].status == Failed {
        var us := ReviewUpdates(receipts);
        assert us[..|us| - 1] == ReviewUpdates(receipts[..n]);
      }
    }
  }

  lemma {:induction false} UnhashedUntouched(records: map<nat, Record>, us: seq<StatusUpdate>, id: nat)
    requires id in records && records[id].txHash.None?
    ensures id in UpdateAll(records, us) && UpdateAll(records, us)[id] == records[id]
  {
    if us != [] {
      UnhashedUntouched(records, us[..|us| - 1], id);
    }
  }

  /** Any list of receipts, repeated, unknown or contradictory, leaves a record as follows. No receipt
      for it: as it was. Some failed receipt: manual review, whatever else came. Otherwise the last
      receipt decides. */
  function EndsAs(r: Record, receipts: seq<Receipt>): (w: Record)
  {
    if r.txHash.None? || LastReceipt(receipts, r.txHash.value).None? then r
    else if FailedOnce(receipts, r.txHash.value)
    then r.(status := ManualReviewRequired, retryCount := 1, detail := Some(ReviewAfterFailure))
    else r.(status := if LastReceipt(receipts, r.txHash.value).value.status == Confirmed then MarkedConfirmed
                      else MarkedPending,
            retryCount := 0, detail := None)
  }

  lemma {:induction false} ReviewedAt(records: map<nat, Record>, receipts: seq<Receipt>, id: nat)
    requires id in records
    ensures Reviewed(records, receipts).Keys == records.Keys
    ensures Reviewed(records, receipts)[id] == EndsAs(records[id], receipts)
  {
    var r := records[id];
    var mid := UpdateAll(records, StatusUpdates(receipts));
    UpdateAllKeys(records, StatusUpdates(receipts));
    UpdateAllKeys(mid, ReviewUpdates(receipts));
    if r.txHash.None? {
      UnhashedUntouched(records, StatusUpdates(receipts), id);
      UnhashedUntouched(mid, ReviewUpdates(receipts), id);
    } else {
      StatusUpdatesAt(records, receipts, id, r.txHash.value);
      ReviewUpdatesAt(mid, receipts, id, r.txHash.value);
      LastReceiptSpec(receipts, r.txHash.value);
    }
  }

  lemma {:induction false} LastReceiptSpec(receipts: seq<Receipt>, hash: string)
    ensures LastReceipt(receipts, hash).Some? <==> exists k :: 0 <= k < |receipts| && receipts[k].txHash == hash
    ensures var last := LastReceipt(receipts, hash);
            last.Some? ==> exists k :: 0 <= k < |receipts| && receipts[k] == last.value && last.value.txHash == hash
                                       && forall j :: k < j < |receipts| ==> receipts[j].txHash != hash
  {
    if receipts != [] {
      var n := |receipts| - 1;
      LastReceiptSpec(receipts[..n], hash);
      if receipts[n].txHash != hash && LastReceipt(receipts[..n], hash).Some? {
        var k :| 0 <= k < n && receipts[..n][k] == LastReceipt(receipts[..n], hash).value
                 && forall j :: k < j < n ==> receipts[..n][j].txHash != hash;
        assert receipts[k] == LastReceipt(receipts, hash).value;
        assert forall j :: k < j < |receipts| ==> receipts[j].txHash != hash;
      }
    }
  }

  /** Every receipt names the transaction it was asked about, and no two submissions share one. */
  ghost predicate Echoed(subs: seq<Submission>, receipts: seq<Receipt>)
  {
    && |receipts| == |subs|
    && (forall k :: 0 <= k < |subs| ==> receipts[k].txHash == subs[k].txHash)
    && forall j, k :: 0 <= j < k < |subs| ==> subs[j].txHash != subs[k].txHash
  }

  function StatusAfter(s: TxStatus): (r: RecordStatus)
  {
    match s
    case Confirmed => MarkedConfirmed
    case Pending => MarkedPending
    case Failed => ManualReviewRequired
  }

  lemma {:induction false} OwnReceipt(subs: seq<Submission>, receipts: seq<Receipt>, k: nat)
    requires Echoed(subs, receipts) && k < |subs|
    ensures LastReceipt(receipts, subs[k].txHash) == Some(receipts[k])
    ensures FailedOnce(receipts, subs[k].txHash) <==> receipts[k].status == Failed
  {
    LastReceiptSpec(receipts, subs[k].txHash);
    assert receipts[k].txHash == subs[k].txHash;
  }

  lemma {:induction false} RecordsAt(b: Books, planId: nat, plan: Plan, subs: seq<Submission>)
    requires IdsUsed(b)
    ensures var w := WithRecords(b, planId, plan, subs);
            && IdsUsed(w) && w.nextId == b.nextId + |subs|
            && (forall id :: id in w.records <==> id in b.records || b.nextId <= id < b.nextId + |subs|)
            && (forall id :: id in b.records ==> w.records[id] == b.records[id])
            && (forall k :: 0 <= k < |subs| ==> w.records[b.nextId + k] == SubmittedRecord(planId, plan, subs[k]))
  {
    if subs != [] {
      var init := subs[..|subs| - 1];
      RecordsAt(b, planId, plan, init);
      assert forall k :: 0 <= k < |init| ==> subs[k] == init[k];
    }
  }

  /** Direct settlement got as far as its receipts. */
  ghost predicate ReceiptsIn(plan: Plan, addresses: map<SeatId, string>, minConfirmations: nat, wallet: Wallet,
                             subs: seq<Submission>, receipts: seq<Receipt>)
  {
    && SumAmounts(plan.payouts) <= U128_MAX
    && Send(plan, addresses, wallet, |plan.payouts|).result == Ok(subs)
    && Receipts(wallet, subs, minConfirmations) == Ok(receipts)
  }

  lemma {:induction false} SettledRecords(
    b: Books, plan: Plan, addresses: map<SeatId, string>, minConfirmations: nat, wallet: Wallet, room: Result<(),
    string>,
    subs: seq<Submission>, receipts: seq<Receipt>) returns (asked: Books)
    requires IdsUsed(b) && ReceiptsIn(plan, addresses, minConfirmations, wallet, subs, receipts)
    ensures IdsUsed(asked) && asked.nextId == b.nextId + 1 && asked.records == b.records
    ensures Settle(b, plan, addresses, minConfirmations, wallet, room).0.records
         == Reviewed(WithRecords(asked, b.nextId, plan, subs).records, receipts)
  {
    asked := Planned(b, plan).(sent := b.sent + Send(plan, addresses, wallet, |plan.payouts|).transfers);
  }

  /** Once the receipts are in, an older record ends as the receipts for its own transaction say; with
      echoed receipts it is untouched unless this settlement submitted that transaction. */
  lemma {:induction false} OlderRecordEnds(
    b: Books, plan: Plan, addresses: map<SeatId, string>, minConfirmations: nat, wallet: Wallet, room: Result<(),
    string>,
    subs: seq<Submission>, receipts: seq<Receipt>, id: nat)
    requires IdsUsed(b) && ReceiptsIn(plan, addresses, minConfirmations, wallet, subs, receipts) && id in b.records
    ensures var m := Settle(b, plan, addresses, minConfirmations, wallet, room).0.records;
            && id in m && m[id] == EndsAs(b.records[id], receipts)
            && (Echoed(subs, receipts) && NotAmong(b.records[id].txHash, subs) ==> m[id] == b.records[id])
  {
    var asked := SettledRecords(b, plan, addresses, minConfirmations, wallet, room, subs, receipts);
    RecordsAt(asked, b.nextId, plan, subs);
    ReviewedAt(WithRecords(asked, b.nextId, plan, subs).records, receipts, id);
    if Echoed(subs, receipts) && NotAmong(b.records[id].txHash, subs) {
      OthersUntouched(b.records[id], subs, receipts);
    }
  }

  lemma {:induction false} NewRecordAt(b: Books, planId: nat, plan: Plan, subs: seq<Submission>, k: nat)
    requires k < |subs|
    ensures var w := WithRecords(b, planId, plan, subs);
            b.nextId + k in w.records && w.records[b.nextId + k] == SubmittedRecord(planId, plan, subs[k])
  {
    RecordsLeaveRest(b, planId, plan, subs[..|subs| - 1]);
    if k < |subs| - 1 {
      NewRecordAt(b, planId, plan, subs[..|subs| - 1], k);
    }
  }

  lemma {:induction false} NewRecordConcludes(planId: nat, plan: Plan, subs: seq<Submission>,
                                              receipts: seq<Receipt>, k: nat)
    requires Echoed(subs, receipts) && k < |subs|
    ensures EndsAs(SubmittedRecord(planId, plan, subs[k]), receipts)
         == Concluded(SubmittedRecord(planId, plan, subs[k]), receipts[k].status)
  {
    OwnReceipt(subs, receipts, k);
  }

  /** With echoed receipts the k-th new record ends as the k-th receipt says. */
  lemma {:induction false} NewRecordEnds(
    b: Books, plan: Plan, addresses: map<SeatId, string>, minConfirmations: nat, wallet: Wallet, room: Result<(),
    string>,
    subs: seq<Submission>, receipts: seq<Receipt>, k: nat)
    requires IdsUsed(b) && ReceiptsIn(plan, addresses, minConfirmations, wallet, subs, receipts)
    requires Echoed(subs, receipts) && k < |subs|
    ensures var m := Settle(b, plan, addresses, minConfirmations, wallet, room).0.records;
            && b.nextId + 1 + k in m
            && var r := m[b.nextId + 1 + k];
               && r.planId == b.nextId && r.roomId == plan.roomId && r.handId == plan.handId
               && r.txHash == Some(subs[k].txHash) && r.status == StatusAfter(receipts[k].status)
               && (receipts[k].status == Failed ==> r.retryCount == 1 && r.detail == Some(ReviewAfterFailure))
               && (receipts[k].status != Failed ==> r.retryCount == 0 && r.detail == None)
  {
    var asked := SettledRecords(b, plan, addresses, minConfirmations, wallet, room, subs, receipts);
    NewRecordAt(asked, b.nextId, plan, subs, k);
    ReviewedAt(WithRecords(asked, b.nextId, plan, subs).records, receipts, asked.nextId + k);
    NewRecordConcludes(b.nextId, plan, subs, receipts, k);
  }

  /** Nothing but the new records is added, and nothing is removed. */
  lemma {:induction false} RecordIds(
    b: Books, plan: Plan, addresses: map<SeatId, string>, minConfirmations: nat, wallet: Wallet, room: Result<(),
    string>,
    subs: seq<Submission>, receipts: seq<Receipt>, id: nat)
    requires IdsUsed(b) && ReceiptsIn(plan, addresses, minConfirmations, wallet, subs, receipts)
    ensures id in Settle(b, plan, addresses, minConfirmations, wallet, room).0.records <==>
              id in b.records || b.nextId + 1 <= id < b.nextId + 1 + |subs|
  {
    var asked := SettledRecords(b, plan, addresses, minConfirmations, wallet, room, subs, receipts);
    RecordsAt(asked, b.nextId, plan, subs);
    ReviewedKeys(WithRecords(asked, b.nextId, plan, subs).records, receipts);
  }

  ghost predicate NotAmong(hash: Option<string>, subs: seq<Submission>)
  {
    forall k :: 0 <= k < |subs| ==> hash != Some(subs[k].txHash)
  }

  function Concluded(r: Record, s: TxStatus): (w: Record)
  {
    if s == Failed then r.(status := StatusAfter(s), retryCount := 1, detail := Some(ReviewAfterFailure))
    else r.(status := StatusAfter(s))
  }

  lemma {:induction false} ReviewedKeys(records: map<nat, Record>, receipts: seq<Receipt>)
    ensures Reviewed(records, receipts).Keys == records.Keys
  {
    UpdateAllKeys(records, StatusUpdates(receipts));
    UpdateAllKeys(UpdateAll(records, StatusUpdates(receipts)), ReviewUpdates(receipts));
  }

  lemma {:induction false} OthersUntouched(r: Record, subs: seq<Submission>, receipts: seq<Receipt>)
    requires Echoed(subs, receipts) && NotAmong(r.txHash, subs)
    ensures EndsAs(r, receipts) == r
  {
    if r.txHash.Some? {
      LastReceiptSpec(receipts, r.txHash.value);
    }
  }

  /** Ids are never reused, whatever the outcome. */
  lemma {:induction false} SettleKeepsIds(
    b: Books, plan: Plan, addresses: map<SeatId, string>, minConfirmations: nat, wallet: Wallet, room: Result<(),
    string>)
    requires IdsUsed(b)
    ensures IdsUsed(Settle(b, plan, addresses, minConfirmations, wallet, room).0)
  {
    var s := Send(plan, addresses, wallet, |plan.payouts|);
    if s.result.Ok? {
      var asked := Planned(b, plan).(sent := b.sent + s.transfers);
      RecordsAt(asked, b.nextId, plan, s.result.value);
      var receipts := Receipts(wallet, s.result.value, minConfirmations);
      if receipts.Ok? {
        ReviewedKeys(WithRecords(asked, b.nextId, plan, s.result.value).records, receipts.value);
      }
    }
  }

  // ----- transfers without a record -----

  /** A settlement asks for `transfers` and writes one record each, or none after a submission error. */
  lemma {:induction false} SentAndRecorded(
    b: Books, plan: Plan, addresses: map<SeatId, string>, minConfirmations: nat, wallet: Wallet, room: Result<(),
    string>,
    s: Sending)
    requires SumAmounts(plan.payouts) <= U128_MAX && s == Send(plan, addresses, wallet, |plan.payouts|)
    ensures var w := Settle(b, plan, addresses, minConfirmations, wallet, room).0;
            && w.sent == b.sent + s.transfers && w.plans == b.plans[b.nextId := plan]
            && (s.result.Err? ==> w.records == b.records)
            && w.nextId == b.nextId + 1 + if s.result.Ok? then |s.result.value| else 0
  {
    if s.result.Ok? {
      RecordsLeaveRest(Planned(b, plan).(sent := b.sent + s.transfers), b.nextId, plan, s.result.value);
    }
  }

  /** The wallet took one of the transfers asked for since `b`, and no record was added. */
  ghost predicate Unrecorded(b: Books, w: Books, plan: Plan, addresses: map<SeatId, string>, wallet: Wallet)
  {
    var due := Due(plan.payouts);
    && w.nextId == b.nextId + 1 && w.records == b.records
    && exists k :: 0 <= k < |due| && |b.sent| + k < |w.sent| && Taken(plan, addresses, wallet, due, k)
  }

  /** The first due payout is taken and a later one is not. */
  ghost predicate TakenInPart(plan: Plan, addresses: map<SeatId, string>, wallet: Wallet, due: seq<Payout>)
  {
    && |due| > 0 && Taken(plan, addresses, wallet, due, 0)
    && exists k :: 0 <= k < |due| && !Taken(plan, addresses, wallet, due, k)
  }

  /** Some transfer was taken before the submission stopped, if and only if the payouts are taken in part. */
  lemma {:induction false} StopsIff(plan: Plan, addresses: map<SeatId, string>, wallet: Wallet, due: seq<Payout>,
                                    s: Sending)
    requires InStep(plan, addresses, wallet, due, s)
    ensures s.result.Ok? ==> |s.result.value| == |due| && !TakenInPart(plan, addresses, wallet, due)
    ensures s.result.Err? ==>
              (TakenInPart(plan, addresses, wallet, due) <==>
                 exists k :: 0 <= k < |s.transfers| && Taken(plan, addresses, wallet, due, k))
  {
    if s.result.Err? {
      var m, e := |s.transfers|, s.result.error;
      assert StoppedBy(plan, addresses, wallet, due, m, e);
      var stop := if e.MissingAddress? then m else m - 1;
      assert !Taken(plan, addresses, wallet, due, stop);
    }
  }

  /** For any wallet: a settlement leaves a transfer taken and nothing recorded if and only if the total
      fits 128 bits, the first due payout is taken and a later one is not. */
  lemma {:induction false} UnrecordedIff(
    b: Books, plan: Plan, addresses: map<SeatId, string>, minConfirmations: nat, wallet: Wallet, room: Result<(),
    string>)
    ensures Unrecorded(b, Settle(b, plan, addresses, minConfirmations, wallet, room).0, plan, addresses, wallet) <==>
              SumAmounts(plan.payouts) <= U128_MAX && TakenInPart(plan, addresses, wallet, Due(plan.payouts))
  {
    if SumAmounts(plan.payouts) <= U128_MAX {
      var s := Send(plan, addresses, wallet, |plan.payouts|);
      SendInStep(plan, addresses, wallet, |plan.payouts|);
      assert plan.payouts[..|plan.payouts|] == plan.payouts;
      StopsIff(plan, addresses, wallet, Due(plan.payouts), s);
      SentAndRecorded(b, plan, addresses, minConfirmations, wallet, room, s);
    }
  }

  /** With a wallet that takes everything, the payouts are taken in part if and only if the first has an
      address and a later one has none. */
  lemma {:induction false} AddressRunsOut(plan: Plan, addresses: map<SeatId, string>, wallet: Wallet, due: seq<Payout>)
    requires forall k: nat, t: Transfer :: wallet.submit(k, t).Ok?
    ensures TakenInPart(plan, addresses, wallet, due) <==>
              |due| > 0 && due[0].seatId in addresses && exists k :: 0 <= k < |due| && due[k].seatId !in addresses
  {
    assert forall k :: 0 <= k < |due| ==> (Taken(plan, addresses, wallet, due, k) <==> due[k].seatId in addresses);
  }

  /** Two payouts, and a wallet that takes the first and refuses the second: the first is paid and no
      record says so. */
  lemma {:induction false} SecondTransferRefused(b: Books, minConfirmations: nat, room: Result<(), string>)
    ensures var plan := Plan(0, 0, 0, [Payout(0, 5), Payout(1, 7)]);
            var wallet := Wallet((k, t) => if k == 0 then Ok("tx") else Err("refused"), (k, h) => Err("unknown"));
            var addresses: map<SeatId, string> := map[0 := "a", 1 := "b"];
            Unrecorded(b, Settle(b, plan, addresses, minConfirmations, wallet, room).0, plan, addresses, wallet)
  {
    var plan := Plan(0, 0, 0, [Payout(0, 5), Payout(1, 7)]);
    var wallet := Wallet((k, t) => if k == 0 then Ok("tx") else Err("refused"), (k, h) => Err("unknown"));
    var addresses: map<SeatId, string> := map[0 := "a", 1 := "b"];
    RefusedAfterFirst(b, plan, addresses, minConfirmations, wallet, room);
  }

  lemma {:induction false} RefusedAfterFirst(
    b: Books, plan: Plan, addresses: map<SeatId, string>, minConfirmations: nat, wallet: Wallet, room: Result<(),
    string>)
    requires |plan.payouts| == 2 && plan.payouts[0].amount == 5 && plan.payouts[1].amount == 7
    requires plan.payouts[0].seatId in addresses
    requires forall t: Transfer :: wallet.submit(0, t).Ok? && wallet.submit(1, t).Err?
    ensures Unrecorded(b, Settle(b, plan, addresses, minConfirmations, wallet, room).0, plan, addresses, wallet)
  {
    var ps := plan.payouts;
    assert ps[..1][..0] == [] && ps[..2] == ps;
    assert SumAmounts(ps[..1]) == 5;
    assert Due(ps[..1]) == [ps[0]];
    assert Due(ps) == [ps[0], ps[1]];
    assert Taken(plan, addresses, wallet, Due(ps), 0) && !Taken(plan, addresses, wallet, Due(ps), 1);
    UnrecordedIff(b, plan, addresses, minConfirmations, wallet, room);
  }

  // ----- what leaves the room -----

  function SumTransfers(ts: seq<Transfer>): (t: nat)
  {
    if ts == [] then 0 else SumTransfers(ts[..|ts| - 1]) + ts[|ts| - 1].amount
  }

  function SumEntries(es: seq<LedgerEntry>): (t: nat)
  {
    if es == [] then 0 else SumEntries(es[..|es| - 1]) + es[|es| - 1].amount
  }

  lemma {:induction false} SentInFull(plan: Plan, addresses: map<SeatId, string>, wallet: Wallet, n: nat)
    requires n <= |plan.payouts| && Send(plan, addresses, wallet, n).result.Ok?
    ensures SumTransfers(Send(plan, addresses, wallet, n).transfers) == SumAmounts(plan.payouts[..n])
  {
    if n > 0 {
      SentInFull(plan, addresses, wallet, n - 1);
      assert plan.payouts[..n][..n - 1] == plan.payouts[..n - 1];
      var ts := Send(plan, addresses, wallet, n).transfers;
      if plan.payouts[n - 1].amount != 0 {
        assert ts[..|ts| - 1] == Send(plan, addresses, wallet, n - 1).transfers;
      }
    }
  }

  lemma {:induction false} PayoutEntriesTotal(plan: Plan, ps: seq<Payout>, before: seq<LedgerEntry>)
    ensures SumEntries(before + PayoutEntries(plan, ps)) == SumEntries(before) + SumAmounts(ps)
  {
    if ps == [] {
      assert before + [] == before;
    } else {
      var init := ps[..|ps| - 1];
      PayoutEntriesTotal(plan, init, before);
      var es := before + PayoutEntries(plan, ps);
      assert es[..|es| - 1] == before + PayoutEntries(plan, init);
    }
  }

  /** The ledger entries of a plan account for its payouts and its rake. */
  lemma {:induction false} LedgerTotal(plan: Plan)
    ensures SumEntries(Entries(plan)) == SumAmounts(plan.payouts) + plan.rakeAmount
  {
    var entry := LedgerEntry(plan.roomId, plan.handId, None, plan.rakeAmount, Credit);
    var rake := if plan.rakeAmount != 0 then [entry] else [];
    PayoutEntriesTotal(plan, plan.payouts, rake);
    assert rake != [] ==> rake[..|rake| - 1] == [];
  }

  lemma {:induction false} DuePositive(ps: seq<Payout>, k: nat)
    requires k < |Due(ps)|
    ensures Due(ps)[k] in ps && Due(ps)[k].amount > 0
  {
    var n := |ps| - 1;
    if k < |Due(ps[..n])| {
      DuePositive(ps[..n], k);
    }
  }

  /** Whatever the wallet does, the k-th transfer asked for pays the k-th due payout of the plan. */
  lemma {:induction false} TransfersPay(plan: Plan, addresses: map<SeatId, string>, wallet: Wallet, k: nat)
    requires k < |Send(plan, addresses, wallet, |plan.payouts|).transfers|
    ensures k < |Due(plan.payouts)| && Due(plan.payouts)[k] in plan.payouts
    ensures Pays(plan, Due(plan.payouts)[k], addresses, Send(plan, addresses, wallet, |plan.payouts|).transfers[k])
  {
    SendInStep(plan, addresses, wallet, |plan.payouts|);
    assert plan.payouts[..|plan.payouts|] == plan.payouts;
    DuePositive(plan.payouts, k);
  }

  lemma {:induction false} PayoutEntriesAt(plan: Plan, ps: seq<Payout>)
    ensures |PayoutEntries(plan, ps)| == |ps|
    ensures forall k :: 0 <= k < |ps| ==>
              var e := PayoutEntries(plan, ps)[k];
              && e.roomId == plan.roomId && e.handId == plan.handId
              && e.seatId == Some(ps[k].seatId) && e.amount == ps[k].amount && e.direction == Debit
  {
    if ps != [] {
      PayoutEntriesAt(plan, ps[..|ps| - 1]);
    }
  }

  /** The rake, if any, is booked first, as a credit to no seat; then every payout, in order, as a debit of
      its seat. */
  ghost predicate Booked(plan: Plan, es: seq<LedgerEntry>)
  {
    var first := if plan.rakeAmount > 0 then 1 else 0;
    && |es| == first + |plan.payouts|
    && (forall k :: 0 <= k < |es| ==> es[k].roomId == plan.roomId && es[k].handId == plan.handId)
    && (plan.rakeAmount > 0 ==> es[0].seatId == None && es[0].amount == plan.rakeAmount && es[0].direction == Credit)
    && forall k :: first <= k < |es| ==>
         && es[k].direction == Debit
         && es[k].seatId == Some(plan.payouts[k - first].seatId) && es[k].amount == plan.payouts[k - first].amount
  }

  lemma {:induction false} EntriesBooked(plan: Plan)
    ensures Booked(plan, Entries(plan))
  {
    PayoutEntriesAt(plan, plan.payouts);
  }

  /** If the hand is closed, the wallet was asked in this settlement for exactly the plan's due payouts, in
      order and each to its own address, and what was booked is exactly payouts and rake. */
  lemma {:induction false} ClosedMeansPaid(
    b: Books, plan: Plan, addresses: map<SeatId, string>, minConfirmations: nat, wallet: Wallet, room: Result<(),
    string>)
    returns (transfers: seq<Transfer>, entries: seq<LedgerEntry>)
    requires Settle(b, plan, addresses, minConfirmations, wallet, room).0.closed != b.closed
    ensures Delivered(plan, addresses, minConfirmations, wallet)
    ensures Settle(b, plan, addresses, minConfirmations, wallet, room).0.sent == b.sent + transfers
    ensures Settle(b, plan, addresses, minConfirmations, wallet, room).0.ledger == b.ledger + entries
    ensures SumTransfers(transfers) == SumAmounts(plan.payouts)
    ensures SumEntries(entries) == SumAmounts(plan.payouts) + plan.rakeAmount
    ensures |transfers| == |Due(plan.payouts)| && Booked(plan, entries)
    ensures forall k :: 0 <= k < |transfers| ==>
              Due(plan.payouts)[k] in plan.payouts && Pays(plan, Due(plan.payouts)[k], addresses, transfers[k])
  {
    ClosesIff(b, plan, addresses, minConfirmations, wallet, room);
    var s := Send(plan, addresses, wallet, |plan.payouts|);
    transfers, entries := s.transfers, Entries(plan);
    RecordsLeaveRest(Planned(b, plan).(sent := b.sent + transfers), b.nextId, plan, s.result.value);
    SentInFull(plan, addresses, wallet, |plan.payouts|);
    assert plan.payouts[..|plan.payouts|] == plan.payouts;
    LedgerTotal(plan);
    EntriesBooked(plan);
    SendInStep(plan, addresses, wallet, |plan.payouts|);
    forall k | 0 <= k < |transfers|
      ensures Due(plan.payouts)[k] in plan.payouts && Pays(plan, Due(plan.payouts)[k], addresses, transfers[k])
    {
      TransfersPay(plan, addresses, wallet, k);
    }
  }
}
