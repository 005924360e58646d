/** The index that binds chain transactions to player actions, kept in two maps. */
module TxBindings {
  import opened Money
  import opened Seats

  datatype ActionKey = ActionKey(handId: nat, actionSeq: nat)

  datatype Binding = Binding(
    roomId: nat, action: ActionKey, seatId: SeatId, expectedAmount: Option<Chips>, txHash: string,
    status: string, createdAt: nat)

  /** A binding as it is read back: one without an expected amount is not. */
  datatype Bound = Bound(
    roomId: nat, action: ActionKey, seatId: SeatId, expectedAmount: Chips, txHash: string, status: string, boundAt: nat)

  datatype BindError = DuplicateTxBinding | DuplicateTxHashBinding

  datatype Index = Index(byAction: map<ActionKey, string>, byHash: map<string, Binding>)

  function Inserted(ix: Index, b: Binding): (r: Result<Index, BindError>)
  {
    if b.action in ix.byAction then Err(DuplicateTxBinding)
    else if b.txHash in ix.byHash then Err(DuplicateTxHashBinding)
    else Ok(Index(ix.byAction[b.action := b.txHash], ix.byHash[b.txHash := b]))
  }

  function Read(b: Binding): (r: Option<Bound>)
  {
    match b.expectedAmount
    case None => None
    case Some(amount) => Some(Bound(b.roomId, b.action, b.seatId, amount, b.txHash, b.status, b.createdAt))
  }

  function ByHash(ix: Index, txHash: string): (r: Option<Bound>)
  {
    if txHash in ix.byHash then Read(ix.byHash[txHash]) else None
  }

  function ByAction(ix: Index, action: ActionKey): (r: Option<Bound>)
  {
    if action in ix.byAction then ByHash(ix, ix.byAction[action]) else None
  }

  class InMemoryBindings {
    var byAction: map<ActionKey, string>
    var byHash: map<string, Binding>

    constructor ()
      ensures Now() == Index(map[], map[])
    {
      byAction, byHash := map[], map[];
    }

    ghost function Now(): (ix: Index)
      reads this
    {
      Index(byAction, byHash)
    }

    method Insert(b: Binding) returns (e: Option<BindError>)
      modifies this
      ensures match Inserted(old(Now()), b)
              case Ok(ix) => e.None? && Now() == ix
              case Err(error) => e == Some(error) && Now() == old(Now())
    {
      if b.action in byAction {
        return Some(DuplicateTxBinding);
      }
      if b.txHash in byHash {
        return Some(DuplicateTxHashBinding);
      }
      byAction := byAction[b.action := b.txHash];
      byHash := byHash[b.txHash := b];
      return None;
    }

    method FindByAction(action: ActionKey) returns (r: Option<Bound>)
      ensures r == ByAction(Now(), action)
    {
      if action !in byAction {
        return None;
      }
      var txHash := byAction[action];
      if txHash !in byHash {
        return None;
      }
      r := Read(byHash[txHash]);
    }
  }

  // ----- runs -----

  /** A refused insert leaves the index alone. */
  function Next(ix: Index, b: Binding): (r: Index)
  {
    match Inserted(ix, b) case Ok(next) => next case Err(_) => ix
  }

  function Run(inserts: seq<Binding>): (ix: Index)
  {
    if inserts == [] then Index(map[], map[]) else Next(Run(inserts[..|inserts| - 1]), inserts[|inserts| - 1])
  }

  predicate Kept(inserts: seq<Binding>, k: nat)
    requires k < |inserts|
  {
    Inserted(Run(inserts[..k]), inserts[k]).Ok?
  }

  /** Each map undoes the other, and every binding sits under its own keys. */
  ghost predicate Inverse(ix: Index)
  {
    && (forall a :: a in ix.byAction ==> ix.byAction[a] in ix.byHash && ix.byHash[ix.byAction[a]].action == a)
    && (forall h :: h in ix.byHash ==>
          && ix.byHash[h].txHash == h
          && ix.byHash[h].action in ix.byAction && ix.byAction[ix.byHash[h].action] == h)
  }

  lemma {:induction false} RunInverse(inserts: seq<Binding>)
    ensures Inverse(Run(inserts))
  {
    if inserts != [] {
      RunInverse(inserts[..|inserts| - 1]);
    }
  }

  /** After any inserts, what is found under an action is what is found under a transaction hash, and
      the other way round. */
  lemma {:induction false} LookupsAgree(inserts: seq<Binding>, action: ActionKey, txHash: string, b: Bound)
    ensures ByAction(Run(inserts), action) == Some(b) ==>
              b.action == action && ByHash(Run(inserts), b.txHash) == Some(b)
    ensures ByHash(Run(inserts), txHash) == Some(b) ==>
              b.txHash == txHash && ByAction(Run(inserts), b.action) == Some(b)
  {
    RunInverse(inserts);
  }

  /** One of the first `n` inserts is `b`, and was kept. */
  ghost predicate AmongKept(inserts: seq<Binding>, n: nat, b: Binding)
    requires n <= |inserts|
  {
    exists k :: 0 <= k < n && Kept(inserts, k) && inserts[k] == b
  }

  /** The index holds exactly the inserts that were kept. */
  lemma {:induction false} HoldsTheKept(inserts: seq<Binding>, n: nat, b: Binding)
    requires n <= |inserts|
    ensures b.txHash in Run(inserts[..n]).byHash && Run(inserts[..n]).byHash[b.txHash] == b <==>
              AmongKept(inserts, n, b)
  {
    if n > 0 {
      HoldsTheKept(inserts, n - 1, b);
      assert inserts[..n][..n - 1] == inserts[..n - 1];
      assert AmongKept(inserts, n, b) <==>
          AmongKept(inserts, n - 1, b) || (Kept(inserts, n - 1) && inserts[n - 1] == b);
    }
  }

  /** What is found under an action is, field by field, the one kept insert for it, unless that has no amount. */
  lemma {:induction false} FoundIff(inserts: seq<Binding>, action: ActionKey, found: Bound)
    ensures ByAction(Run(inserts), action) == Some(found) <==>
              exists b :: AmongKept(inserts, |inserts|, b) && b.action == action && ReadAs(b, found)
  {
    var ix := Run(inserts);
    assert inserts[..|inserts|] == inserts;
    RunInverse(inserts);
    if action in ix.byAction {
      HoldsTheKept(inserts, |inserts|, ix.byHash[ix.byAction[action]]);
    }
    forall b | AmongKept(inserts, |inserts|, b) && b.action == action
      ensures b.txHash in ix.byHash && ix.byHash[b.txHash] == b
    {
      HoldsTheKept(inserts, |inserts|, b);
    }
  }

  predicate ReadAs(b: Binding, found: Bound)
  {
    && found.roomId == b.roomId && found.action == b.action && found.seatId == b.seatId
    && b.expectedAmount == Some(found.expectedAmount) && found.txHash == b.txHash
    && found.status == b.status && found.boundAt == b.createdAt
  }

  /** A refusal blames the action if an earlier kept insert has it, and the transaction otherwise. */
  lemma {:induction false} RefusedFor(inserts: seq<Binding>, k: nat)
    requires k < |inserts| && !Kept(inserts, k)
    ensures Inserted(Run(inserts[..k]), inserts[k])
         == Err(if exists j :: 0 <= j < k && Kept(inserts, j) && inserts[j].action == inserts[k].action
                then DuplicateTxBinding else DuplicateTxHashBinding)
  {
    var ix := Run(inserts[..k]);
    RunInverse(inserts[..k]);
    if inserts[k].action in ix.byAction {
      HoldsTheKept(inserts, k, ix.byHash[ix.byAction[inserts[k].action]]);
    }
    forall j | 0 <= j < k && Kept(inserts, j) ensures inserts[j].action in ix.byAction {
      HoldsTheKept(inserts, k, inserts[j]);
    }
  }

  /** An insert is kept if and only if no earlier kept insert has its action or its transaction. */
  lemma {:induction false} KeptIff(inserts: seq<Binding>, k: nat)
    requires k < |inserts|
    ensures Kept(inserts, k) <==>
              forall j :: 0 <= j < k && Kept(inserts, j) ==>
                inserts[j].action != inserts[k].action && inserts[j].txHash != inserts[k].txHash
  {
    var ix := Run(inserts[..k]);
    RunInverse(inserts[..k]);
    forall j | 0 <= j < k && Kept(inserts, j)
      ensures inserts[j].txHash in ix.byHash && ix.byHash[inserts[j].txHash] == inserts[j]
    {
      HoldsTheKept(inserts, k, inserts[j]);
    }
    if inserts[k].action in ix.byAction {
      HoldsTheKept(inserts, k, ix.byHash[ix.byAction[inserts[k].action]]);
    } else if inserts[k].txHash in ix.byHash {
      HoldsTheKept(inserts, k, ix.byHash[inserts[k].txHash]);
    }
  }
}
