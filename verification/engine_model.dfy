/** The engine's state as a value, and what dealing and acting make of it. */
module EngineModel {
  import opened Arith
  import opened Money
  import opened Seats
  import opened Pots

  const U32_MAX: nat := 0xFFFF_FFFF
  const U64_MAX: nat := 0xFFFF_FFFF_FFFF_FFFF

  type U32 = n: nat | n <= U32_MAX
  type U64 = n: nat | n <= U64_MAX

  type Card = n: nat | n < 52

  const SMALL_BLIND: Chips := 100_000_000_000_000
  const BIG_BLIND: Chips := 200_000_000_000_000

  datatype Street = Preflop | Flop | Turn | River | ShowdownStreet

  datatype HandStatus = Created | Running | Showdown | Settling | Settled | Aborted

  datatype ActionType = Fold | Check | Call | RaiseTo | AllIn

  datatype PlayerAction = PlayerAction(actionSeq: U32, seatId: SeatId, actionType: ActionType, amount: Option<Chips>)

  datatype LegalAction = LegalAction(actionType: ActionType, minAmount: Option<Chips>, maxAmount: Option<Chips>)

  datatype HandSnapshot = HandSnapshot(
    roomId: nat, handId: nat, handNo: U64, status: HandStatus, street: Street, boardCards: seq<Card>,
    actingSeatId: Option<SeatId>, nextActionSeq: U32, potTotal: Chips)

  datatype HandState = HandState(
    handId: nat, street: Street, nextActionSeq: U32, actingSeatId: Option<SeatId>,
    seated: set<SeatId>, folded: set<SeatId>, allIn: set<SeatId>)

  datatype BettingRound = BettingRound(
    currentBet: Chips, minRaiseTo: Option<Chips>, actingSeatId: Option<SeatId>,
    playerBets: ChipMap, acted: set<SeatId>)

  datatype PotState = PotState(mainPot: Chips, sidePots: seq<SidePot>, contributions: ChipMap)

  datatype Dealing = Dealing(
    undealtDeck: seq<Card>, burnCards: seq<Card>, boardCards: seq<Card>, holeCards: map<SeatId, (Card, Card)>)

  datatype View = View(
    snapshot: HandSnapshot, hand: HandState, round: BettingRound, pot: PotState, dealing: Option<Dealing>)

  datatype EngineError =
    | ActionIllegal
    | NotYourTurn
    | MoneyFault(cause: MoneyError)
    | NotEnoughPlayersToDeal
    | InsufficientDeck
    | DuplicateCardsInDeck

  datatype Outcome = Accepted(streetChanged: Option<Street>) | Rejected(error: EngineError)

  /** The state of a freshly opened room. */
  function Opened(roomId: nat, handId: nat, handNo: U64): (v: View)
  {
    View(HandSnapshot(roomId, handId, handNo, Created, Preflop, [], None, 1, 0),
         HandState(handId, Preflop, 1, None, {}, {}, {}),
         BettingRound(0, None, None, map[], {}),
         PotState(0, [], map[]),
         None)
  }

  // ----- reading the state -----

  function SeatBet(v: View, seat: SeatId): (c: Chips)
  {
    Get(v.round.playerBets, seat)
  }

  function Contributed(v: View, seat: SeatId): (c: Chips)
  {
    Get(v.pot.contributions, seat)
  }

  function Unfolded(v: View): (s: set<SeatId>)
  {
    v.hand.seated - v.hand.folded
  }

  function Actionable(v: View): (s: set<SeatId>)
  {
    v.hand.seated - v.hand.folded - v.hand.allIn
  }

  predicate RoundComplete(v: View)
  {
    Unfolded(v) != {} &&
    forall s :: s in Unfolded(v) ==>
      s in v.round.acted && (s in v.hand.allIn || SeatBet(v, s) == v.round.currentBet)
  }

  // ----- seat order -----

  /** The first place of `seat` in `order` from index `i` on. */
  function PositionFrom(order: seq<SeatId>, seat: SeatId, i: nat): (p: Option<nat>)
    requires i <= |order|
    decreases |order| - i
  {
    if i == |order| then None
    else if order[i] == seat then Some(i)
    else PositionFrom(order, seat, i + 1)
  }

  function Position(order: seq<SeatId>, seat: SeatId): (p: Option<nat>)
  {
    PositionFrom(order, seat, 0)
  }

  /** Going round the table from `start`, the first wanted seat at distance `step` or more. */
  function FirstWanted(order: seq<SeatId>, start: nat, step: nat, wanted: set<SeatId>): (r: Option<SeatId>)
    decreases |order| + 1 - step
  {
    if step > |order| || order == [] then None
    else
      var candidate := order[(start + step) % |order|];
      if candidate in wanted then Some(candidate) else FirstWanted(order, start, step + 1, wanted)
  }

  function OrElse(r: Option<SeatId>, default: SeatId): (s: SeatId)
  {
    if r.Some? then r.value else default
  }

  function DealerIndex(handNo: U64, seatCount: nat): (i: nat)
    ensures seatCount > 0 ==> i < seatCount
  {
    if seatCount == 0 then 0 else (if handNo == 0 then 0 else handNo - 1) % seatCount
  }

  /** Small blind, big blind and first seat to act, for the dealer at index `d`. */
  function BlindsFrom(d: nat, order: seq<SeatId>): (r: (SeatId, SeatId, SeatId))
    requires |order| >= 2 && d < |order|
  {
    var n := |order|;
    if n == 2 then (order[d], order[(d + 1) % n], order[d])
    else (order[(d + 1) % n], order[(d + 2) % n], order[(d + 3) % n])
  }

  function Blinds(handNo: U64, order: seq<SeatId>): (r: (SeatId, SeatId, SeatId))
    requires |order| >= 2
  {
    BlindsFrom(DealerIndex(handNo, |order|), order)
  }

  /** Heads-up or not, the blinds fall on two different seats. */
  lemma {:induction false} BlindsDiffer(d: nat, order: seq<SeatId>)
    requires Ascending(order) && |order| >= 2 && d < |order|
    ensures BlindsFrom(d, order).0 != BlindsFrom(d, order).1
  {
    WrapIndex(d + 1, |order|);
    if |order| > 2 {
      WrapIndex(d + 2, |order|);
    }
  }

  // ----- turns and streets -----

  function WithActor(v: View, actor: Option<SeatId>): (r: View)
  {
    v.(snapshot := v.snapshot.(actingSeatId := actor),
       hand := v.hand.(actingSeatId := actor),
       round := v.round.(actingSeatId := actor))
  }

  function WithStreet(v: View, street: Street): (r: View)
  {
    v.(snapshot := v.snapshot.(street := street), hand := v.hand.(street := street))
  }

  function WithStatus(v: View, status: HandStatus): (r: View)
  {
    v.(snapshot := v.snapshot.(status := status))
  }

  function NextStreet(s: Street): (r: Option<Street>)
  {
    match s
    case Preflop => Some(Flop)
    case Flop => Some(Turn)
    case Turn => Some(River)
    case River => None
    case ShowdownStreet => None
  }

  function RevealCount(s: Street): (n: nat)
  {
    match s
    case Preflop => 0
    case Flop => 3
    case Turn => 4
    case River => 5
    case ShowdownStreet => 5
  }

  function Take(cards: seq<Card>, n: nat): (r: seq<Card>)
  {
    if n <= |cards| then cards[..n] else cards
  }

  function Revealing(v: View, n: nat): (r: View)
  {
    if v.dealing.Some?
    then v.(snapshot := v.snapshot.(boardCards := Take(v.dealing.value.boardCards, n)))
    else v
  }

  /** The first unfolded seat to the left of the button. */
  function LeftOfButton(v: View): (s: SeatId)
    requires Unfolded(v) != {}
  {
    var order := Sorted(v.hand.seated);
    var d := DealerIndex(v.snapshot.handNo, |order|);
    SortedSpec(Unfolded(v));
    OrElse(if d < |order| then FirstWanted(order, d, 1, Unfolded(v)) else None, Sorted(Unfolded(v))[0])
  }

  function AtShowdown(v: View): (r: View)
  {
    WithActor(WithStreet(WithStatus(v, Showdown), ShowdownStreet), None)
  }

  /** Bets and the set of seats that acted start afresh on a new street. */
  function ClearedRound(v: View): (r: View)
  {
    v.(round := v.round.(currentBet := 0, minRaiseTo := None, playerBets := map[], acted := {}))
  }

  function AdvanceStreet(v: View): (r: (View, Option<Street>))
    requires Unfolded(v) != {}
  {
    match NextStreet(v.snapshot.street)
    case None =>
      (AtShowdown(Revealing(v, if v.dealing.Some? then |v.dealing.value.boardCards| else 0)), Some(ShowdownStreet))
    case Some(next) =>
      (WithActor(ClearedRound(Revealing(WithStreet(v, next), RevealCount(next))), Some(LeftOfButton(v))), Some(next))
  }

  /** The next unfolded seat round the table that is not all-in. */
  function NextToAct(v: View, seat: SeatId): (s: SeatId)
    requires Actionable(v) != {}
  {
    var order := Sorted(v.hand.seated);
    var p := Position(order, seat);
    SortedSpec(Actionable(v));
    OrElse(if p.Some? then FirstWanted(order, p.value, 1, Actionable(v)) else None, Sorted(Actionable(v))[0])
  }

  function AdvanceTurn(v: View, seat: SeatId): (r: (View, Option<Street>))
  {
    if |Unfolded(v)| <= 1 then (WithActor(WithStatus(v, Settled), None), None)
    else if RoundComplete(v) then AdvanceStreet(v)
    else if Actionable(v) == {} then (AtShowdown(v), Some(ShowdownStreet))
    else (WithActor(v, Some(NextToAct(v, seat))), None)
  }

  // ----- acting -----

  function NextMinRaiseTo(currentBet: Chips, target: Chips): (c: Chips)
  {
    var size := UnwrapOr(CheckedSub(target, currentBet), 0);
    if size == 0 then target else UnwrapOr(CheckedAdd(target, size), target)
  }

  /** What an in-turn action comes to: refused, free of charge, or a bet brought up to a target. */
  datatype Ruling = Refused | Folds | Checks | BetsTo(target: Chips)

  function Rule(v: View, a: PlayerAction): (r: Ruling)
    ensures r.BetsTo? ==> r.target > SeatBet(v, a.seatId)
  {
    var bet, current := SeatBet(v, a.seatId), v.round.currentBet;
    match a.actionType
    case Fold => Folds
    case Check => if bet < current then Refused else Checks
    case Call => if bet < current then BetsTo(current) else Refused
    case AllIn => if a.amount.None? || a.amount.value <= bet then Refused else BetsTo(a.amount.value)
    case RaiseTo =>
      if a.amount.None? || a.amount.value <= bet || a.amount.value <= current then Refused
      else if v.round.minRaiseTo.Some? && a.amount.value < v.round.minRaiseTo.value then Refused
      else BetsTo(a.amount.value)
  }

  /** The bet is on the table, the pot has not been touched yet. */
  function BetPlaced(v: View, seat: SeatId, target: Chips): (r: View)
  {
    var round := v.round.(playerBets := v.round.playerBets[seat := target]);
    if target > v.round.currentBet
    then v.(round := round.(currentBet := target, minRaiseTo := Some(NextMinRaiseTo(v.round.currentBet, target))))
    else v.(round := round)
  }

  /** The pot after `seat` pays `delta`, when nothing overflows. */
  function Paid(pot: PotState, seat: SeatId, delta: Chips): (r: PotState)
    requires pot.mainPot + delta <= U128_MAX && Get(pot.contributions, seat) + delta <= U128_MAX
  {
    pot.(mainPot := pot.mainPot + delta,
         contributions := pot.contributions[seat := Get(pot.contributions, seat) + delta])
  }

  /** Who counts as having acted after an action: a raise reopens the round for all but the raiser
      and the seats that are all-in. */
  function ActedAfter(v: View, seat: SeatId, raised: bool): (s: set<SeatId>)
  {
    if raised then v.hand.allIn + {seat} else v.round.acted + {seat}
  }

  function Increment(n: U32): (r: U32)
  {
    if n < U32_MAX then n + 1 else n
  }

  /** What an accepted action hands to the turn logic: side pots, acted set and sequence number are new. */
  function Recorded(v: View, seat: SeatId, raised: bool): (w: View)
  {
    var seqNo := Increment(v.snapshot.nextActionSeq);
    v.(pot := v.pot.(sidePots := SidePots(v.pot.contributions, v.hand.folded)),
       round := v.round.(acted := ActedAfter(v, seat, raised)),
       snapshot := v.snapshot.(nextActionSeq := seqNo),
       hand := v.hand.(nextActionSeq := seqNo))
  }

  /** What every accepted action ends with: it is recorded and the turn moves on. */
  function Finish(v: View, seat: SeatId, raised: bool): (r: (View, Outcome))
  {
    var (next, changed) := AdvanceTurn(Recorded(v, seat, raised), seat);
    (next, Accepted(changed))
  }

  predicate PotOverflows(v: View, seat: SeatId, delta: Chips)
  {
    v.pot.mainPot + delta > U128_MAX || Contributed(v, seat) + delta > U128_MAX
  }

  /** The bet is on the table and paid for. */
  function BetPaid(v: View, a: PlayerAction, target: Chips): (r: View)
    requires target > SeatBet(v, a.seatId)
    requires !PotOverflows(v, a.seatId, target - SeatBet(v, a.seatId))
  {
    var pot := Paid(v.pot, a.seatId, target - SeatBet(v, a.seatId));
    var hand := if a.actionType == AllIn then v.hand.(allIn := v.hand.allIn + {a.seatId}) else v.hand;
    BetPlaced(v, a.seatId, target).(pot := pot, hand := hand, snapshot := v.snapshot.(potTotal := pot.mainPot))
  }

  /** What an overflow leaves behind: the bet is written, the main pot too when it still fits. */
  function BetHalfDone(v: View, seat: SeatId, target: Chips): (r: View)
    requires target > SeatBet(v, seat)
  {
    var delta := target - SeatBet(v, seat);
    var w := BetPlaced(v, seat, target);
    if v.pot.mainPot + delta > U128_MAX then w else w.(pot := w.pot.(mainPot := v.pot.mainPot + delta))
  }

  /** An in-turn bet to `target`. An overflow is reported after part of the state was written. */
  function PlaceBet(v: View, a: PlayerAction, target: Chips): (r: (View, Outcome))
    requires target > SeatBet(v, a.seatId)
  {
    if PotOverflows(v, a.seatId, target - SeatBet(v, a.seatId))
    then (BetHalfDone(v, a.seatId, target), Rejected(MoneyFault(Overflow)))
    else Finish(BetPaid(v, a, target), a.seatId, target > v.round.currentBet)
  }

  function Apply(v: View, a: PlayerAction): (r: (View, Outcome))
  {
    if a.actionSeq != v.snapshot.nextActionSeq then (v, Rejected(ActionIllegal))
    else if v.snapshot.actingSeatId != Some(a.seatId) then (v, Rejected(NotYourTurn))
    else
      match Rule(v, a)
      case Refused => (v, Rejected(ActionIllegal))
      case Folds => Finish(WithFold(v, a.seatId), a.seatId, false)
      case Checks => Finish(v, a.seatId, false)
      case BetsTo(target) => PlaceBet(v, a, target)
  }

  function WithFold(v: View, seat: SeatId): (r: View)
  {
    v.(hand := v.hand.(folded := v.hand.folded + {seat}))
  }

  /** What an accepted action records, before the turn moves on. */
  function AfterAction(v: View, a: PlayerAction): (x: View)
    requires Apply(v, a).1.Accepted?
  {
    match Rule(v, a)
    case Refused => v
    case Folds => Recorded(WithFold(v, a.seatId), a.seatId, false)
    case Checks => Recorded(v, a.seatId, false)
    case BetsTo(target) => Recorded(BetPaid(v, a, target), a.seatId, target > v.round.currentBet)
  }

  // ----- dealing -----

  function CardSet(deck: seq<Card>): (s: set<Card>)
  {
    set c | c in deck
  }

  function CheckDeal(v: View, deck: seq<Card>): (r: Option<EngineError>)
  {
    if |v.hand.seated| < 2 then Some(NotEnoughPlayersToDeal)
    else if |CardSet(deck)| != |deck| then Some(DuplicateCardsInDeck)
    else if |deck| < |v.hand.seated| * 2 + 8 then Some(InsufficientDeck)
    else None
  }

  /** Hole cards go round the table twice: seat `i` of `n` gets cards `i` and `n + i`. */
  function DealtHoles(order: seq<SeatId>, deck: seq<Card>, i: nat): (m: map<SeatId, (Card, Card)>)
    requires i <= |order| && |deck| >= 2 * |order|
  {
    if i == 0 then map[] else DealtHoles(order, deck, i - 1)[order[i - 1] := (deck[i - 1], deck[|order| + i - 1])]
  }

  function DealtCards(order: seq<SeatId>, deck: seq<Card>): (d: Dealing)
    requires |deck| >= 2 * |order| + 8
  {
    var k := 2 * |order|;
    Dealing(deck[k + 8..],
            deck[k..k + 1] + deck[k + 4..k + 5] + deck[k + 6..k + 7],
            deck[k + 1..k + 4] + deck[k + 5..k + 6] + deck[k + 7..k + 8],
            DealtHoles(order, deck, |order|))
  }

  function NextHandNo(s: HandSnapshot): (n: U64)
  {
    if s.status == Created || s.handNo == U64_MAX then s.handNo else s.handNo + 1
  }

  /** The state after a successful deal. Folds and all-ins of the previous hand stay in place. */
  function Dealt(v: View, deck: seq<Card>, handId: nat): (r: View)
    requires CheckDeal(v, deck).None?
  {
    SortedSpec(v.hand.seated);
    var order := Sorted(v.hand.seated);
    var handNo := NextHandNo(v.snapshot);
    var (sb, bb, first) := Blinds(handNo, order);
    var posted := map[sb := SMALL_BLIND, bb := BIG_BLIND];
    var pot: Chips := SMALL_BLIND + BIG_BLIND;
    View(HandSnapshot(v.snapshot.roomId, handId, handNo, Running, Preflop, [], Some(first), 1, pot),
         HandState(handId, Preflop, 1, Some(first), v.hand.seated, v.hand.folded, v.hand.allIn),
         BettingRound(BIG_BLIND, Some(2 * BIG_BLIND), Some(first), posted, {}),
         PotState(pot, [], posted),
         Some(DealtCards(order, deck)))
  }

  function Deal(v: View, deck: seq<Card>, handId: nat): (r: Result<View, EngineError>)
  {
    match CheckDeal(v, deck)
    case Some(e) => Err(e)
    case None => Ok(Dealt(v, deck, handId))
  }

  function Seat(v: View, seat: SeatId): (r: View)
  {
    v.(hand := v.hand.(seated := v.hand.seated + {seat}))
  }

  // ----- what a seat may do -----

  function LegalActions(v: View, seat: SeatId): (r: seq<LegalAction>)
  {
    if v.snapshot.actingSeatId != Some(seat) then []
    else
      var current := v.round.currentBet;
      var toCall := UnwrapOr(CheckedSub(current, SeatBet(v, seat)), 0);
      var minRaise := if v.round.minRaiseTo.Some? then v.round.minRaiseTo.value
                      else UnwrapOr(CheckedAdd(current, 1), current);
      [LegalAction(Fold, None, None),
       if toCall == 0 then LegalAction(Check, None, None) else LegalAction(Call, Some(toCall), Some(toCall)),
       LegalAction(RaiseTo, Some(minRaise), None),
       LegalAction(AllIn, None, None)]
  }
}
