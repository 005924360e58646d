/** The cards of a hand, and how the button travels from hand to hand. */
module EngineDealing {
  import opened Arith
  import opened Money
  import opened Seats
  import opened EngineModel
  import opened EngineTurns

  // ----- the deck -----

  lemma {:induction false} HolesAt(order: seq<SeatId>, deck: seq<Card>, i: nat, j: nat)
    requires j < i <= |order| && |deck| >= 2 * |order| && Ascending(order)
    ensures order[j] in DealtHoles(order, deck, i)
    ensures DealtHoles(order, deck, i)[order[j]] == (deck[j], deck[|order| + j])
  {
    if j < i - 1 {
      HolesAt(order, deck, i - 1, j);
    }
  }

  lemma {:induction false} HolesOnlyFor(order: seq<SeatId>, deck: seq<Card>, i: nat, s: SeatId)
    requires i <= |order| && |deck| >= 2 * |order| && s in DealtHoles(order, deck, i)
    ensures s in order
  {
    if s != order[i - 1] {
      HolesOnlyFor(order, deck, i - 1, s);
    }
  }

  /** The first and second hole cards in seat order. */
  function FirstCards(order: seq<SeatId>, holes: map<SeatId, (Card, Card)>): (r: seq<Card>)
    requires forall k :: 0 <= k < |order| ==> order[k] in holes
    ensures |r| == |order| && forall k :: 0 <= k < |order| ==> r[k] == holes[order[k]].0
  {
    seq(|order|, k requires 0 <= k < |order| => holes[order[k]].0)
  }

  function SecondCards(order: seq<SeatId>, holes: map<SeatId, (Card, Card)>): (r: seq<Card>)
    requires forall k :: 0 <= k < |order| ==> order[k] in holes
    ensures |r| == |order| && forall k :: 0 <= k < |order| ==> r[k] == holes[order[k]].1
  {
    seq(|order|, k requires 0 <= k < |order| => holes[order[k]].1)
  }

  lemma {:induction false} Regroup(all: multiset<Card>, a: multiset<Card>, b: multiset<Card>, e: multiset<Card>,
                                   f: multiset<Card>,
                g: multiset<Card>, h: multiset<Card>, rest: multiset<Card>)
    requires all == a + (b + (e + (f + (g + (h + rest)))))
    ensures all == (a + e + g) + (b + f + h) + rest
  {
  }

  lemma {:induction false} Splits(deck: seq<Card>, i: nat, j: nat)
    requires i <= j <= |deck|
    ensures multiset(deck[i..]) == multiset(deck[i..j]) + multiset(deck[j..])
  {
    assert deck[i..] == deck[i..j] + deck[j..];
  }

  /** Burns and board, drawn alternately, are the eight cards after the holes. */
  lemma {:induction false} BurnsAndBoard(deck: seq<Card>, k: nat, burns: seq<Card>, board: seq<Card>)
    requires k + 8 <= |deck|
    requires burns == deck[k..k + 1] + deck[k + 4..k + 5] + deck[k + 6..k + 7]
    requires board == deck[k + 1..k + 4] + deck[k + 5..k + 6] + deck[k + 7..k + 8]
    ensures multiset(deck[k..]) == multiset(burns) + multiset(board) + multiset(deck[k + 8..])
  {
    EightCards(deck, k);
  }

  lemma {:induction false} EightCards(deck: seq<Card>, k: nat)
    requires k + 8 <= |deck|
    ensures multiset(deck[k..])
         == (multiset(deck[k..k + 1]) + multiset(deck[k + 4..k + 5]) + multiset(deck[k + 6..k + 7]))
            + (multiset(deck[k + 1..k + 4]) + multiset(deck[k + 5..k + 6]) + multiset(deck[k + 7..k + 8]))
            + multiset(deck[k + 8..])
  {
    var a, b, e := multiset(deck[k..k + 1]), multiset(deck[k + 1..k + 4]), multiset(deck[k + 4..k + 5]);
    var f, g, h := multiset(deck[k + 5..k + 6]), multiset(deck[k + 6..k + 7]), multiset(deck[k + 7..k + 8]);
    var rest := multiset(deck[k + 8..]);
    calc {
      multiset(deck[k..]);
    == { Splits(deck, k, k + 1); }
      a + multiset(deck[k + 1..]);
    == { Splits(deck, k + 1, k + 4); }
      a + (b + multiset(deck[k + 4..]));
    == { Splits(deck, k + 4, k + 5); }
      a + (b + (e + multiset(deck[k + 5..])));
    == { Splits(deck, k + 5, k + 6); }
      a + (b + (e + (f + multiset(deck[k + 6..]))));
    == { Splits(deck, k + 6, k + 7); }
      a + (b + (e + (f + (g + multiset(deck[k + 7..])))));
    == { Splits(deck, k + 7, k + 8); }
      a + (b + (e + (f + (g + (h + rest)))));
    }
    Regroup(multiset(deck[k..]), a, b, e, f, g, h, rest);
  }

  /** Every seated player, and nobody else, holds two cards: seat `i` of `n` cards `i` and `n + i`. */
  lemma {:induction false} HolesDealt(seated: set<SeatId>, deck: seq<Card>)
    requires |deck| >= 2 * |Sorted(seated)|
    ensures var order := Sorted(seated);
            var holes := DealtHoles(order, deck, |order|);
            && holes.Keys == seated
            && (forall i :: 0 <= i < |order| ==> order[i] in holes && holes[order[i]] == (deck[i], deck[|order| + i]))
  {
    var order := Sorted(seated);
    SortedSpec(seated);
    var n := |order|;
    var holes := DealtHoles(order, deck, n);
    forall i | 0 <= i < n ensures order[i] in holes && holes[order[i]] == (deck[i], deck[n + i]) {
      HolesAt(order, deck, n, i);
    }
    forall s | s in holes ensures s in seated {
      HolesOnlyFor(order, deck, n, s);
      assert s in Members(order);
    }
    forall s | s in seated ensures s in holes {
      assert s in Members(order);
    }
  }

  lemma {:induction false} HoleCards(order: seq<SeatId>, deck: seq<Card>, holes: map<SeatId, (Card, Card)>)
    requires |deck| >= 2 * |order|
    requires forall i :: 0 <= i < |order| ==> order[i] in holes && holes[order[i]] == (deck[i], deck[|order| + i])
    ensures multiset(deck[..2 * |order|]) == multiset(FirstCards(order, holes)) + multiset(SecondCards(order, holes))
  {
    var n := |order|;
    var a, b := FirstCards(order, holes), SecondCards(order, holes);
    forall i | 0 <= i < n ensures a[i] == deck[i] && b[i] == deck[n + i] {
      assert holes[order[i]] == (deck[i], deck[n + i]);
    }
    assert a == deck[..n];
    assert b == deck[n..2 * n];
    assert deck[..2 * n] == a + b;
  }

  lemma {:induction false} Flatten(all: multiset<Card>, a: multiset<Card>, b: multiset<Card>, c: multiset<Card>,
                                   d: multiset<Card>, e: multiset<Card>)
    requires all == (a + b) + (c + d + e)
    ensures all == a + b + c + d + e
  {
  }

  lemma {:induction false} CardsAddUp(order: seq<SeatId>, deck: seq<Card>, d: Dealing)
    requires |deck| >= 2 * |order| + 8
    requires var k := 2 * |order|;
             && d.burnCards == deck[k..k + 1] + deck[k + 4..k + 5] + deck[k + 6..k + 7]
             && d.boardCards == deck[k + 1..k + 4] + deck[k + 5..k + 6] + deck[k + 7..k + 8]
             && d.undealtDeck == deck[k + 8..]
    requires HolesInOrder(d, order, deck)
    ensures multiset(deck)
         == multiset(FirstCards(order, d.holeCards)) + multiset(SecondCards(order, d.holeCards))
            + multiset(d.burnCards) + multiset(d.boardCards) + multiset(d.undealtDeck)
  {
    var k := 2 * |order|;
    HoleCards(order, deck, d.holeCards);
    BurnsAndBoard(deck, k, d.burnCards, d.boardCards);
    assert deck == deck[..k] + deck[k..];
    Flatten(multiset(deck), multiset(FirstCards(order, d.holeCards)), multiset(SecondCards(order, d.holeCards)),
            multiset(d.burnCards), multiset(d.boardCards), multiset(d.undealtDeck));
  }

  ghost predicate HolesInOrder(d: Dealing, order: seq<SeatId>, deck: seq<Card>)
  {
    && |deck| >= 2 * |order|
    && d.holeCards.Keys == Members(order)
    && forall i :: 0 <= i < |order| ==>
         order[i] in d.holeCards && d.holeCards[order[i]] == (deck[i], deck[|order| + i])
  }

  lemma {:induction false} HolesAreInOrder(seated: set<SeatId>, deck: seq<Card>, d: Dealing)
    requires |deck| >= 2 * |Sorted(seated)| + 8 && d == DealtCards(Sorted(seated), deck)
    ensures HolesInOrder(d, Sorted(seated), deck)
  {
    SortedSpec(seated);
    HolesDealt(seated, deck);
  }

  /** The cards a deal hands out. Each seated player, and nobody else, has two hole cards, dealt in two
      rounds. Hole cards, burns, board and the undealt rest are together the deck: no card is lost and
      none is dealt twice. */
  lemma {:induction false} DeckIsPartitioned(seated: set<SeatId>, deck: seq<Card>, d: Dealing, order: seq<SeatId>)
    requires order == Sorted(seated) && |deck| >= 2 * |order| + 8 && d == DealtCards(order, deck)
    ensures HolesInOrder(d, order, deck)
    ensures multiset(deck)
         == multiset(FirstCards(order, d.holeCards)) + multiset(SecondCards(order, d.holeCards))
            + multiset(d.burnCards) + multiset(d.boardCards) + multiset(d.undealtDeck)
  {
    HolesAreInOrder(seated, deck, d);
    CardsAddUp(order, deck, d);
  }

  /** After the hole cards the deck runs: burn one, board three, burn one, board one, burn one, board one, and
      the rest is not dealt. */
  lemma {:induction false} BurnAndTurn(v: View, deck: seq<Card>, handId: nat)
    requires CheckDeal(v, deck).None?
    ensures Dealt(v, deck, handId).dealing.Some?
    ensures var d, n := Dealt(v, deck, handId).dealing.value, |v.hand.seated|;
            && |d.burnCards| == 3 && |d.boardCards| == 5
            && deck[2 * n..] == d.burnCards[..1] + d.boardCards[..3] + d.burnCards[1..2] + d.boardCards[3..4]
                                + d.burnCards[2..] + d.boardCards[4..] + d.undealtDeck
  {
    var order := Sorted(v.hand.seated);
    SortedSpec(v.hand.seated);
    CardsRun(order, deck, DealtCards(order, deck));
  }

  lemma {:induction false} CardsRun(order: seq<SeatId>, deck: seq<Card>, d: Dealing)
    requires |deck| >= 2 * |order| + 8 && d == DealtCards(order, deck)
    ensures |d.burnCards| == 3 && |d.boardCards| == 5
    ensures deck[2 * |order|..] == d.burnCards[..1] + d.boardCards[..3] + d.burnCards[1..2] + d.boardCards[3..4]
                                   + d.burnCards[2..] + d.boardCards[4..] + d.undealtDeck
  {
    var k := 2 * |order|;
    assert d.burnCards[..1] == deck[k..k + 1] && d.boardCards[..3] == deck[k + 1..k + 4];
    assert d.burnCards[1..2] == deck[k + 4..k + 5] && d.boardCards[3..4] == deck[k + 5..k + 6];
    assert d.burnCards[2..] == deck[k + 6..k + 7] && d.boardCards[4..] == deck[k + 7..k + 8];
  }

  // ----- the board and the streets -----

  function StreetIndex(s: Street): (n: nat)
  {
    match s
    case Preflop => 0
    case Flop => 1
    case Turn => 2
    case River => 3
    case ShowdownStreet => 4
  }

  ghost predicate BoardShown(v: View)
  {
    && v.dealing.Some? && |v.dealing.value.boardCards| == 5
    && v.snapshot.boardCards <= v.dealing.value.boardCards
    && match v.snapshot.street
       case Preflop => |v.snapshot.boardCards| == 0
       case Flop => |v.snapshot.boardCards| == 3
       case Turn => |v.snapshot.boardCards| == 4
       case River => |v.snapshot.boardCards| == 5
       case ShowdownStreet => |v.snapshot.boardCards| <= 5
  }

  /** The deal stays the same, the board shown only grows and no street comes back. */
  ghost predicate BoardGrows(v: View, w: View)
  {
    && w.dealing == v.dealing
    && v.snapshot.boardCards <= w.snapshot.boardCards
    && StreetIndex(v.snapshot.street) <= StreetIndex(w.snapshot.street)
  }

  lemma {:induction false} StreetGrowsBoard(v: View)
    requires BoardShown(v) && Unfolded(v) != {}
    ensures BoardShown(AdvanceStreet(v).0) && BoardGrows(v, AdvanceStreet(v).0)
  {
  }

  lemma {:induction false} TurnGrowsBoard(v: View, seat: SeatId)
    requires BoardShown(v)
    ensures BoardShown(AdvanceTurn(v, seat).0) && BoardGrows(v, AdvanceTurn(v, seat).0)
  {
    if |Unfolded(v)| > 1 && RoundComplete(v) {
      StreetGrowsBoard(v);
    }
  }

  lemma {:induction false} FinishGrowsBoard(v: View, seat: SeatId, raised: bool)
    requires BoardShown(v)
    ensures BoardShown(Finish(v, seat, raised).0) && BoardGrows(v, Finish(v, seat, raised).0)
  {
    TurnGrowsBoard(Recorded(v, seat, raised), seat);
  }

  /** Any action, accepted or not. */
  lemma {:induction false} ActionGrowsBoard(v: View, a: PlayerAction)
    requires BoardShown(v)
    ensures BoardShown(Apply(v, a).0) && BoardGrows(v, Apply(v, a).0)
  {
    if a.actionSeq == v.snapshot.nextActionSeq && v.snapshot.actingSeatId == Some(a.seatId) {
      match Rule(v, a)
      case Refused =>
      case Folds =>
        FinishGrowsBoard(WithFold(v, a.seatId), a.seatId, false);
      case Checks =>
        FinishGrowsBoard(v, a.seatId, false);
      case BetsTo(target) =>
        if !PotOverflows(v, a.seatId, target - SeatBet(v, a.seatId)) {
          FinishGrowsBoard(BetPaid(v, a, target), a.seatId, target > v.round.currentBet);
        }
    }
  }

  lemma {:induction false} PlayGrowsBoard(v: View, actions: seq<PlayerAction>)
    requires BoardShown(v)
    ensures BoardShown(Play(v, actions)) && BoardGrows(v, Play(v, actions))
    decreases |actions|
  {
    if actions != [] {
      ActionGrowsBoard(v, actions[0]);
      PlayGrowsBoard(Apply(v, actions[0]).0, actions[1..]);
    }
  }

  lemma {:induction false} FiveOnTheBoard(order: seq<SeatId>, deck: seq<Card>)
    requires 2 * |order| + 8 <= |deck|
    ensures |DealtCards(order, deck).boardCards| == 5
  {
  }

  lemma {:induction false} NothingShownYet(v: View, deck: seq<Card>, handId: nat)
    requires CheckDeal(v, deck).None?
    ensures BoardShown(Dealt(v, deck, handId))
  {
    SortedSpec(v.hand.seated);
    FiveOnTheBoard(Sorted(v.hand.seated), deck);
  }

  /** From the deal on, through any actions, the board shown is a prefix of the board dealt. */
  lemma {:induction false} BoardFromDeal(v: View, deck: seq<Card>, handId: nat, actions: seq<PlayerAction>, dealt: View)
    requires CheckDeal(v, deck).None? && dealt == Dealt(v, deck, handId)
    ensures BoardShown(Play(dealt, actions)) && Play(dealt, actions).dealing == dealt.dealing
  {
    NothingShownYet(v, deck, handId);
    PlayGrowsBoard(dealt, actions);
  }

  // ----- the button -----

  lemma {:induction false} ShiftedRemainder(x: nat, j: nat, n: nat)
    requires n > 0 && j < n
    ensures (x + j) % n == if x % n + j < n then x % n + j else x % n + j - n
  {
    DivMod(x, n);
    var r := x % n;
    if r + j < n {
      DivModUnique(x + j, n, x / n, r + j);
    } else {
      MulAtLeast(1, n);
      assert (x / n + 1) * n == (x / n) * n + n;
      DivModUnique(x + j, n, x / n + 1, r + j - n);
    }
  }

  datatype Role = Button | SmallBlindRole | BigBlindRole

  function RoleIndex(role: Role, n: nat): (o: nat)
    requires n >= 2
  {
    match role
    case Button => 0
    case SmallBlindRole => if n == 2 then 0 else 1
    case BigBlindRole => if n == 2 then 1 else 2
  }

  /** Who holds a role in hand `handNo`. */
  function Holder(role: Role, handNo: U64, order: seq<SeatId>): (s: SeatId)
    requires |order| >= 2
  {
    match role
    case Button => order[DealerIndex(handNo, |order|)]
    case SmallBlindRole => Blinds(handNo, order).0
    case BigBlindRole => Blinds(handNo, order).1
  }

  lemma {:induction false} HolderAt(role: Role, h: U64, hand: U64, order: seq<SeatId>, d: nat)
    requires |order| >= 2 && 1 <= h <= hand < h + |order| && d < |order|
    requires d == DealerIndex(hand, |order|)
    ensures Holder(role, hand, order) == At(order, d, RoleIndex(role, |order|))
  {
    AtIsModular(order, d, 1);
    if |order| > 2 {
      AtIsModular(order, d, 2);
    }
  }

  /** The hand of a cycle, counted from the first, in which the role reaches index `k`. */
  function Slot(r: nat, o: nat, k: nat, n: nat): (j: int)
  {
    var d := if k >= o then k - o else k - o + n;
    if d >= r then d - r else d - r + n
  }

  lemma {:induction false} SlotSolves(order: seq<SeatId>, r: nat, o: nat, k: nat, j: nat)
    requires Ascending(order) && r < |order| && o < |order| && k < |order| && j < |order|
    ensures 0 <= Slot(r, o, k, |order|) < |order|
    ensures At(order, if r + j < |order| then r + j else r + j - |order|, o) == order[k] <==>
              j == Slot(r, o, k, |order|)
  {
  }

  lemma {:induction false} HolderIff(role: Role, h: U64, hand: U64, order: seq<SeatId>, k: nat, r: nat)
    requires |order| >= 2 && Ascending(order) && k < |order| && 1 <= h <= hand < h + |order|
    requires r == DealerIndex(h, |order|) && r < |order|
    ensures Holder(role, hand, order) == order[k] <==> hand == h + Slot(r, RoleIndex(role, |order|), k, |order|)
  {
    ShiftedRemainder(h - 1, hand - h, |order|);
    HolderAt(role, h, hand, order, DealerIndex(hand, |order|));
    SlotSolves(order, r, RoleIndex(role, |order|), k, hand - h);
  }

  /** Over any `n` consecutive hands with `n` seats fixed, each seat has each role exactly once. */
  lemma {:induction false} EachRoleOnce(role: Role, h: U64, order: seq<SeatId>, k: nat) returns (turn: U64)
    requires |order| >= 2 && Ascending(order) && k < |order| && 1 <= h && h + |order| <= U64_MAX
    ensures h <= turn < h + |order| && Holder(role, turn, order) == order[k]
    ensures forall hand: U64 :: h <= hand < h + |order| && hand != turn ==> Holder(role, hand, order) != order[k]
  {
    var r := DealerIndex(h, |order|);
    SlotSolves(order, r, RoleIndex(role, |order|), k, 0);
    turn := h + Slot(r, RoleIndex(role, |order|), k, |order|);
    HolderIff(role, h, turn, order, k, r);
    forall hand: U64 | h <= hand < h + |order| && hand != turn ensures Holder(role, hand, order) != order[k] {
      HolderIff(role, h, hand, order, k, r);
    }
  }

  // ----- hand after hand -----

  /** Play leaves the seating and the hand number alone, and a started hand started. */
  lemma {:induction false} PlayKeepsTable(v: View, actions: seq<PlayerAction>)
    ensures SameTable(v, Play(v, actions))
    decreases |actions|
  {
    if actions != [] {
      ActionKeepsTable(v, actions[0]);
      PlayKeepsTable(Apply(v, actions[0]).0, actions[1..]);
    }
  }

  /** Same seats, same hand, not back to before the first deal. */
  predicate SameTable(v: View, w: View)
  {
    && w.hand.seated == v.hand.seated && w.snapshot.handNo == v.snapshot.handNo
    && (v.snapshot.status != Created ==> w.snapshot.status != Created)
  }

  lemma {:induction false} FinishKeepsTable(v: View, seat: SeatId, raised: bool)
    ensures SameTable(v, Finish(v, seat, raised).0)
  {
    var x := Recorded(v, seat, raised);
    assert SameTable(x, AdvanceTurn(x, seat).0);
  }

  lemma {:induction false} ActionKeepsTable(v: View, a: PlayerAction)
    ensures SameTable(v, Apply(v, a).0)
  {
    if a.actionSeq == v.snapshot.nextActionSeq && v.snapshot.actingSeatId == Some(a.seatId) {
      match Rule(v, a)
      case Refused =>
      case Folds => FinishKeepsTable(WithFold(v, a.seatId), a.seatId, false);
      case Checks => FinishKeepsTable(v, a.seatId, false);
      case BetsTo(target) =>
        if !PotOverflows(v, a.seatId, target - SeatBet(v, a.seatId)) {
          FinishKeepsTable(BetPaid(v, a, target), a.seatId, target > v.round.currentBet);
        }
    }
  }

  /** `u` is dealt after `t` has been played on in any way. */
  ghost predicate DealtAfter(t: View, u: View)
  {
    exists actions, deck, handId ::
      CheckDeal(Play(t, actions), deck).None? && u == Dealt(Play(t, actions), deck, handId)
  }

  ghost predicate FirstDeal(u: View)
  {
    exists v, deck, handId :: CheckDeal(v, deck).None? && u == Dealt(v, deck, handId)
  }

  /** One deal after another, with any play in between. */
  ghost predicate HandAfterHand(tables: seq<View>)
  {
    && tables != [] && FirstDeal(tables[0])
    && forall k :: 1 <= k < |tables| ==> DealtAfter(tables[k - 1], tables[k])
  }

  /** The seats in order, and the blinds on the table where the roles say. */
  ghost predicate Posted(u: View, seated: set<SeatId>, handNo: nat)
  {
    var order := Sorted(seated);
    && u.hand.seated == seated && u.snapshot.handNo == handNo && u.snapshot.status == Running && |order| >= 2
    && Holder(SmallBlindRole, u.snapshot.handNo, order) != Holder(BigBlindRole, u.snapshot.handNo, order)
    && u.pot.contributions == map[Holder(SmallBlindRole, u.snapshot.handNo, order) := SMALL_BLIND,
                                  Holder(BigBlindRole, u.snapshot.handNo, order) := BIG_BLIND]
  }

  lemma {:induction false} DealPosts(v: View, deck: seq<Card>, handId: nat)
    requires CheckDeal(v, deck).None?
    ensures Posted(Dealt(v, deck, handId), v.hand.seated, NextHandNo(v.snapshot))
  {
    SortedSpec(v.hand.seated);
    var order := Sorted(v.hand.seated);
    BlindsDiffer(DealerIndex(NextHandNo(v.snapshot), |order|), order);
  }

  lemma {:induction false} NumbersFollow(tables: seq<View>, k: nat)
    requires HandAfterHand(tables) && k < |tables| && tables[0].snapshot.handNo + k <= U64_MAX
    ensures Posted(tables[k], tables[0].hand.seated, tables[0].snapshot.handNo + k)
  {
    if k == 0 {
      var v, deck, handId :| CheckDeal(v, deck).None? && tables[0] == Dealt(v, deck, handId);
      DealPosts(v, deck, handId);
    } else {
      NumbersFollow(tables, k - 1);
      assert DealtAfter(tables[k - 1], tables[k]);
      var actions, deck, handId :|
        CheckDeal(Play(tables[k - 1], actions), deck).None?
        && tables[k] == Dealt(Play(tables[k - 1], actions), deck, handId);
      PlayKeepsTable(tables[k - 1], actions);
      DealPosts(Play(tables[k - 1], actions), deck, handId);
    }
  }

  /** With `n` seats and nobody joining, over any `n` deals in a row, whatever is played in between, a seat
      holds each role exactly once, and posts each blind exactly when it holds that role. */
  lemma {:induction false} EachRoleOnceInPlay(tables: seq<View>, role: Role, seat: SeatId) returns (turn: nat)
    requires HandAfterHand(tables) && seat in tables[0].hand.seated && |tables| == |tables[0].hand.seated|
    requires 1 <= tables[0].snapshot.handNo && tables[0].snapshot.handNo + |tables| <= U64_MAX
    ensures turn < |tables|
    ensures forall k :: 0 <= k < |tables| ==> HoldsRole(tables[k], role, seat) == (k == turn)
    ensures forall k :: 0 <= k < |tables| ==> RoleShows(tables[k], role, seat)
  {
    var seated, h := tables[0].hand.seated, tables[0].snapshot.handNo;
    var order := Sorted(seated);
    SortedSpec(seated);
    NumbersFollow(tables, 0);
    assert seat in Members(order);
    var p :| 0 <= p < |order| && order[p] == seat;
    var hand := EachRoleOnce(role, h, order, p);
    turn := hand - h;
    forall k | 0 <= k < |tables|
      ensures HoldsRole(tables[k], role, seat) == (k == turn) && RoleShows(tables[k], role, seat)
    {
      NumbersFollow(tables, k);
      var number: U64 := h + k;
      assert Holder(role, number, order) == seat <==> number == hand;
      PostedShowsRole(tables[k], seated, number, role, seat);
    }
  }

  /** A blind is posted by the seat that holds its role and by no other. */
  ghost predicate RoleShows(u: View, role: Role, seat: SeatId)
  {
    && (role == SmallBlindRole ==> (Get(u.pot.contributions, seat) == SMALL_BLIND <==> HoldsRole(u, role, seat)))
    && (role == BigBlindRole ==> (Get(u.pot.contributions, seat) == BIG_BLIND <==> HoldsRole(u, role, seat)))
  }

  lemma {:induction false} PostedShowsRole(u: View, seated: set<SeatId>, handNo: nat, role: Role, seat: SeatId)
    requires Posted(u, seated, handNo)
    ensures RoleShows(u, role, seat)
  {
  }

  predicate HoldsRole(u: View, role: Role, seat: SeatId)
  {
    |Sorted(u.hand.seated)| >= 2 && Holder(role, u.snapshot.handNo, Sorted(u.hand.seated)) == seat
  }

  /** At a table of any size the big blind sits next to the small blind and the first to act next to
      the big blind; the small blind is the button heads-up and sits next to it otherwise. */
  lemma {:induction false} BlindsInTurn(d: nat, order: seq<SeatId>)
    requires |order| >= 2 && d < |order|
    ensures var i := if |order| == 2 then d else if d + 1 < |order| then d + 1 else 0;
            BlindsFrom(d, order) == (At(order, i, 0), At(order, i, 1), At(order, i, 2))
  {
    AtIsModular(order, d, 1);
    if |order| > 2 {
      AtIsModular(order, d, 2);
      WrapIndex(d + 3, |order|);
    }
  }
}
