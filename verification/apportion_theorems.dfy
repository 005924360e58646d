/** What apportionment pays, in total and seat by seat. */
module ApportionTheorems {
  import opened Arith
  import opened Money
  import opened Seats
  import opened Apportion

  // ----- totals -----

  /** The whole chips never add up to more than the target. */
  lemma {:induction false} FloorsWithin(ps: seq<Payout>, target: Chips)
    requires 0 < SumAmounts(ps) <= U128_MAX
    ensures SumFloors(RowsOf(ps, SumAmounts(ps), target)) <= target
  {
    var g := SumAmounts(ps);
    RowsBalance(ps, g, target);
    SharesAtMost(g, SumFloors(RowsOf(ps, g, target)), target);
  }

  /** While no product saturates, the chips left over number fewer than the rows, so that one pass
      over the rows hands them all out. */
  lemma {:induction false} LeftoverSmall(ps: seq<Payout>, target: Chips)
    requires 0 < SumAmounts(ps) <= U128_MAX && ProductsFit(ps, target)
    ensures Leftover(ps, target) < |ps|
    ensures SumAmounts(ps) * Leftover(ps, target) == SumRems(RowsOf(ps, SumAmounts(ps), target))
  {
    var g := SumAmounts(ps);
    var rows := RowsOf(ps, g, target);
    FloorsWithin(ps, target);
    RowsBalance(ps, g, target);
    RemsSmall(ps, g, target);
    MissingShares(g, SumFloors(rows), target, SumRems(rows), |ps|);
  }

  lemma {:induction false} FloorAtMostSum(rows: seq<Row>, i: nat)
    requires i < |rows|
    ensures rows[i].floor <= SumFloors(rows)
  {
    if i < |rows| - 1 {
      FloorAtMostSum(rows[..|rows| - 1], i);
    }
  }

  lemma {:induction false} NetTotal(ps: seq<Payout>, target: Chips)
    requires 0 < SumAmounts(ps) <= U128_MAX && SeatsAscend(ps)
    ensures Total(Net(ps, target))
         == SumFloors(RowsOf(ps, SumAmounts(ps), target)) + Min(Leftover(ps, target), |ps|)
  {
    var rows := RowsOf(ps, SumAmounts(ps), target);
    RowsDiffer(ps, SumAmounts(ps), target);
    SortDiffers(rows);
    SortKeeps(rows);
    var sorted, extra := SortRows(rows), Leftover(ps, target);
    FloorsWithin(ps, target);
    forall i | 0 <= i < |sorted| ensures sorted[i].floor <= target - extra {
      FloorAtMostSum(sorted, i);
    }
    BumpSum(sorted, extra);
    BumpDiffers(sorted, extra);
    NetOfTotal(Bump(sorted, extra));
  }

  /** The awards times the target, saturated at 128 bits, over the gross, each rounded down. */
  function WholeShares(ps: seq<Payout>, gross: Chips, target: Chips): (t: nat)
    requires gross > 0
  {
    if ps == [] then 0
    else
      DivMod(SaturatingMul(ps[|ps| - 1].amount, target), gross);
      WholeShares(ps[..|ps| - 1], gross, target) + SaturatingMul(ps[|ps| - 1].amount, target) / gross
  }

  lemma {:induction false} FloorsAreShares(ps: seq<Payout>, gross: Chips, target: Chips)
    requires gross > 0
    ensures SumFloors(RowsOf(ps, gross, target)) == WholeShares(ps, gross, target)
  {
    if ps != [] {
      var init := RowsOf(ps[..|ps| - 1], gross, target);
      FloorsAreShares(ps[..|ps| - 1], gross, target);
      assert RowsOf(ps, gross, target)[..|init|] == init;
    }
  }

  /** Whatever saturates, no more than the target is paid; and exactly the target is paid if and only
      if the saturated shares, rounded down, come within one chip an award of it. */
  lemma {:induction false} PaysAtMostTarget(ps: seq<Payout>, target: Chips)
    requires 0 < SumAmounts(ps) <= U128_MAX && SeatsAscend(ps)
    ensures SumAmounts(ApportionByWeight(ps, target)) <= target
    ensures SumAmounts(ApportionByWeight(ps, target)) == target <==>
              target <= WholeShares(ps, SumAmounts(ps), target) + |ps|
  {
    FloorsAreShares(ps, SumAmounts(ps), target);
    FloorsWithin(ps, target);
    NetTotal(ps, target);
    PositiveSum(Net(ps, target), SEAT_LIMIT);
  }

  /** While no product saturates, exactly the target is paid. */
  lemma {:induction false} PaysExactly(ps: seq<Payout>, target: Chips)
    requires 0 < SumAmounts(ps) <= U128_MAX && SeatsAscend(ps) && ProductsFit(ps, target)
    ensures SumAmounts(ApportionByWeight(ps, target)) == target
  {
    FloorsWithin(ps, target);
    LeftoverSmall(ps, target);
    FloorsAreShares(ps, SumAmounts(ps), target);
    PaysAtMostTarget(ps, target);
  }

  /** A saturating product does lose chips: two equal awards of 2^127 - 1 and a target of the whole
      gross pay out four chips. */
  lemma {:induction false} SaturationUnderpays()
    ensures var big: Chips := 0x7FFF_FFFF_FFFF_FFFF_FFFF_FFFF_FFFF_FFFF;
            var ps := [Payout(0, big), Payout(1, big)];
            && SumAmounts(ps) == 2 * big
            && SumAmounts(ApportionByWeight(ps, 2 * big)) == 4
  {
    var big: Chips := 0x7FFF_FFFF_FFFF_FFFF_FFFF_FFFF_FFFF_FFFF;
    var ps := [Payout(0, big), Payout(1, big)];
    var target: Chips := 2 * big;
    assert ps[..1] == [Payout(0, big)] && ps[..1][..0] == [];
    assert SumAmounts(ps[..1]) == big;
    var g := SumAmounts(ps);
    assert SaturatingMul(big, target) == U128_MAX;
    DivModUnique(U128_MAX, g, 1, U128_MAX - g);
    RowsAt(ps, g, target, 0);
    RowsAt(ps, g, target, 1);
    var rows := RowsOf(ps, g, target);
    assert rows == [rows[0], rows[1]];
    assert rows[..1] == [rows[0]] && rows[..1][..0] == [];
    assert SumFloors(rows[..1]) == 1;
    assert SumFloors(rows) == 2;
    NetTotal(ps, target);
    PositiveSum(Net(ps, target), SEAT_LIMIT);
  }

  // ----- seat by seat -----

  /** Where a row ends up in the order in which leftover chips are handed out. */
  lemma {:induction false} PlaceInOrder(ps: seq<Payout>, target: Chips, i: nat) returns (pos: nat)
    requires 0 < SumAmounts(ps) <= U128_MAX && SeatsAscend(ps) && i < |ps|
    ensures var rows := RowsOf(ps, SumAmounts(ps), target);
            |SortRows(rows)| == |ps| && pos < |ps| && SortRows(rows)[pos] == RowOf(ps[i], SumAmounts(ps), target)
  {
    var rows := RowsOf(ps, SumAmounts(ps), target);
    RowsAt(ps, SumAmounts(ps), target, i);
    RowsDiffer(ps, SumAmounts(ps), target);
    SortDiffers(rows);
    SortKeeps(rows);
    assert rows[i] in rows;
    pos :| 0 <= pos < |SortRows(rows)| && SortRows(rows)[pos] == rows[i];
  }

  lemma {:induction false} ServedAt(sorted: seq<Row>, extra: nat, pos: nat)
    requires SeatsDiffer(sorted) && pos < |sorted|
    requires pos < extra ==> sorted[pos].floor < U128_MAX
    ensures Get(NetOf(Bump(sorted, extra)), sorted[pos].seat) == sorted[pos].floor + (if pos < extra then 1 else 0)
  {
    BumpAt(sorted, extra, pos);
    BumpDiffers(sorted, extra);
    NetOfAt(Bump(sorted, extra), pos);
  }

  /** A seat nets its whole chips, plus one if its row is among the first `Leftover` in order. */
  lemma {:induction false} NetAtPlace(ps: seq<Payout>, target: Chips, i: nat, pos: nat)
    requires 0 < SumAmounts(ps) <= U128_MAX && SeatsAscend(ps) && i < |ps|
    requires pos < |SortRows(RowsOf(ps, SumAmounts(ps), target))|
    requires SortRows(RowsOf(ps, SumAmounts(ps), target))[pos] == RowOf(ps[i], SumAmounts(ps), target)
    ensures Get(Net(ps, target), ps[i].seatId)
         == RowOf(ps[i], SumAmounts(ps), target).floor + (if pos < Leftover(ps, target) then 1 else 0)
  {
    var rows := RowsOf(ps, SumAmounts(ps), target);
    RowsDiffer(ps, SumAmounts(ps), target);
    SortDiffers(rows);
    SortKeeps(rows);
    FloorsWithin(ps, target);
    FloorAtMostSum(SortRows(rows), pos);
    ServedAt(SortRows(rows), Leftover(ps, target), pos);
  }

  lemma {:induction false} RemsOfPrefix(rows: seq<Row>, gross: Chips, pos: nat)
    requires gross > 0 && SortedRows(rows) && pos < |rows| && rows[pos].rem == 0
    requires forall r :: r in rows ==> r.rem < gross
    ensures SumRems(rows) <= (gross - 1) * pos
  {
    var init, last := rows[..|rows| - 1], rows[|rows| - 1];
    assert !Before(last, rows[pos]) || pos == |rows| - 1;
    assert last.rem == 0;
    if pos < |rows| - 1 {
      RemsOfPrefix(init, gross, pos);
    } else {
      RemsAtMost(init, gross);
    }
  }

  lemma {:induction false} RemsAtMost(rows: seq<Row>, gross: Chips)
    requires gross > 0 && forall r :: r in rows ==> r.rem < gross
    ensures SumRems(rows) <= (gross - 1) * |rows|
  {
    if rows != [] {
      RemsAtMost(rows[..|rows| - 1], gross);
      assert rows[|rows| - 1] in rows;
      Distribute(|rows| - 1, 1, gross - 1);
    }
  }

  lemma {:induction false} RowRemSmall(ps: seq<Payout>, gross: Chips, target: Chips)
    requires gross > 0
    ensures forall r :: r in RowsOf(ps, gross, target) ==> r.rem < gross
  {
    var rows := RowsOf(ps, gross, target);
    if ps != [] {
      RowsAt(ps, gross, target, 0);
    }
    forall k | 0 <= k < |rows| ensures rows[k].rem < gross {
      RowsAt(ps, gross, target, k);
      DivMod(SaturatingMul(ps[k].amount, target), gross);
    }
  }

  lemma {:induction false} SortedRems(ps: seq<Payout>, gross: Chips, target: Chips)
    requires gross > 0 && SeatsAscend(ps)
    ensures var sorted := SortRows(RowsOf(ps, gross, target));
            && SortedRows(sorted)
            && SumRems(sorted) == SumRems(RowsOf(ps, gross, target))
            && forall r :: r in sorted ==> r.rem < gross
  {
    var rows := RowsOf(ps, gross, target);
    RowsDiffer(ps, gross, target);
    SortDiffers(rows);
    SortKeeps(rows);
    SortSorts(rows);
    RowRemSmall(ps, gross, target);
  }

  lemma {:induction false} FewerThanPrefix(g: nat, extra: nat, pos: nat)
    requires g > 0 && g * extra <= (g - 1) * pos
    ensures extra <= pos
  {
    MulMonotone(g - 1, g, pos);
    SharesAtMost(g, extra, pos);
  }

  /** Leftover chips only go to rows that lost something to rounding. */
  lemma {:induction false} NoneForWholeShares(ps: seq<Payout>, target: Chips, pos: nat)
    requires 0 < SumAmounts(ps) <= U128_MAX && SeatsAscend(ps) && ProductsFit(ps, target)
    requires pos < |SortRows(RowsOf(ps, SumAmounts(ps), target))|
    requires SortRows(RowsOf(ps, SumAmounts(ps), target))[pos].rem == 0
    ensures Leftover(ps, target) <= pos
  {
    var g := SumAmounts(ps);
    LeftoverSmall(ps, target);
    SortedRems(ps, g, target);
    RemsOfPrefix(SortRows(RowsOf(ps, g, target)), g, pos);
    FewerThanPrefix(g, Leftover(ps, target), pos);
  }

  /** Each seat nets its exact share `amount * target / gross`, rounded down or up. */
  lemma {:induction false} ShareRounded(ps: seq<Payout>, target: Chips, i: nat)
    requires 0 < SumAmounts(ps) <= U128_MAX && SeatsAscend(ps) && ProductsFit(ps, target) && i < |ps|
    ensures var net, g := Get(Net(ps, target), ps[i].seatId), SumAmounts(ps);
            g * net < ps[i].amount * target + g && ps[i].amount * target < g * net + g
  {
    var g := SumAmounts(ps);
    var pos := PlaceInOrder(ps, target, i);
    NetAtPlace(ps, target, i, pos);
    var row := RowOf(ps[i], g, target);
    DivMod(ps[i].amount * target, g);
    Distribute(row.floor, 1, g);
    if row.rem == 0 {
      NoneForWholeShares(ps, target, pos);
    }
  }

  /** With a target of at most the gross, no seat nets more than its gross award. */
  lemma {:induction false} NetAtMostGross(ps: seq<Payout>, target: Chips, i: nat)
    requires 0 < SumAmounts(ps) <= U128_MAX && SeatsAscend(ps) && ProductsFit(ps, target) && i < |ps|
    requires target <= SumAmounts(ps)
    ensures Get(Net(ps, target), ps[i].seatId) <= ps[i].amount
  {
    ShareRounded(ps, target, i);
    RoundedPart(SumAmounts(ps), Get(Net(ps, target), ps[i].seatId), ps[i].amount, target);
  }

  /** Once anything is held back from the gross, no award of a chip or more nets more than itself, whatever
      saturates. */
  lemma {:induction false} HeldBackNetsWithin(ps: seq<Payout>, target: Chips, i: nat)
    requires 0 < SumAmounts(ps) <= U128_MAX && SeatsAscend(ps) && i < |ps|
    requires target < SumAmounts(ps) && ps[i].amount > 0
    ensures Get(Net(ps, target), ps[i].seatId) <= ps[i].amount
  {
    NetNearFloor(ps, target, i);
    FloorBelowAward(ps[i].amount, SumAmounts(ps), target);
  }

  lemma {:induction false} FloorBelowAward(amount: Chips, gross: Chips, target: Chips)
    requires amount > 0 && target < gross
    ensures SaturatingMul(amount, target) / gross < amount
  {
    var weighted := SaturatingMul(amount, target);
    var floor := weighted / gross;
    DivMod(weighted, gross);
    if floor >= amount {
      MulMonotone(amount, floor, gross);
      MulMonotone(target, gross - 1, amount);
      Distribute(gross - 1, 1, amount);
    }
  }

  /** A saturating product can also pay too much: of awards of one chip and of all but one of 128 bits, with
      the whole gross as target, the first nets two chips. */
  lemma {:induction false} SaturationOverpays()
    ensures var ps := [Payout(0, 1), Payout(1, U128_MAX - 1)];
            SumAmounts(ps) == U128_MAX && Get(Net(ps, U128_MAX), 0) == 2
  {
    var ps := [Payout(0, 1), Payout(1, U128_MAX - 1)];
    assert ps[..1] == [Payout(0, 1)] && ps[..1][..0] == [];
    assert SumAmounts(ps[..1]) == 1;
    OverpaysFirst(ps, U128_MAX);
  }

  lemma {:induction false} OverpaysFirst(ps: seq<Payout>, target: Chips)
    requires |ps| == 2 && ps[0] == Payout(0, 1) && ps[1] == Payout(1, U128_MAX - 1)
    requires target == SumAmounts(ps) == U128_MAX
    ensures Get(Net(ps, target), 0) == 2
  {
    DivModUnique(U128_MAX, U128_MAX, 1, 0);
    RowsAt(ps, target, target, 0);
    RowsAt(ps, target, target, 1);
    var rows := RowsOf(ps, target, target);
    assert rows == [rows[0], rows[1]];
    assert rows[..1] == [rows[0]] && rows[..1][..0] == [];
    assert SaturatingMul(1, target) == U128_MAX == SaturatingMul(U128_MAX - 1, target);
    assert SumFloors(rows[..1]) == 1;
    assert SumFloors(rows) == 2;
    var pos := PlaceInOrder(ps, target, 0);
    NetAtPlace(ps, target, 0, pos);
  }

  /** A target equal to the gross gives every award back unchanged. */
  lemma {:induction false} WholeTargetIsIdentity(ps: seq<Payout>, i: nat)
    requires 0 < SumAmounts(ps) <= U128_MAX && SeatsAscend(ps) && i < |ps|
    requires ProductsFit(ps, SumAmounts(ps))
    ensures Get(Net(ps, SumAmounts(ps)), ps[i].seatId) == ps[i].amount
  {
    var g := SumAmounts(ps);
    var pos := PlaceInOrder(ps, g, i);
    NetAtPlace(ps, g, i, pos);
    DivModUnique(ps[i].amount * g, g, ps[i].amount, 0);
    NoneForWholeShares(ps, g, pos);
  }

  lemma {:induction false} SortedPlaces(rows: seq<Row>, p: nat, q: nat)
    requires SortedRows(rows) && p < |rows| && q < |rows| && Before(rows[p], rows[q])
    ensures p < q
  {
  }

  /** In order of handing out: a row that comes before another is served before it. */
  lemma {:induction false} EarlierServedFirst(ps: seq<Payout>, target: Chips, i: nat, j: nat)
    requires 0 < SumAmounts(ps) <= U128_MAX && SeatsAscend(ps) && i < |ps| && j < |ps|
    requires Before(RowOf(ps[i], SumAmounts(ps), target), RowOf(ps[j], SumAmounts(ps), target))
    ensures Get(Net(ps, target), ps[i].seatId) - RowOf(ps[i], SumAmounts(ps), target).floor
         >= Get(Net(ps, target), ps[j].seatId) - RowOf(ps[j], SumAmounts(ps), target).floor
    ensures 0 <= Get(Net(ps, target), ps[i].seatId) - RowOf(ps[i], SumAmounts(ps), target).floor <= 1
    ensures 0 <= Get(Net(ps, target), ps[j].seatId) - RowOf(ps[j], SumAmounts(ps), target).floor <= 1
  {
    var p := PlaceInOrder(ps, target, i);
    var q := PlaceInOrder(ps, target, j);
    NetAtPlace(ps, target, i, p);
    NetAtPlace(ps, target, j, q);
    SortSorts(RowsOf(ps, SumAmounts(ps), target));
    SortedPlaces(SortRows(RowsOf(ps, SumAmounts(ps), target)), p, q);
  }

  lemma {:induction false} NetNearFloor(ps: seq<Payout>, target: Chips, i: nat)
    requires 0 < SumAmounts(ps) <= U128_MAX && SeatsAscend(ps) && i < |ps|
    ensures 0 <= Get(Net(ps, target), ps[i].seatId) - RowOf(ps[i], SumAmounts(ps), target).floor <= 1
  {
    var p := PlaceInOrder(ps, target, i);
    NetAtPlace(ps, target, i, p);
  }

  /** A strictly larger award never nets less. */
  lemma {:induction false} LargerNetsNoLess(ps: seq<Payout>, target: Chips, i: nat, j: nat)
    requires 0 < SumAmounts(ps) <= U128_MAX && SeatsAscend(ps) && ProductsFit(ps, target)
    requires i < |ps| && j < |ps| && ps[i].amount > ps[j].amount
    ensures Get(Net(ps, target), ps[i].seatId) >= Get(Net(ps, target), ps[j].seatId)
  {
    var g := SumAmounts(ps);
    var x, y := RowOf(ps[i], g, target), RowOf(ps[j], g, target);
    var wx, wy := ps[i].amount * target, ps[j].amount * target;
    MulMonotone(ps[j].amount, ps[i].amount, target);
    DivMod(wx, g);
    DivMod(wy, g);
    DivMonotone(wy, wx, g);
    NetNearFloor(ps, target, i);
    NetNearFloor(ps, target, j);
    if x.floor == y.floor {
      if target == 0 {
        ZeroTargetNetsNothing(ps, i);
        ZeroTargetNetsNothing(ps, j);
      } else {
        Distribute(ps[j].amount, ps[i].amount - ps[j].amount, target);
        MulAtLeast(ps[i].amount - ps[j].amount, target);
        assert x.rem > y.rem;
        EarlierServedFirst(ps, target, i, j);
      }
    }
  }

  lemma {:induction false} ZeroTargetNetsNothing(ps: seq<Payout>, i: nat)
    requires 0 < SumAmounts(ps) <= U128_MAX && SeatsAscend(ps) && i < |ps|
    ensures Get(Net(ps, 0), ps[i].seatId) == 0
  {
    NetTotal(ps, 0);
    FloorsWithin(ps, 0);
    GetAtMostSum(Net(ps, 0), ps[i].seatId, SEAT_LIMIT);
  }

  /** A seat is rounded up if it nets more than its exact share of the target. */
  predicate RoundedUp(ps: seq<Payout>, target: Chips, i: nat)
    requires 0 < SumAmounts(ps) <= U128_MAX && i < |ps|
  {
    SumAmounts(ps) * Get(Net(ps, target), ps[i].seatId) > ps[i].amount * target
  }

  lemma {:induction false} RoundedUpIff(ps: seq<Payout>, target: Chips, i: nat)
    requires 0 < SumAmounts(ps) <= U128_MAX && SeatsAscend(ps) && ProductsFit(ps, target) && i < |ps|
    ensures RoundedUp(ps, target, i) <==>
              Get(Net(ps, target), ps[i].seatId) == RowOf(ps[i], SumAmounts(ps), target).floor + 1
  {
    var g, net, row := SumAmounts(ps), Get(Net(ps, target), ps[i].seatId), RowOf(ps[i], SumAmounts(ps), target);
    NetNearFloor(ps, target, i);
    DivMod(ps[i].amount * target, g);
    Distribute(row.floor, 1, g);
  }

  /** The leftover chips go to the largest remainders, and among equal ones to the lower seat: whoever is ahead
      of a seat that is rounded up in that order is rounded up too. */
  lemma {:induction false} LargestRemainderFirst(ps: seq<Payout>, target: Chips, i: nat, j: nat)
    requires 0 < SumAmounts(ps) <= U128_MAX && SeatsAscend(ps) && ProductsFit(ps, target) && i < |ps| && j < |ps|
    requires var g := SumAmounts(ps);
             || (ps[i].amount * target) % g > (ps[j].amount * target) % g
             || ((ps[i].amount * target) % g == (ps[j].amount * target) % g && i < j)
    requires RoundedUp(ps, target, j)
    ensures RoundedUp(ps, target, i)
  {
    RoundedUpIff(ps, target, i);
    RoundedUpIff(ps, target, j);
    EarlierServedFirst(ps, target, i, j);
  }

  /** Equal awards net the same up to one chip, and that chip goes to the lower seat. */
  lemma {:induction false} EqualNetsClose(ps: seq<Payout>, target: Chips, i: nat, j: nat)
    requires 0 < SumAmounts(ps) <= U128_MAX && SeatsAscend(ps)
    requires i < j < |ps| && ps[i].amount == ps[j].amount
    ensures var net := Net(ps, target);
            Get(net, ps[j].seatId) <= Get(net, ps[i].seatId) <= Get(net, ps[j].seatId) + 1
  {
    EarlierServedFirst(ps, target, i, j);
  }

  /** The payouts are strictly ascending by seat and carry exactly the positive nets. */
  lemma {:induction false} PayoutsListNets(ps: seq<Payout>, target: Chips)
    requires 0 < SumAmounts(ps) <= U128_MAX
    ensures SeatsAscend(ApportionByWeight(ps, target))
    ensures forall p ::
              p in ApportionByWeight(ps, target) <==> p.amount > 0 && p.amount == Get(Net(ps, target), p.seatId)
  {
    PositiveListing(Net(ps, target), SEAT_LIMIT);
  }
}
