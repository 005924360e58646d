/** Largest-remainder apportionment of a target over gross awards. */
module Apportion {
  import opened Arith
  import opened Money
  import opened Seats

  datatype Payout = Payout(seatId: SeatId, amount: Chips)

  /** A gross award scaled to the target: whole chips, and the remainder that was cut off. */
  datatype Row = Row(seat: SeatId, floor: Chips, rem: Chips)

  function SaturatingMul(a: Chips, b: Chips): (r: Chips)
  {
    if a * b <= U128_MAX then a * b else U128_MAX
  }

  function SaturatingAdd(a: Chips, b: Chips): (r: Chips)
  {
    if a + b <= U128_MAX then a + b else U128_MAX
  }

  function SaturatingSub(a: Chips, b: Chips): (r: Chips)
  {
    if b <= a then a - b else 0
  }

  function SumAmounts(ps: seq<Payout>): (t: nat)
  {
    if ps == [] then 0 else SumAmounts(ps[..|ps| - 1]) + ps[|ps| - 1].amount
  }

  function SumFloors(rows: seq<Row>): (t: nat)
  {
    if rows == [] then 0 else SumFloors(rows[..|rows| - 1]) + rows[|rows| - 1].floor
  }

  function SumRems(rows: seq<Row>): (t: nat)
  {
    if rows == [] then 0 else SumRems(rows[..|rows| - 1]) + rows[|rows| - 1].rem
  }

  ghost predicate SeatsAscend(ps: seq<Payout>)
  {
    forall i, j :: 0 <= i < j < |ps| ==> ps[i].seatId < ps[j].seatId
  }

  ghost predicate SeatsDiffer(rows: seq<Row>)
  {
    forall i, j :: 0 <= i < j < |rows| ==> rows[i].seat != rows[j].seat
  }

  // ----- the computation -----

  function RowOf(p: Payout, gross: Chips, target: Chips): (r: Row)
    requires gross > 0
  {
    var weighted := SaturatingMul(p.amount, target);
    DivMod(weighted, gross);
    MulAtLeast(gross, weighted / gross);
    Row(p.seatId, weighted / gross, weighted % gross)
  }

  function RowsOf(ps: seq<Payout>, gross: Chips, target: Chips): (r: seq<Row>)
    requires gross > 0
  {
    if ps == [] then [] else RowsOf(ps[..|ps| - 1], gross, target) + [RowOf(ps[|ps| - 1], gross, target)]
  }

  /** Larger remainder first, then lower seat. */
  predicate Before(a: Row, b: Row)
  {
    a.rem > b.rem || (a.rem == b.rem && a.seat < b.seat)
  }

  function InsertRow(rows: seq<Row>, r: Row): (s: seq<Row>)
  {
    if rows == [] then [r]
    else if Before(r, rows[|rows| - 1]) then InsertRow(rows[..|rows| - 1], r) + [rows[|rows| - 1]]
    else rows + [r]
  }

  function SortRows(rows: seq<Row>): (s: seq<Row>)
  {
    if rows == [] then [] else InsertRow(SortRows(rows[..|rows| - 1]), rows[|rows| - 1])
  }

  /** One more chip for each of the first `extra` rows. */
  function Bump(rows: seq<Row>, extra: nat): (s: seq<Row>)
  {
    if rows == [] then []
    else
      var last := rows[|rows| - 1];
      Bump(rows[..|rows| - 1], extra)
      + [if |rows| <= extra then last.(floor := SaturatingAdd(last.floor, 1)) else last]
  }

  function NetOf(rows: seq<Row>): (m: ChipMap)
  {
    if rows == [] then map[] else NetOf(rows[..|rows| - 1])[rows[|rows| - 1].seat := rows[|rows| - 1].floor]
  }

  /** The positive entries of `m` in seat order: what sorting by seat and dropping zeros yields. */
  function PositiveBelow(m: ChipMap, n: nat): (ps: seq<Payout>)
    requires n <= SEAT_LIMIT
  {
    if n == 0 then []
    else PositiveBelow(m, n - 1) + (if Get(m, n - 1) > 0 then [Payout(n - 1, Get(m, n - 1))] else [])
  }

  function Leftover(ps: seq<Payout>, target: Chips): (extra: Chips)
    requires 0 < SumAmounts(ps) <= U128_MAX
  {
    var floors := SumFloors(RowsOf(ps, SumAmounts(ps), target));
    if floors <= target then target - floors else 0
  }

  /** What each seat nets. */
  function Net(ps: seq<Payout>, target: Chips): (m: ChipMap)
    requires 0 < SumAmounts(ps) <= U128_MAX
  {
    NetOf(Bump(SortRows(RowsOf(ps, SumAmounts(ps), target)), Leftover(ps, target)))
  }

  function ApportionByWeight(ps: seq<Payout>, target: Chips): (r: seq<Payout>)
    requires SumAmounts(ps) <= U128_MAX
  {
    if SumAmounts(ps) == 0 then [] else PositiveBelow(Net(ps, target), SEAT_LIMIT)
  }

  // ----- sorting keeps the rows -----

  lemma {:induction false} InsertKeeps(rows: seq<Row>, r: Row)
    ensures multiset(InsertRow(rows, r)) == multiset(rows) + multiset{r}
    ensures SumFloors(InsertRow(rows, r)) == SumFloors(rows) + r.floor
    ensures SumRems(InsertRow(rows, r)) == SumRems(rows) + r.rem
    ensures |InsertRow(rows, r)| == |rows| + 1
  {
    if rows != [] {
      var init, last := rows[..|rows| - 1], rows[|rows| - 1];
      assert rows == init + [last];
      if Before(r, last) {
        InsertKeeps(init, r);
        assert (InsertRow(init, r) + [last])[..|rows|] == InsertRow(init, r);
      } else {
        assert (rows + [r])[..|rows|] == rows;
      }
    }
  }

  lemma {:induction false} SortKeeps(rows: seq<Row>)
    ensures multiset(SortRows(rows)) == multiset(rows)
    ensures SumFloors(SortRows(rows)) == SumFloors(rows)
    ensures SumRems(SortRows(rows)) == SumRems(rows)
    ensures |SortRows(rows)| == |rows|
  {
    if rows != [] {
      var init, last := rows[..|rows| - 1], rows[|rows| - 1];
      assert rows == init + [last];
      SortKeeps(init);
      InsertKeeps(SortRows(init), last);
    }
  }

  ghost predicate SortedRows(rows: seq<Row>)
  {
    forall i, j :: 0 <= i < j < |rows| ==> !Before(rows[j], rows[i])
  }

  lemma {:induction false} InsertSorts(rows: seq<Row>, r: Row)
    requires SortedRows(rows)
    ensures SortedRows(InsertRow(rows, r))
    ensures forall x :: x in InsertRow(rows, r) ==> x in rows || x == r
  {
    if rows != [] {
      var init, last := rows[..|rows| - 1], rows[|rows| - 1];
      if Before(r, last) {
        InsertSorts(init, r);
        var s := InsertRow(init, r);
        forall i | 0 <= i < |s| ensures !Before(last, s[i]) {
          assert s[i] in s;
          assert s[i] == r || s[i] in init;
        }
      }
    }
  }

  lemma {:induction false} SortSorts(rows: seq<Row>)
    ensures SortedRows(SortRows(rows))
  {
    if rows != [] {
      SortSorts(rows[..|rows| - 1]);
      InsertSorts(SortRows(rows[..|rows| - 1]), rows[|rows| - 1]);
    }
  }

  lemma {:induction false} InsertDiffers(rows: seq<Row>, r: Row)
    requires SeatsDiffer(rows) && forall x :: x in rows ==> x.seat != r.seat
    ensures SeatsDiffer(InsertRow(rows, r))
    ensures forall x :: x in InsertRow(rows, r) ==> x in rows || x == r
  {
    if rows != [] {
      var init, last := rows[..|rows| - 1], rows[|rows| - 1];
      if Before(r, last) {
        InsertDiffers(init, r);
        var s := InsertRow(init, r);
        forall i | 0 <= i < |s| ensures s[i].seat != last.seat {
          assert s[i] in s;
          assert s[i] == r || s[i] in init;
        }
      }
    }
  }

  lemma {:induction false} SortDiffers(rows: seq<Row>)
    requires SeatsDiffer(rows)
    ensures SeatsDiffer(SortRows(rows))
    ensures forall x :: x in SortRows(rows) <==> x in rows
  {
    if rows != [] {
      var init, last := rows[..|rows| - 1], rows[|rows| - 1];
      assert rows == init + [last];
      SortDiffers(init);
      InsertDiffers(SortRows(init), last);
      InsertKeeps(SortRows(init), last);
      forall x ensures x in SortRows(rows) <==> x in rows {
        assert x in SortRows(rows) <==> x in multiset(SortRows(rows));
        assert x in SortRows(init) <==> x in multiset(SortRows(init));
      }
    }
  }

  // ----- bumping and collecting -----

  lemma {:induction false} BumpAt(rows: seq<Row>, extra: nat, i: nat)
    requires i < |rows|
    ensures |Bump(rows, extra)| == |rows|
    ensures Bump(rows, extra)[i]
         == if i < extra then rows[i].(floor := SaturatingAdd(rows[i].floor, 1)) else rows[i]
  {
    if i < |rows| - 1 {
      BumpAt(rows[..|rows| - 1], extra, i);
    } else if i > 0 {
      BumpAt(rows[..|rows| - 1], extra, 0);
    }
  }

  lemma {:induction false} BumpSum(rows: seq<Row>, extra: nat)
    requires extra > 0 ==> forall i :: 0 <= i < |rows| ==> rows[i].floor < U128_MAX
    ensures |Bump(rows, extra)| == |rows|
    ensures SumFloors(Bump(rows, extra)) == SumFloors(rows) + Min(extra, |rows|)
  {
    if rows != [] {
      var init := rows[..|rows| - 1];
      BumpSum(init, extra);
      assert Bump(rows, extra)[..|init|] == Bump(init, extra);
    }
  }

  lemma {:induction false} BumpDiffers(rows: seq<Row>, extra: nat)
    requires SeatsDiffer(rows)
    ensures SeatsDiffer(Bump(rows, extra))
  {
    if rows != [] {
      BumpAt(rows, extra, 0);
    }
    forall i, j | 0 <= i < j < |Bump(rows, extra)| ensures Bump(rows, extra)[i].seat != Bump(rows, extra)[j].seat {
      BumpAt(rows, extra, i);
      BumpAt(rows, extra, j);
    }
  }

  lemma {:induction false} NetOfAbsent(rows: seq<Row>, seat: SeatId)
    requires forall i :: 0 <= i < |rows| ==> rows[i].seat != seat
    ensures seat !in NetOf(rows)
  {
    if rows != [] {
      NetOfAbsent(rows[..|rows| - 1], seat);
    }
  }

  lemma {:induction false} NetOfAt(rows: seq<Row>, i: nat)
    requires SeatsDiffer(rows) && i < |rows|
    ensures Get(NetOf(rows), rows[i].seat) == rows[i].floor
  {
    if i < |rows| - 1 {
      NetOfAt(rows[..|rows| - 1], i);
    }
  }

  lemma {:induction false} NetOfTotal(rows: seq<Row>)
    requires SeatsDiffer(rows)
    ensures Total(NetOf(rows)) == SumFloors(rows)
  {
    if rows == [] {
      SumOfEmpty(SEAT_LIMIT);
    } else {
      var init, last := rows[..|rows| - 1], rows[|rows| - 1];
      NetOfTotal(init);
      NetOfAbsent(init, last.seat);
      TotalUpdate(NetOf(init), last.seat, last.floor);
    }
  }

  lemma {:induction false} PositiveSum(m: ChipMap, n: nat)
    requires n <= SEAT_LIMIT
    ensures SumAmounts(PositiveBelow(m, n)) == SumBelow(m, n)
  {
    if n > 0 {
      PositiveSum(m, n - 1);
      var init := PositiveBelow(m, n - 1);
      if Get(m, n - 1) > 0 {
        assert PositiveBelow(m, n)[..|init|] == init;
      } else {
        assert PositiveBelow(m, n) == init;
      }
    }
  }

  /** The listing is strictly ascending by seat, has no zero row, and misses no positive entry. */
  lemma {:induction false} PositiveListing(m: ChipMap, n: nat)
    requires n <= SEAT_LIMIT
    ensures SeatsAscend(PositiveBelow(m, n))
    ensures forall p :: p in PositiveBelow(m, n) <==> p.seatId < n && p.amount == Get(m, p.seatId) && p.amount > 0
  {
    if n > 0 {
      PositiveListing(m, n - 1);
      var init := PositiveBelow(m, n - 1);
      assert forall i :: 0 <= i < |init| ==> init[i] in init;
    }
  }

  // ----- rows -----

  lemma {:induction false} RowsAt(ps: seq<Payout>, gross: Chips, target: Chips, i: nat)
    requires gross > 0 && i < |ps|
    ensures |RowsOf(ps, gross, target)| == |ps|
    ensures RowsOf(ps, gross, target)[i] == RowOf(ps[i], gross, target)
  {
    if i < |ps| - 1 {
      RowsAt(ps[..|ps| - 1], gross, target, i);
    } else if i > 0 {
      RowsAt(ps[..|ps| - 1], gross, target, 0);
    }
  }

  lemma {:induction false} RowsDiffer(ps: seq<Payout>, gross: Chips, target: Chips)
    requires gross > 0 && SeatsAscend(ps)
    ensures |RowsOf(ps, gross, target)| == |ps| && SeatsDiffer(RowsOf(ps, gross, target))
  {
    if ps != [] {
      RowsAt(ps, gross, target, 0);
    }
    var rows := RowsOf(ps, gross, target);
    forall i, j | 0 <= i < j < |rows| ensures rows[i].seat != rows[j].seat {
      RowsAt(ps, gross, target, i);
      RowsAt(ps, gross, target, j);
    }
  }

  /** No product of an award and the target saturates. */
  ghost predicate ProductsFit(ps: seq<Payout>, target: Chips)
  {
    forall i :: 0 <= i < |ps| ==> ps[i].amount * target <= U128_MAX
  }

  lemma {:induction false} Distribute(a: nat, b: nat, c: nat)
    ensures (a + b) * c == a * c + b * c
    ensures c * (a + b) == c * a + c * b
  {
  }

  /** Whole chips and remainders account for the weighted awards; saturation only loses some. */
  lemma {:induction false} RowsBalance(ps: seq<Payout>, gross: Chips, target: Chips)
    requires gross > 0
    ensures gross * SumFloors(RowsOf(ps, gross, target)) + SumRems(RowsOf(ps, gross, target)) <= SumAmounts(ps) * target
    ensures ProductsFit(ps, target) ==>
              gross * SumFloors(RowsOf(ps, gross, target)) + SumRems(RowsOf(ps, gross, target))
              == SumAmounts(ps) * target
  {
    if ps != [] {
      var init, last := ps[..|ps| - 1], ps[|ps| - 1];
      RowsBalance(init, gross, target);
      var rows, row := RowsOf(init, gross, target), RowOf(last, gross, target);
      assert RowsOf(ps, gross, target)[..|rows|] == rows;
      DivMod(SaturatingMul(last.amount, target), gross);
      Distribute(SumFloors(rows), row.floor, gross);
      Distribute(SumAmounts(init), last.amount, target);
    }
  }

  lemma {:induction false} RemsSmall(ps: seq<Payout>, gross: Chips, target: Chips)
    requires gross > 0
    ensures SumRems(RowsOf(ps, gross, target)) <= (gross - 1) * |ps|
  {
    if ps != [] {
      var init, last := ps[..|ps| - 1], ps[|ps| - 1];
      RemsSmall(init, gross, target);
      var rows, row := RowsOf(init, gross, target), RowOf(last, gross, target);
      assert RowsOf(ps, gross, target)[..|rows|] == rows;
      DivMod(SaturatingMul(last.amount, target), gross);
      Distribute(|init|, 1, gross - 1);
    }
  }

  // ----- the loops -----

  lemma {:induction false} PrefixSum(ps: seq<Payout>, i: nat)
    requires i <= |ps|
    ensures SumAmounts(ps[..i]) <= SumAmounts(ps)
    decreases |ps| - i
  {
    if i == |ps| {
      assert ps[..i] == ps;
    } else {
      PrefixSum(ps, i + 1);
      assert ps[..i + 1][..i] == ps[..i];
    }
  }

  /** Floors of a prefix add up to at most the target, so the saturating sum never saturates. */
  lemma {:induction false} PrefixFloors(ps: seq<Payout>, gross: Chips, target: Chips, i: nat)
    requires gross == SumAmounts(ps) && gross > 0 && i <= |ps|
    ensures SumFloors(RowsOf(ps[..i], gross, target)) <= target
  {
    RowsBalance(ps[..i], gross, target);
    PrefixSum(ps, i);
    MulMonotone(SumAmounts(ps[..i]), gross, target);
    SharesAtMost(gross, SumFloors(RowsOf(ps[..i], gross, target)), target);
  }

  method GrossTotal(ps: seq<Payout>) returns (total: Chips)
    requires SumAmounts(ps) <= U128_MAX
    ensures total == SumAmounts(ps)
  {
    total := 0;
    var i := 0;
    while i < |ps|
      invariant 0 <= i <= |ps| && total == SumAmounts(ps[..i])
    {
      PrefixSum(ps, i + 1);
      assert ps[..i + 1][..i] == ps[..i];
      total := total + ps[i].amount;
      i := i + 1;
    }
    assert ps[..i] == ps;
  }

  method FloorRows(ps: seq<Payout>, gross: Chips, target: Chips) returns (rows: seq<Row>, floorSum: Chips)
    requires gross == SumAmounts(ps) && gross > 0
    ensures rows == RowsOf(ps, gross, target) && floorSum == SumFloors(rows)
  {
    rows, floorSum := [], 0;
    var i := 0;
    while i < |ps|
      invariant 0 <= i <= |ps|
      invariant rows == RowsOf(ps[..i], gross, target) && floorSum == SumFloors(rows)
    {
      var row := RowOf(ps[i], gross, target);
      PrefixFloors(ps, gross, target, i + 1);
      assert ps[..i + 1][..i] == ps[..i];
      assert (rows + [row])[..|rows|] == rows;
      floorSum := SaturatingAdd(floorSum, row.floor);
      rows := rows + [row];
      i := i + 1;
    }
    assert ps[..i] == ps;
  }

  /** Walks the rows in order, one leftover chip each, until none is left. */
  method HandOut(rows: seq<Row>, leftover: Chips) returns (out: seq<Row>)
    ensures out == Bump(rows, leftover)
  {
    var extra := leftover;
    out := rows;
    var i := 0;
    while i < |out| && extra > 0
      invariant |out| == |rows| && 0 <= i <= |rows| && extra == leftover - i
      invariant forall k :: 0 <= k < |rows| ==>
                  out[k] == if k < i then rows[k].(floor := SaturatingAdd(rows[k].floor, 1)) else rows[k]
    {
      out := out[i := out[i].(floor := SaturatingAdd(out[i].floor, 1))];
      extra := extra - 1;
      i := i + 1;
    }
    if rows != [] {
      BumpAt(rows, leftover, 0);
    }
    forall k | 0 <= k < |rows| ensures out[k] == Bump(rows, leftover)[k] {
      BumpAt(rows, leftover, k);
    }
  }

  method ComputeApportionment(ps: seq<Payout>, target: Chips) returns (r: seq<Payout>)
    requires SumAmounts(ps) <= U128_MAX
    ensures r == ApportionByWeight(ps, target)
  {
    if ps == [] {
      return [];
    }
    var gross := GrossTotal(ps);
    if gross == 0 {
      return [];
    }
    var rows, floorSum := FloorRows(ps, gross, target);
    var leftover := SaturatingSub(target, floorSum);
    rows := SortRows(rows);
    rows := HandOut(rows, leftover);
    r := PositiveBelow(NetOf(rows), SEAT_LIMIT);
  }
}
