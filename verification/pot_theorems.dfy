/** What the pot layers amount to: closed form, nesting, and the cap on any one seat's winnings. */
module PotTheorems {
  import opened Arith
  import opened Money
  import opened Seats
  import opened Pots

  // ----- the two largest contributions -----

  /** The largest and the second largest contribution, counted with multiplicity. */
  function TopTwo(m: ChipMap, n: nat): (r: (Chips, Chips))
  {
    if n == 0 then (0, 0)
    else
      var (top, second) := TopTwo(m, n - 1);
      var g := Get(m, n - 1);
      if g > top then (g, top) else if g > second then (top, g) else (top, second)
  }

  function Largest(m: ChipMap): (r: Chips)
  {
    TopTwo(m, SEAT_LIMIT).0
  }

  function RunnerUp(m: ChipMap): (r: Chips)
  {
    TopTwo(m, SEAT_LIMIT).1
  }

  /** `seat` holds the largest contribution and nobody else exceeds the runner-up. */
  lemma {:induction false} TopTwoSpec(m: ChipMap, n: nat) returns (seat: nat)
    requires n <= SEAT_LIMIT
    ensures TopTwo(m, n).1 <= TopTwo(m, n).0
    ensures TopTwo(m, n).0 > 0 ==> seat < n && Get(m, seat) == TopTwo(m, n).0
    ensures forall i: nat :: i < n && i != seat ==> Get(m, i) <= TopTwo(m, n).1
    ensures forall i: nat :: i < n ==> Get(m, i) <= TopTwo(m, n).0
    ensures TopTwo(m, n).1 > 0 ==> exists i: nat :: i < n && i != seat && Get(m, i) == TopTwo(m, n).1
  {
    seat := 0;
    if n > 0 {
      seat := TopTwoSpec(m, n - 1);
      var (top, second) := TopTwo(m, n - 1);
      var g := Get(m, n - 1);
      if g > top {
        if top > 0 {
          assert seat < n && seat != n - 1 && Get(m, seat) == top;
        }
        seat := n - 1;
      } else if g > second {
        assert n - 1 != seat && Get(m, n - 1) == g;
      }
    }
  }

  // ----- closed form of the layer amounts -----

  function CountAbove(m: ChipMap, level: nat, n: nat): (c: nat)
  {
    if n == 0 then 0 else CountAbove(m, level, n - 1) + (if Get(m, n - 1) > level then 1 else 0)
  }

  lemma {:induction false} CountIsSize(m: ChipMap, level: nat, n: nat)
    requires n <= SEAT_LIMIT
    ensures CountAbove(m, level, n) == |set x | x in Above(m, level) && x < n|
  {
    var payers := set x | x in Above(m, level) && x < n;
    if n == 0 {
      assert payers == {};
    } else {
      CountIsSize(m, level, n - 1);
      var before := set x | x in Above(m, level) && x < n - 1;
      if Get(m, n - 1) > level {
        assert payers == before + {n - 1};
      } else {
        assert payers == before;
      }
    }
  }

  lemma {:induction false} MulSucc(d: nat, c: nat)
    ensures d * (c + 1) == d * c + d
  {
  }

  /** Raising the cap from `p` to `a` costs each seat above `p` the same slice. */
  lemma {:induction false} SliceSum(m: ChipMap, p: nat, a: nat, n: nat)
    requires p <= a
    requires forall i: nat :: i < n && Get(m, i) > p ==> Get(m, i) >= a
    ensures CappedBelow(m, a, n) == CappedBelow(m, p, n) + (a - p) * CountAbove(m, p, n)
  {
    if n > 0 {
      SliceSum(m, p, a, n - 1);
      MulSucc(a - p, CountAbove(m, p, n - 1));
    }
  }

  /** A layer's amount, as a difference of capped totals; no product wraps while the chips fit. */
  lemma {:induction false} LayerAmount(m: ChipMap, folded: set<SeatId>, level: nat)
    requires Total(m) <= U128_MAX
    requires Above(m, level) != {}
    ensures NextLevel(m, level) > level
    ensures (NextLevel(m, level) - level) * |Above(m, level)| <= Total(m)
    ensures LayerAt(m, folded, level).amount == Capped(m, NextLevel(m, level)) - Capped(m, level)
  {
    var _ := NextLevelSpec(m, level);
    var a := NextLevel(m, level);
    assert forall i: nat :: i < SEAT_LIMIT && Get(m, i) > level ==> i in Above(m, level);
    SliceSum(m, level, a, SEAT_LIMIT);
    CountIsSize(m, level, SEAT_LIMIT);
    assert (set x | x in Above(m, level) && x < SEAT_LIMIT) == Above(m, level);
    CappedMonotone(m, level, a, SEAT_LIMIT);
  }

  /** Once nobody but one seat is above `level`, `level` is at least the runner-up. */
  lemma {:induction false} RunnerUpReached(m: ChipMap, level: nat)
    requires |Above(m, level)| <= 1
    ensures RunnerUp(m) <= level
  {
    var seat := TopTwoSpec(m, SEAT_LIMIT);
    if RunnerUp(m) > level {
      var i: nat :| i < SEAT_LIMIT && i != seat && Get(m, i) == RunnerUp(m);
      assert {i, seat} <= Above(m, level);
      SubsetSize({i, seat}, Above(m, level));
    }
  }

  lemma {:induction false} RunnerUpAhead(m: ChipMap, level: nat)
    requires |Above(m, level)| >= 2
    ensures NextLevel(m, level) <= RunnerUp(m)
  {
    var seat := TopTwoSpec(m, SEAT_LIMIT);
    var low := NextLevelSpec(m, level);
    if RunnerUp(m) < NextLevel(m, level) {
      forall x | x in Above(m, level) ensures x == seat {
        assert Get(m, x) > RunnerUp(m);
      }
      assert Above(m, level) <= {low};
      SubsetSize(Above(m, level), {low});
    }
  }

  lemma {:induction false} LayersAboveSum(m: ChipMap, folded: set<SeatId>, level: nat)
    requires Total(m) <= U128_MAX
    requires level <= RunnerUp(m)
    ensures SumLayers(LayersAbove(m, folded, level)) == Capped(m, RunnerUp(m)) - Capped(m, level)
    decreases |Above(m, level)|
  {
    if |Above(m, level)| <= 1 {
      RunnerUpReached(m, level);
    } else {
      AboveShrinks(m, level);
      RunnerUpAhead(m, level);
      LayerAmount(m, folded, level);
      LayersAboveSum(m, folded, NextLevel(m, level));
    }
  }

  /** The layers hold every seat's contribution up to the second largest one, for any fold set. */
  lemma {:induction false} LayersSum(m: ChipMap, folded: set<SeatId>)
    requires Total(m) <= U128_MAX
    ensures SumLayers(Layers(m, folded)) == Capped(m, RunnerUp(m))
  {
    LayersAboveSum(m, folded, 0);
    CappedAtZero(m, SEAT_LIMIT);
  }

  lemma {:induction false} ExcessBelow(m: ChipMap, cap: nat, seat: nat, n: nat)
    requires forall i: nat :: i < n && i != seat ==> Get(m, i) <= cap
    ensures SumBelow(m, n) - CappedBelow(m, cap, n) == if seat < n && Get(m, seat) > cap then Get(m, seat) - cap else 0
  {
    if n > 0 {
      ExcessBelow(m, cap, seat, n - 1);
    }
  }

  /** What no layer holds is exactly the top contributor's excess over the runner-up; so the layers
      hold the whole pot if and only if the largest contribution is made at least twice. */
  lemma {:induction false} UncalledExcess(m: ChipMap, folded: set<SeatId>)
    requires Total(m) <= U128_MAX
    ensures Total(m) == SumLayers(Layers(m, folded)) + (Largest(m) - RunnerUp(m))
    ensures SumLayers(Layers(m, folded)) == Total(m) <==> Largest(m) == RunnerUp(m)
  {
    LayersSum(m, folded);
    var seat := TopTwoSpec(m, SEAT_LIMIT);
    ExcessBelow(m, RunnerUp(m), seat, SEAT_LIMIT);
  }

  // ----- nesting -----

  lemma {:induction false} EligibleAbove(m: ChipMap, folded: set<SeatId>, level: nat)
    ensures forall i :: 0 <= i < |LayersAbove(m, folded, level)| ==>
              Members(LayersAbove(m, folded, level)[i].eligibleSeats) <= Above(m, level) - folded
    decreases |Above(m, level)|
  {
    if |Above(m, level)| > 1 {
      AboveShrinks(m, level);
      EligibleAbove(m, folded, NextLevel(m, level));
      SortedSpec(Above(m, level) - folded);
      assert Above(m, NextLevel(m, level)) <= Above(m, level);
    }
  }

  lemma {:induction false} NestedAbove(m: ChipMap, folded: set<SeatId>, level: nat)
    ensures forall i, j :: 0 <= i < j < |LayersAbove(m, folded, level)| ==>
              Members(LayersAbove(m, folded, level)[j].eligibleSeats)
              <= Members(LayersAbove(m, folded, level)[i].eligibleSeats)
    ensures forall i :: 0 <= i < |LayersAbove(m, folded, level)| ==>
              Ascending(LayersAbove(m, folded, level)[i].eligibleSeats)
    decreases |Above(m, level)|
  {
    if |Above(m, level)| > 1 {
      AboveShrinks(m, level);
      SortedSpec(Above(m, level) - folded);
      var next := NextLevel(m, level);
      NestedAbove(m, folded, next);
      EligibleAbove(m, folded, next);
      assert Above(m, next) - folded <= Above(m, level) - folded;
    }
  }

  /** Later layers are contested by fewer seats, never by new ones; each list is ascending. */
  lemma {:induction false} LayersNested(m: ChipMap, folded: set<SeatId>, i: nat, j: nat)
    requires i <= j < |Layers(m, folded)|
    ensures Members(Layers(m, folded)[j].eligibleSeats) <= Members(Layers(m, folded)[i].eligibleSeats)
    ensures Ascending(Layers(m, folded)[i].eligibleSeats)
    ensures forall x :: x in Layers(m, folded)[i].eligibleSeats ==> x in m && x !in folded
  {
    NestedAbove(m, folded, 0);
    EligibleAbove(m, folded, 0);
    forall x | x in Layers(m, folded)[i].eligibleSeats ensures x in m && x !in folded {
      assert x in Members(Layers(m, folded)[i].eligibleSeats);
    }
  }

  // ----- every layer -----

  /** The layers cut the contributions above `lo` at ever higher levels up to the runner-up: each holds what
      everybody put in between two levels that follow one another among the contributions, and is open to the
      unfolded seats that reached the upper one. Only the first, from nothing, is the main pot. */
  ghost predicate Sliced(m: ChipMap, folded: set<SeatId>, layers: seq<PotLayer>, lo: nat)
    decreases |layers|
  {
    if layers == [] then RunnerUp(m) <= lo
    else
      exists hi: nat :: Slice(m, folded, layers[0], lo, hi) && Sliced(m, folded, layers[1..], hi)
  }

  ghost predicate Slice(m: ChipMap, folded: set<SeatId>, layer: PotLayer, lo: nat, hi: nat)
  {
    && lo < hi <= RunnerUp(m)
    && layer.amount == Capped(m, hi) - Capped(m, lo) && layer.isMain == (lo == 0)
    && Members(layer.eligibleSeats) == AtLeast(m, hi) - folded
    && forall s: SeatId :: Get(m, s) > lo ==> Get(m, s) >= hi
  }

  lemma {:induction false} FirstSlice(m: ChipMap, folded: set<SeatId>, level: nat)
    requires Total(m) <= U128_MAX && |Above(m, level)| > 1
    ensures NextLevel(m, level) > level
    ensures Slice(m, folded, LayerAt(m, folded, level), level, NextLevel(m, level))
  {
    AboveShrinks(m, level);
    RunnerUpAhead(m, level);
    LayerAmount(m, folded, level);
    SortedSpec(Above(m, level) - folded);
    var _ := NextLevelSpec(m, level);
    forall s: SeatId | Get(m, s) > level ensures Get(m, s) >= NextLevel(m, level) {
      assert s in Above(m, level);
    }
  }

  lemma {:induction false} SlicedAbove(m: ChipMap, folded: set<SeatId>, level: nat)
    requires Total(m) <= U128_MAX
    ensures Sliced(m, folded, LayersAbove(m, folded, level), level)
    decreases |Above(m, level)|
  {
    if |Above(m, level)| <= 1 {
      RunnerUpReached(m, level);
    } else {
      AboveShrinks(m, level);
      FirstSlice(m, folded, level);
      SlicedAbove(m, folded, NextLevel(m, level));
      assert LayersAbove(m, folded, level)[1..] == LayersAbove(m, folded, NextLevel(m, level));
    }
  }

  /** For any contributions and folds the layers are the slices of the contributions. */
  lemma {:induction false} LayersAreSlices(m: ChipMap, folded: set<SeatId>)
    requires Total(m) <= U128_MAX
    ensures Sliced(m, folded, Layers(m, folded), 0)
  {
    SlicedAbove(m, folded, 0);
  }

  // ----- the top layer -----

  /** The last layer is open to the unfolded seats that put in at least the runner-up. */
  lemma {:induction false} TopLayer(m: ChipMap, folded: set<SeatId>, level: nat)
    requires level < RunnerUp(m)
    ensures var layers := LayersAbove(m, folded, level);
            layers != [] && Members(layers[|layers| - 1].eligibleSeats) == AtLeast(m, RunnerUp(m)) - folded
    decreases |Above(m, level)|
  {
    if |Above(m, level)| <= 1 {
      RunnerUpReached(m, level);
    } else {
      AboveShrinks(m, level);
      RunnerUpAhead(m, level);
      var next := NextLevel(m, level);
      if next < RunnerUp(m) {
        TopLayer(m, folded, next);
      } else {
        NoneAboveRunnerUp(m);
        SortedSpec(Above(m, level) - folded);
      }
    }
  }

  lemma {:induction false} NoneAboveRunnerUp(m: ChipMap)
    ensures |Above(m, RunnerUp(m))| <= 1
  {
    if |Above(m, RunnerUp(m))| >= 2 {
      RunnerUpAhead(m, RunnerUp(m));
      AboveShrinks(m, RunnerUp(m));
    }
  }

  lemma {:induction false} LayersExistIff(m: ChipMap, folded: set<SeatId>)
    ensures Layers(m, folded) != [] <==> RunnerUp(m) > 0
  {
    if RunnerUp(m) > 0 {
      TopLayer(m, folded, 0);
    } else {
      NoneAboveRunnerUp(m);
    }
  }

  lemma {:induction false} LayerHoldsChips(m: ChipMap, folded: set<SeatId>, level: nat)
    requires Total(m) <= U128_MAX && |Above(m, level)| > 1
    ensures NextLevel(m, level) > level && LayerAt(m, folded, level).amount > 0
  {
    LayerAmount(m, folded, level);
    var step, seats := NextLevel(m, level) - level, |Above(m, level)|;
    MulAtLeast(step, seats);
    assert step * seats > 0;
  }

  lemma {:induction false} LayersHoldChips(m: ChipMap, folded: set<SeatId>, level: nat)
    requires Total(m) <= U128_MAX
    ensures forall i :: 0 <= i < |LayersAbove(m, folded, level)| ==> LayersAbove(m, folded, level)[i].amount > 0
    decreases |Above(m, level)|
  {
    if |Above(m, level)| > 1 {
      AboveShrinks(m, level);
      LayerHoldsChips(m, folded, level);
      LayersHoldChips(m, folded, NextLevel(m, level));
    }
  }

  // ----- what one seat can win -----

  /** The chips of all layers that `seat` may win. */
  function WinnableBy(layers: seq<PotLayer>, seat: SeatId): (t: nat)
  {
    if layers == [] then 0
    else (if seat in layers[0].eligibleSeats then layers[0].amount else 0) + WinnableBy(layers[1..], seat)
  }

  lemma {:induction false} WinnableAbove(m: ChipMap, folded: set<SeatId>, level: nat, seat: SeatId)
    requires Total(m) <= U128_MAX
    requires level <= Get(m, seat)
    ensures WinnableBy(LayersAbove(m, folded, level), seat) <= Capped(m, Get(m, seat)) - Capped(m, level)
    decreases |Above(m, level)|
  {
    CappedMonotone(m, level, Get(m, seat), SEAT_LIMIT);
    if |Above(m, level)| > 1 {
      if seat in Above(m, level) - folded {
        AboveShrinks(m, level);
        LayerAmount(m, folded, level);
        assert seat in AtLeast(m, NextLevel(m, level));
        WinnableAbove(m, folded, NextLevel(m, level), seat);
      } else {
        NotWinnable(m, folded, level, seat);
      }
    }
  }

  /** A seat that is not eligible for one layer is not eligible for any later one. */
  lemma {:induction false} NotWinnable(m: ChipMap, folded: set<SeatId>, level: nat, seat: SeatId)
    requires seat !in Above(m, level) - folded
    ensures WinnableBy(LayersAbove(m, folded, level), seat) == 0
    decreases |Above(m, level)|
  {
    if |Above(m, level)| > 1 {
      AboveShrinks(m, level);
      SortedSpec(Above(m, level) - folded);
      assert seat !in Members(LayerAt(m, folded, level).eligibleSeats);
      NotWinnable(m, folded, NextLevel(m, level), seat);
    }
  }

  /** No seat can win from any opponent more than it put in itself. */
  lemma {:induction false} WinnableAtMostMatched(m: ChipMap, folded: set<SeatId>, seat: SeatId)
    requires Total(m) <= U128_MAX
    ensures WinnableBy(Layers(m, folded), seat) <= Capped(m, Get(m, seat))
  {
    WinnableAbove(m, folded, 0, seat);
    CappedAtZero(m, SEAT_LIMIT);
  }

  // ----- two contributors -----

  /** Of two unequal contributions only twice the smaller is in a layer. */
  lemma {:induction false} TwoUnequal(m: ChipMap, s: SeatId, t: SeatId, folded: set<SeatId>)
    requires s != t && m.Keys == {s, t} && 0 < m[t] < m[s] && m[s] + m[t] <= U128_MAX
    ensures Layers(m, folded) == [PotLayer(2 * m[t], Sorted({s, t} - folded), true)]
    ensures Total(m) == m[s] + m[t]
  {
    var low := m[t];
    assert Above(m, 0) == {s, t};
    var seat := NextLevelSpec(m, 0);
    assert t in Above(m, 0);
    assert NextLevel(m, 0) == low;
    assert Above(m, low) == {s};
    assert LayersAbove(m, folded, low) == [];
    AboveShrinks(m, 0);
    assert Layers(m, folded) == [LayerAt(m, folded, 0)];
    TwoTotal(m, s, t);
    LayerAmount(m, folded, 0);
  }

  lemma {:induction false} TwoTotal(m: ChipMap, s: SeatId, t: SeatId)
    requires s != t && m.Keys == {s, t} && m[s] + m[t] <= U128_MAX
    ensures Total(m) == m[s] + m[t]
  {
    var none: ChipMap := map[];
    SumOfEmpty(SEAT_LIMIT);
    TotalUpdate(none, s, m[s]);
    TotalUpdate(none[s := m[s]], t, m[t]);
    assert none[s := m[s]][t := m[t]] == m;
  }
}
