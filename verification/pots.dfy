/** Slicing contributions into a main pot and side pots. */
module Pots {
  import opened Money
  import opened Seats

  datatype PotLayer = PotLayer(amount: Chips, eligibleSeats: seq<SeatId>, isMain: bool)

  datatype SidePot = SidePot(amount: Chips, eligibleSeats: seq<SeatId>)

  /** An unsigned 128-bit register: what does not fit wraps around. */
  function Wrap(x: nat): (r: Chips)
  {
    if x <= U128_MAX then x else Wrap(x - (U128_MAX + 1))
  }

  /** The unchecked 128-bit product. */
  function WrappingMul(a: nat, b: nat): (r: Chips)
  {
    Wrap(a * b)
  }

  /** Seats that put in more than `level`. */
  function Above(m: ChipMap, level: nat): (s: set<SeatId>)
  {
    set x | x in m && Get(m, x) > level
  }

  function AtLeast(m: ChipMap, level: nat): (s: set<SeatId>)
  {
    set x | x in m && Get(m, x) >= level
  }

  /** The least contribution above `level` among seats below `n`; 0 when there is none. */
  function LowestAbove(m: ChipMap, level: nat, n: nat): (r: Chips)
  {
    if n == 0 then 0
    else
      var low := LowestAbove(m, level, n - 1);
      var g := Get(m, n - 1);
      if g > level && (low == 0 || g < low) then g else low
  }

  lemma {:induction false} LowestAboveSpec(m: ChipMap, level: nat, n: nat)
    ensures LowestAbove(m, level, n) == 0 <==> forall i: nat :: i < n ==> Get(m, i) <= level
    ensures LowestAbove(m, level, n) != 0 ==>
              && LowestAbove(m, level, n) > level
              && (exists i: nat :: i < n && Get(m, i) == LowestAbove(m, level, n))
              && (forall i: nat :: i < n && Get(m, i) > level ==> LowestAbove(m, level, n) <= Get(m, i))
  {
    if n > 0 {
      LowestAboveSpec(m, level, n - 1);
      assert Get(m, n - 1) == Get(m, n - 1);
    }
  }

  function NextLevel(m: ChipMap, level: nat): (r: Chips)
  {
    LowestAbove(m, level, SEAT_LIMIT)
  }

  lemma {:induction false} NextLevelSpec(m: ChipMap, level: nat) returns (seat: SeatId)
    requires Above(m, level) != {}
    ensures NextLevel(m, level) > level
    ensures seat in Above(m, level) && Get(m, seat) == NextLevel(m, level)
    ensures forall x :: x in Above(m, level) ==> NextLevel(m, level) <= Get(m, x)
  {
    LowestAboveSpec(m, level, SEAT_LIMIT);
    var x :| x in Above(m, level);
    assert Get(m, x) > level;
    var i: nat :| i < SEAT_LIMIT && Get(m, i) == NextLevel(m, level);
    seat := i;
  }

  lemma {:induction false} AboveShrinks(m: ChipMap, level: nat)
    requires Above(m, level) != {}
    ensures Above(m, NextLevel(m, level)) < Above(m, level)
    ensures AtLeast(m, NextLevel(m, level)) == Above(m, level)
    ensures |Above(m, NextLevel(m, level))| < |Above(m, level)|
    ensures NextLevel(m, level) > level
  {
    var x := NextLevelSpec(m, level);
    var a := NextLevel(m, level);
    assert x !in Above(m, a);
    assert Above(m, a) <= Above(m, level) - {x};
    SubsetSize(Above(m, a), Above(m, level) - {x});
  }

  lemma {:induction false} SubsetSize<T>(a: set<T>, b: set<T>)
    requires a <= b
    ensures |a| <= |b|
  {
    if a != {} {
      var x :| x in a;
      SubsetSize(a - {x}, b - {x});
    }
  }

  /** The slice between `level` and the next contribution level, paid by every seat above `level`. */
  function LayerAt(m: ChipMap, folded: set<SeatId>, level: nat): (r: PotLayer)
    requires level <= NextLevel(m, level)
  {
    PotLayer(WrappingMul(NextLevel(m, level) - level, |Above(m, level)|), Sorted(Above(m, level) - folded), level == 0)
  }

  /** All layers above `level`, said without any iteration order. */
  function LayersAbove(m: ChipMap, folded: set<SeatId>, level: nat): (r: seq<PotLayer>)
    decreases |Above(m, level)|
  {
    if |Above(m, level)| <= 1 then []
    else
      AboveShrinks(m, level);
      [LayerAt(m, folded, level)] + LayersAbove(m, folded, NextLevel(m, level))
  }

  function Layers(m: ChipMap, folded: set<SeatId>): (r: seq<PotLayer>)
  {
    LayersAbove(m, folded, 0)
  }

  function SumLayers(layers: seq<PotLayer>): (t: nat)
  {
    if layers == [] then 0 else layers[0].amount + SumLayers(layers[1..])
  }

  function SidePotsOf(layers: seq<PotLayer>): (r: seq<SidePot>)
  {
    if layers == [] then []
    else (if layers[0].isMain then [] else [SidePot(layers[0].amount, layers[0].eligibleSeats)])
         + SidePotsOf(layers[1..])
  }

  function SidePots(m: ChipMap, folded: set<SeatId>): (r: seq<SidePot>)
  {
    SidePotsOf(Layers(m, folded))
  }

  // ----- the loop -----
  // A level is a (seat, amount) pair whose amount is the seat's contribution, so a list of levels
  // is kept as the list of its seats.

  ghost predicate ByAmount(m: ChipMap, levels: seq<SeatId>)
  {
    forall i, j :: 0 <= i < j < |levels| ==> Get(m, levels[i]) <= Get(m, levels[j])
  }

  ghost predicate Distinct(levels: seq<SeatId>)
  {
    forall i, j :: 0 <= i < j < |levels| ==> levels[i] != levels[j]
  }

  lemma {:induction false} LeastExists(m: ChipMap, s: set<SeatId>)
    requires s != {}
    ensures exists x :: x in s && forall y :: y in s ==> Get(m, x) <= Get(m, y)
  {
    var x :| x in s;
    if s - {x} != {} {
      LeastExists(m, s - {x});
      var z :| z in s - {x} && forall y :: y in s - {x} ==> Get(m, z) <= Get(m, y);
      assert forall y :: y in s ==> y == x || y in s - {x};
      if Get(m, x) <= Get(m, z) {
        assert forall y :: y in s ==> Get(m, x) <= Get(m, y);
      } else {
        assert forall y :: y in s ==> Get(m, z) <= Get(m, y);
      }
    } else {
      assert s == {x};
    }
  }

  /** `levels` is an amount-sorted listing of what is no longer in `rest`, all of it at most `rest`. */
  ghost predicate Listing(m: ChipMap, levels: seq<SeatId>, rest: set<SeatId>)
  {
    && ByAmount(m, levels) && Distinct(levels)
    && Members(levels) == Above(m, 0) - rest
    && forall i, y :: 0 <= i < |levels| && y in rest ==> Get(m, levels[i]) <= Get(m, y)
  }

  lemma {:induction false} MembersAppend(a: seq<SeatId>, x: SeatId)
    ensures Members(a + [x]) == Members(a) + {x}
  {
    assert forall y :: y in a + [x] <==> y in a || y == x;
  }

  lemma {:induction false} ListNext(m: ChipMap, levels: seq<SeatId>, rest: set<SeatId>, seat: SeatId)
    requires Listing(m, levels, rest) && rest <= Above(m, 0)
    requires seat in rest && forall y :: y in rest ==> Get(m, seat) <= Get(m, y)
    ensures Listing(m, levels + [seat], rest - {seat})
  {
    MembersAppend(levels, seat);
    assert forall i :: 0 <= i < |levels| ==> levels[i] in Members(levels);
    assert Members(levels + [seat]) == Above(m, 0) - (rest - {seat});
  }

  /** The positive contributions in ascending amount order. The order in which the hash map is
      iterated, and with it the order of ties, is left open: any least remaining seat may come next. */
  method CollectLevels(m: ChipMap) returns (levels: seq<SeatId>)
    ensures Listing(m, levels, {})
  {
    levels := [];
    var rest := Above(m, 0);
    while rest != {}
      invariant rest <= Above(m, 0) && Listing(m, levels, rest)
      decreases |rest|
    {
      LeastExists(m, rest);
      var seat :| seat in rest && forall y :: y in rest ==> Get(m, seat) <= Get(m, y);
      ListNext(m, levels, rest, seat);
      levels := levels + [seat];
      rest := rest - {seat};
    }
  }

  lemma {:induction false} DistinctSize(levels: seq<SeatId>)
    requires Distinct(levels)
    ensures |Members(levels)| == |levels|
  {
    if levels != [] {
      var init := levels[..|levels| - 1];
      DistinctSize(init);
      assert levels == init + [levels[|levels| - 1]];
      assert Members(levels) == Members(init) + {levels[|levels| - 1]};
    }
  }

  /** From the first level above `prev` on, the sorted list holds exactly the seats above `prev`. */
  lemma {:induction false} SuffixIsAbove(m: ChipMap, levels: seq<SeatId>, idx: nat, prev: nat)
    requires Listing(m, levels, {})
    requires idx <= |levels|
    requires idx > 0 ==> Get(m, levels[idx - 1]) <= prev
    requires idx < |levels| ==> Get(m, levels[idx]) > prev
    ensures Members(levels[idx..]) == Above(m, prev)
    ensures |levels[idx..]| == |Above(m, prev)|
  {
    DistinctSize(levels[idx..]);
    SuffixCovers(m, levels, idx, prev);
    SuffixOnlyAbove(m, levels, idx, prev);
  }

  lemma {:induction false} SuffixCovers(m: ChipMap, levels: seq<SeatId>, idx: nat, prev: nat)
    requires Listing(m, levels, {}) && idx <= |levels|
    requires idx > 0 ==> Get(m, levels[idx - 1]) <= prev
    ensures Above(m, prev) <= Members(levels[idx..])
  {
    forall x | x in Above(m, prev) ensures x in levels[idx..] {
      var i := PlaceOf(m, levels, x);
      assert levels[idx..][i - idx] == x;
    }
  }

  lemma {:induction false} SuffixOnlyAbove(m: ChipMap, levels: seq<SeatId>, idx: nat, prev: nat)
    requires Listing(m, levels, {}) && idx <= |levels|
    requires idx < |levels| ==> Get(m, levels[idx]) > prev
    ensures Members(levels[idx..]) <= Above(m, prev)
  {
    forall x | x in levels[idx..] ensures x in Above(m, prev) {
      var i :| idx <= i < |levels| && levels[i] == x;
      assert x in Members(levels);
    }
  }

  lemma {:induction false} PlaceOf(m: ChipMap, levels: seq<SeatId>, x: SeatId) returns (i: nat)
    requires Listing(m, levels, {}) && x in m && Get(m, x) > 0
    ensures i < |levels| && levels[i] == x
  {
    assert x in Members(levels);
    i :| 0 <= i < |levels| && levels[i] == x;
  }

  lemma {:induction false} FirstLevelIsNext(m: ChipMap, levels: seq<SeatId>, idx: nat, prev: nat)
    requires Listing(m, levels, {})
    requires idx < |levels| && Get(m, levels[idx]) > prev
    requires idx > 0 ==> Get(m, levels[idx - 1]) <= prev
    ensures Above(m, prev) != {} && NextLevel(m, prev) == Get(m, levels[idx])
  {
    assert levels[idx] in Members(levels);
    assert levels[idx] in Above(m, prev);
    var x := NextLevelSpec(m, prev);
    var i := PlaceOf(m, levels, x);
    assert idx <= i;
  }

  /** The slice the loop cuts at `idx` is the next layer above `prev`. */
  lemma {:induction false} SliceIsLayer(m: ChipMap, folded: set<SeatId>, levels: seq<SeatId>, idx: nat, prev: nat)
    requires Listing(m, levels, {})
    requires idx + 1 < |levels| && Get(m, levels[idx]) > prev
    requires idx > 0 ==> Get(m, levels[idx - 1]) <= prev
    ensures LayersAbove(m, folded, prev)
         == [PotLayer(WrappingMul(Get(m, levels[idx]) - prev, |levels[idx..]|),
                      Sorted(Members(levels[idx..]) - folded), prev == 0)]
            + LayersAbove(m, folded, Get(m, levels[idx]))
  {
    FirstLevelIsNext(m, levels, idx, prev);
    SuffixIsAbove(m, levels, idx, prev);
  }

  lemma {:induction false} Regroup<T>(a: seq<T>, x: T, b: seq<T>)
    ensures a + ([x] + b) == a + [x] + b
  {
  }

  lemma {:induction false} NoMoreLayers(m: ChipMap, folded: set<SeatId>, levels: seq<SeatId>, idx: nat, prev: nat)
    requires Listing(m, levels, {})
    requires |levels| - 1 <= idx <= |levels|
    requires idx > 0 ==> Get(m, levels[idx - 1]) <= prev
    requires idx < |levels| ==> Get(m, levels[idx]) > prev
    ensures LayersAbove(m, folded, prev) == []
  {
    SuffixIsAbove(m, levels, idx, prev);
  }

  method BuildPotLayers(m: ChipMap, folded: set<SeatId>) returns (layers: seq<PotLayer>)
    ensures layers == Layers(m, folded)
  {
    var levels := CollectLevels(m);
    assert forall i :: 0 <= i < |levels| ==> levels[i] in Members(levels);
    layers := [];
    if |levels| <= 1 {
      NoMoreLayers(m, folded, levels, 0, 0);
      return;
    }
    var prev: Chips := 0;
    var idx := 0;
    while idx < |levels|
      invariant 0 <= idx <= |levels|
      invariant idx > 0 ==> Get(m, levels[idx - 1]) <= prev
      invariant idx == 0 <==> prev == 0
      invariant layers + LayersAbove(m, folded, prev) == Layers(m, folded)
    {
      var amount := Get(m, levels[idx]);
      if amount > prev {
        var contributors := levels[idx..];
        if |contributors| <= 1 {
          break;
        }
        SliceIsLayer(m, folded, levels, idx, prev);
        var layer := UnwrapOr(CheckedSub(amount, prev), 0);
        var eligible := Sorted(Members(contributors) - folded);
        var slice := PotLayer(WrappingMul(layer, |contributors|), eligible, idx == 0);
        Regroup(layers, slice, LayersAbove(m, folded, amount));
        layers := layers + [slice];
        prev := amount;
      }
      idx := idx + 1;
    }
    NoMoreLayers(m, folded, levels, idx, prev);
  }
}
