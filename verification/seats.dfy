/** Seats, their ascending order, and sums over all seats. */
module Seats {
  import opened Money

  /** Seat ids are unsigned 8-bit integers. */
  const SEAT_LIMIT: nat := 256

  type SeatId = n: nat | n < SEAT_LIMIT

  type ChipMap = map<SeatId, Chips>

  function Get(m: ChipMap, seat: nat): (c: Chips)
  {
    if seat in m then m[seat] else 0
  }

  ghost predicate Ascending(a: seq<SeatId>)
  {
    forall i, j :: 0 <= i < j < |a| ==> a[i] < a[j]
  }

  function Members(a: seq<SeatId>): (s: set<SeatId>)
  {
    set x | x in a
  }

  /** The members of `s` below `n`, in ascending order. */
  function AscendingBelow(s: set<SeatId>, n: nat): (r: seq<SeatId>)
    requires n <= SEAT_LIMIT
  {
    if n == 0 then []
    else AscendingBelow(s, n - 1) + (if n - 1 in s then [n - 1] else [])
  }

  /** What sorting the members of a hash set yields. */
  function Sorted(s: set<SeatId>): (r: seq<SeatId>)
  {
    AscendingBelow(s, SEAT_LIMIT)
  }

  lemma {:induction false} AscendingBelowSpec(s: set<SeatId>, n: nat)
    requires n <= SEAT_LIMIT
    ensures Ascending(AscendingBelow(s, n))
    ensures forall x :: x in AscendingBelow(s, n) <==> x in s && x < n
  {
    if n > 0 {
      AscendingBelowSpec(s, n - 1);
      var init := AscendingBelow(s, n - 1);
      assert forall i :: 0 <= i < |init| ==> init[i] in init;
    }
  }

  /** Sorting a set lists each member once, in ascending order. */
  lemma {:induction false} SortedSpec(s: set<SeatId>)
    ensures Ascending(Sorted(s))
    ensures Members(Sorted(s)) == s
    ensures |Sorted(s)| == |s|
  {
    AscendingBelowSpec(s, SEAT_LIMIT);
    assert Members(Sorted(s)) == s;
    AscendingSize(Sorted(s));
  }

  function SumBelow(m: ChipMap, n: nat): (t: nat)
  {
    if n == 0 then 0 else SumBelow(m, n - 1) + Get(m, n - 1)
  }

  function Total(m: ChipMap): (t: nat)
  {
    SumBelow(m, SEAT_LIMIT)
  }

  lemma {:induction false} SumBelowUpdate(m: ChipMap, k: SeatId, v: Chips, n: nat)
    ensures SumBelow(m[k := v], n) == SumBelow(m, n) + (if k < n then v - Get(m, k) else 0)
  {
    if n > 0 {
      SumBelowUpdate(m, k, v, n - 1);
    }
  }

  lemma {:induction false} GetUpdate(m: ChipMap, k: SeatId, v: Chips)
    ensures forall s: nat {:trigger Get(m[k := v], s)} :: Get(m[k := v], s) == if s == k then v else Get(m, s)
  {
    forall s: nat ensures Get(m[k := v], s) == if s == k then v else Get(m, s) {
    }
  }

  lemma {:induction false} TotalUpdate(m: ChipMap, k: SeatId, v: Chips)
    ensures Total(m[k := v]) == Total(m) + v - Get(m, k)
  {
    SumBelowUpdate(m, k, v, SEAT_LIMIT);
  }

  /** The sum over seats below `n` of the contribution, capped at `cap`. */
  function CappedBelow(m: ChipMap, cap: nat, n: nat): (t: nat)
  {
    if n == 0 then 0 else CappedBelow(m, cap, n - 1) + Min(Get(m, n - 1), cap)
  }

  function Capped(m: ChipMap, cap: nat): (t: nat)
  {
    CappedBelow(m, cap, SEAT_LIMIT)
  }

  lemma {:induction false} CappedMonotone(m: ChipMap, p: nat, a: nat, n: nat)
    requires p <= a
    ensures CappedBelow(m, p, n) <= CappedBelow(m, a, n) <= SumBelow(m, n)
  {
    if n > 0 {
      CappedMonotone(m, p, a, n - 1);
    }
  }

  lemma {:induction false} CappedAtZero(m: ChipMap, n: nat)
    ensures CappedBelow(m, 0, n) == 0
  {
    if n > 0 {
      CappedAtZero(m, n - 1);
    }
  }

  lemma {:induction false} SumOfEmpty(n: nat)
    ensures SumBelow(map[], n) == 0
  {
    if n > 0 {
      SumOfEmpty(n - 1);
    }
  }

  lemma {:induction false} GetAtMostSum(m: ChipMap, k: SeatId, n: nat)
    requires k < n
    ensures Get(m, k) <= SumBelow(m, n)
  {
    if k < n - 1 {
      GetAtMostSum(m, k, n - 1);
    }
  }

  /** An ascending list is determined by its members. */
  lemma {:induction false} AscendingUnique(a: seq<SeatId>, b: seq<SeatId>)
    requires Ascending(a) && Ascending(b)
    requires forall x :: x in a <==> x in b
    ensures a == b
  {
    if a == [] {
      assert forall i {:trigger b[i]} :: 0 <= i < |b| ==> b[i] in b;
    } else {
      assert a[|a| - 1] in b;
      var x, y := a[|a| - 1], b[|b| - 1];
      assert y in a && x == y;
      var a', b' := a[..|a| - 1], b[..|b| - 1];
      assert a == a' + [x] && b == b' + [y];
      forall z ensures z in a' <==> z in b' {
        assert z in a' <==> z in a && z != x;
        assert z in b' <==> z in b && z != x;
      }
      AscendingUnique(a', b');
    }
  }

  lemma {:induction false} AscendingSize(a: seq<SeatId>)
    requires Ascending(a)
    ensures |Members(a)| == |a|
  {
    if a != [] {
      var init := a[..|a| - 1];
      AscendingSize(init);
      assert a == init + [a[|a| - 1]];
      assert Members(a) == Members(init) + {a[|a| - 1]};
    }
  }
}
