/** Who wins a showdown. Hand strength is any function of board and hole cards into the integers. */
module ShowdownEval {
  import opened Money
  import opened Seats
  import opened EngineModel

  type Strength = (seq<Card>, (Card, Card)) -> int

  datatype ShowdownInput = ShowdownInput(board: seq<Card>, revealed: seq<(SeatId, (Card, Card))>)

  predicate Contends(eligible: Option<seq<SeatId>>, seat: SeatId)
  {
    eligible.None? || seat in eligible.value
  }

  function StrengthOf(strength: Strength, input: ShowdownInput, k: nat): (r: int)
    requires k < |input.revealed|
  {
    strength(input.board, input.revealed[k].1)
  }

  /** Entry `k` is a contender and no contender is stronger. */
  ghost predicate IsBest(strength: Strength, input: ShowdownInput, eligible: Option<seq<SeatId>>, k: nat)
  {
    && k < |input.revealed| && Contends(eligible, input.revealed[k].0)
    && forall j :: 0 <= j < |input.revealed| && Contends(eligible, input.revealed[j].0) ==>
         StrengthOf(strength, input, j) <= StrengthOf(strength, input, k)
  }

  // ----- the scan -----

  /** The best strength among the first `n` entries and the seats that reach it, in entry order. */
  function Scan(strength: Strength, input: ShowdownInput, eligible: Option<seq<SeatId>>, n: nat): (r: (Option<int>,
                seq<SeatId>))
    requires n <= |input.revealed|
  {
    if n == 0 then (None, [])
    else
      var (best, winners) := Scan(strength, input, eligible, n - 1);
      var (seat, _) := input.revealed[n - 1];
      if !Contends(eligible, seat) then (best, winners)
      else
        var s := StrengthOf(strength, input, n - 1);
        if best.None? || s > best.value then (Some(s), [seat])
        else if s == best.value then (best, winners + [seat])
        else (best, winners)
  }

  function InsertSeat(seats: seq<SeatId>, s: SeatId): (r: seq<SeatId>)
  {
    if seats == [] then [s]
    else if s < seats[|seats| - 1] then InsertSeat(seats[..|seats| - 1], s) + [seats[|seats| - 1]]
    else seats + [s]
  }

  function SortSeats(seats: seq<SeatId>): (r: seq<SeatId>)
  {
    if seats == [] then [] else InsertSeat(SortSeats(seats[..|seats| - 1]), seats[|seats| - 1])
  }

  function Evaluate(strength: Strength, input: ShowdownInput, eligible: Option<seq<SeatId>>): (r: Option<seq<SeatId>>)
  {
    if input.revealed == [] || |input.board| < 3 then None
    else
      var winners := Scan(strength, input, eligible, |input.revealed|).1;
      if winners == [] then None else Some(SortSeats(winners))
  }

  method EvaluateShowdown(strength: Strength, input: ShowdownInput, eligible: Option<seq<SeatId>>)
    returns (r: Option<seq<SeatId>>)
    ensures r == Evaluate(strength, input, eligible)
  {
    if input.revealed == [] || |input.board| < 3 {
      return None;
    }
    var best: Option<int> := None;
    var winners: seq<SeatId> := [];
    var i := 0;
    while i < |input.revealed|
      invariant 0 <= i <= |input.revealed|
      invariant (best, winners) == Scan(strength, input, eligible, i)
    {
      var (seat, hole) := input.revealed[i];
      if Contends(eligible, seat) {
        var s := strength(input.board, hole);
        if best.None? || s > best.value {
          best, winners := Some(s), [seat];
        } else if s == best.value {
          winners := winners + [seat];
        }
      }
      i := i + 1;
    }
    if winners == [] {
      return None;
    }
    r := Some(SortSeats(winners));
  }

  // ----- what the scan finds -----

  ghost predicate Nondecreasing(seats: seq<SeatId>)
  {
    forall i, j :: 0 <= i < j < |seats| ==> seats[i] <= seats[j]
  }

  lemma {:induction false} InsertSeatSpec(seats: seq<SeatId>, s: SeatId)
    requires Nondecreasing(seats)
    ensures Nondecreasing(InsertSeat(seats, s))
    ensures forall x :: x in InsertSeat(seats, s) <==> x in seats || x == s
  {
    if seats != [] && s < seats[|seats| - 1] {
      var init, last := seats[..|seats| - 1], seats[|seats| - 1];
      assert seats == init + [last];
      InsertSeatSpec(init, s);
      var t := InsertSeat(init, s);
      forall i | 0 <= i < |t| ensures t[i] <= last {
        assert t[i] in t;
      }
    }
  }

  lemma {:induction false} SortSeatsSpec(seats: seq<SeatId>)
    ensures Nondecreasing(SortSeats(seats))
    ensures forall x :: x in SortSeats(seats) <==> x in seats
  {
    if seats != [] {
      var init, last := seats[..|seats| - 1], seats[|seats| - 1];
      assert seats == init + [last];
      SortSeatsSpec(init);
      InsertSeatSpec(SortSeats(init), last);
    }
  }

  /** After `n` entries: the kept strength is the greatest so far, and exactly the seats of the
      entries that reach it are kept. */
  lemma {:induction false} ScanSpec(strength: Strength, input: ShowdownInput, eligible: Option<seq<SeatId>>, n: nat)
    requires n <= |input.revealed|
    ensures var (best, winners) := Scan(strength, input, eligible, n);
            && (best.None? <==> forall k :: 0 <= k < n ==> !Contends(eligible, input.revealed[k].0))
            && (best.None? <==> winners == [])
            && (best.Some? ==>
                  forall k :: 0 <= k < n && Contends(eligible, input.revealed[k].0) ==>
                    StrengthOf(strength, input, k) <= best.value)
            && (best.Some? ==>
                  forall s :: s in winners <==>
                    exists k :: 0 <= k < n && input.revealed[k].0 == s
                                && Contends(eligible, s) && StrengthOf(strength, input, k) == best.value)
  {
    if n > 0 {
      ScanSpec(strength, input, eligible, n - 1);
    }
  }

  /** `seat` showed one of the strongest contending hands. */
  ghost predicate HoldsBest(strength: Strength, input: ShowdownInput, eligible: Option<seq<SeatId>>, seat: SeatId)
  {
    exists k: nat :: IsBest(strength, input, eligible, k) && input.revealed[k].0 == seat
  }

  lemma {:induction false} ScanFindsBest(strength: Strength, input: ShowdownInput, eligible: Option<seq<SeatId>>,
                                         seat: SeatId)
    requires Scan(strength, input, eligible, |input.revealed|).1 != []
    ensures seat in Scan(strength, input, eligible, |input.revealed|).1 <==> HoldsBest(strength, input, eligible, seat)
  {
    var n := |input.revealed|;
    ScanSpec(strength, input, eligible, n);
    var (best, found) := Scan(strength, input, eligible, n);
    var top :| 0 <= top < n && input.revealed[top].0 == found[0] && Contends(eligible, found[0])
               && StrengthOf(strength, input, top) == best.value;
    if seat in found {
      var k :| 0 <= k < n && input.revealed[k].0 == seat
               && Contends(eligible, seat) && StrengthOf(strength, input, k) == best.value;
      assert IsBest(strength, input, eligible, k);
    }
    if HoldsBest(strength, input, eligible, seat) {
      var k: nat :| IsBest(strength, input, eligible, k) && input.revealed[k].0 == seat;
      assert StrengthOf(strength, input, k) == best.value;
    }
  }

  /** There is a winner if and only if the board has three cards and a contender showed a hand. The
      winners are exactly the seats of the strongest contending hands, in ascending order. */
  lemma {:induction false} WinnersAreBest(strength: Strength, input: ShowdownInput, eligible: Option<seq<SeatId>>)
    ensures Evaluate(strength, input, eligible).Some? <==>
              |input.board| >= 3 && exists k :: 0 <= k < |input.revealed| && Contends(eligible, input.revealed[k].0)
    ensures Evaluate(strength, input, eligible).Some? ==>
              var winners := Evaluate(strength, input, eligible).value;
              && winners != [] && Nondecreasing(winners)
              && forall s :: s in winners <==> HoldsBest(strength, input, eligible, s)
  {
    ScanSpec(strength, input, eligible, |input.revealed|);
    var found := Scan(strength, input, eligible, |input.revealed|).1;
    SortSeatsSpec(found);
    if found != [] {
      assert found[0] in SortSeats(found);
      forall s ensures s in SortSeats(found) <==> HoldsBest(strength, input, eligible, s) {
        ScanFindsBest(strength, input, eligible, s);
      }
    }
  }

  /** A seat that wins among more contenders also wins among fewer, as long as it is one of them. */
  lemma {:induction false} WinsNested(strength: Strength, input: ShowdownInput, more: seq<SeatId>,
                                      fewer: seq<SeatId>, seat: SeatId)
    requires Members(fewer) <= Members(more) && seat in fewer
    requires Evaluate(strength, input, Some(more)).Some? && seat in Evaluate(strength, input, Some(more)).value
    ensures Evaluate(strength, input, Some(fewer)).Some? && seat in Evaluate(strength, input, Some(fewer)).value
  {
    WinnersAreBest(strength, input, Some(more));
    WinnersAreBest(strength, input, Some(fewer));
    var k: nat :| IsBest(strength, input, Some(more), k) && input.revealed[k].0 == seat;
    assert forall s :: s in fewer ==> s in Members(fewer);
    assert IsBest(strength, input, Some(fewer), k);
  }

  /** Winners are contenders. */
  lemma {:induction false} WinnersContend(strength: Strength, input: ShowdownInput, eligible: seq<SeatId>)
    requires Evaluate(strength, input, Some(eligible)).Some?
    ensures Evaluate(strength, input, Some(eligible)).value != []
    ensures Members(Evaluate(strength, input, Some(eligible)).value) <= Members(eligible)
  {
    WinnersAreBest(strength, input, Some(eligible));
  }
}
