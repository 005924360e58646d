/** From pot awards to a settlement plan: rake off the gross, the rest apportioned. */
module Settlement {
  import opened Arith
  import opened Money
  import opened Seats
  import opened Apportion

  type U16 = n: nat | n <= 0xFFFF

  const BPS: nat := 10_000

  datatype PotAward = PotAward(amount: Chips, eligibleSeats: seq<SeatId>, winnerSeats: seq<SeatId>)

  datatype Plan = Plan(roomId: nat, handId: nat, rakeAmount: Chips, payouts: seq<Payout>)

  datatype SettlementError = InvalidPotAward | InvalidRakePolicy | MoneyFault(cause: MoneyError)

  // ----- rake -----

  function RakeAmount(bps: U16, pot: Chips): (r: Result<Chips, SettlementError>)
  {
    if bps > BPS then Err(InvalidRakePolicy)
    else
      DivMod(SaturatingMul(pot, bps), BPS);
      Ok(SaturatingMul(pot, bps) / BPS)
  }

  /** A valid policy takes the stated fraction rounded down, never more than the pot. Past 128 bits the
      product saturates, and the fraction is of what is left of it. */
  lemma {:induction false} RakeRoundsDown(bps: U16, pot: Chips)
    ensures RakeAmount(bps, pot).Ok? <==> bps <= BPS
    ensures RakeAmount(bps, pot).Ok? ==> RakeAmount(bps, pot).value <= pot
    ensures RakeAmount(bps, pot).Ok? ==>
              BPS * RakeAmount(bps, pot).value <= Min(pot * bps, U128_MAX) < BPS * (RakeAmount(bps, pot).value + 1)
  {
    if bps <= BPS {
      MulMonotone(bps, BPS, pot);
      DivMod(SaturatingMul(pot, bps), BPS);
    }
  }

  /** `rake` is `bps` parts in ten thousand of `pot`, rounded down, the product saturated at 128 bits. */
  predicate Rakes(bps: U16, pot: Chips, rake: Chips)
  {
    10_000 * rake <= Min(pot * bps, U128_MAX) < 10_000 * (rake + 1)
  }

  // ----- splitting one pot -----

  /** The shares of the first `i` winners: `base` each, and one more for the first `rem`. */
  function SplitTo(base: Chips, rem: nat, winners: seq<SeatId>, i: nat): (ps: seq<Payout>)
    requires i <= |winners| && (rem > 0 ==> base < U128_MAX)
  {
    if i == 0 then []
    else SplitTo(base, rem, winners, i - 1) + [Payout(winners[i - 1], base + (if i - 1 < rem then 1 else 0))]
  }

  /** Equal parts, the indivisible rest to the first winners. */
  function Split(amount: Chips, winners: seq<SeatId>): (ps: seq<Payout>)
  {
    if winners == [] then []
    else
      ShareFits(amount, |winners|);
      SplitTo(amount / |winners|, amount % |winners|, winners, |winners|)
  }

  lemma {:induction false} ShareFits(amount: Chips, count: nat)
    requires count > 0
    ensures 0 <= amount % count < count && 0 <= amount / count
    ensures amount / count + (if amount % count > 0 then 1 else 0) <= amount
    ensures count * (amount / count) + amount % count == amount
  {
    DivMod(amount, count);
    MulAtLeast(count, amount / count);
  }

  lemma {:induction false} SplitToSum(base: Chips, rem: nat, winners: seq<SeatId>, i: nat)
    requires i <= |winners| && (rem > 0 ==> base < U128_MAX)
    ensures SumAmounts(SplitTo(base, rem, winners, i)) == i * base + Min(i, rem)
    ensures |SplitTo(base, rem, winners, i)| == i
  {
    if i > 0 {
      SplitToSum(base, rem, winners, i - 1);
      var init := SplitTo(base, rem, winners, i - 1);
      assert SplitTo(base, rem, winners, i)[..|init|] == init;
      Distribute(i - 1, 1, base);
    }
  }

  /** The shares of a pot add up to the pot. */
  lemma {:induction false} SplitSum(amount: Chips, winners: seq<SeatId>)
    requires winners != []
    ensures SumAmounts(Split(amount, winners)) == amount
  {
    ShareFits(amount, |winners|);
    SplitToSum(amount / |winners|, amount % |winners|, winners, |winners|);
  }

  lemma {:induction false} SplitToAt(base: Chips, rem: nat, winners: seq<SeatId>, i: nat, k: nat)
    requires k < i <= |winners| && (rem > 0 ==> base < U128_MAX)
    ensures |SplitTo(base, rem, winners, i)| == i
    ensures SplitTo(base, rem, winners, i)[k] == Payout(winners[k], base + (if k < rem then 1 else 0))
  {
    if k < i - 1 {
      SplitToAt(base, rem, winners, i - 1, k);
    } else if i > 1 {
      SplitToAt(base, rem, winners, i - 1, 0);
    }
  }

  /** Share `k` goes to winner `k`; shares differ by at most one chip and earlier winners get it. */
  lemma {:induction false} SplitAt(amount: Chips, winners: seq<SeatId>, k: nat)
    requires k < |winners|
    ensures |Split(amount, winners)| == |winners|
    ensures Split(amount, winners)[k].seatId == winners[k]
    ensures |winners| * Split(amount, winners)[k].amount < amount + |winners|
    ensures amount < |winners| * (Split(amount, winners)[k].amount + 1)
    ensures k > 0 ==> Split(amount, winners)[k].amount <= Split(amount, winners)[k - 1].amount
  {
    var n := |winners|;
    ShareFits(amount, n);
    var base, rem := amount / n, amount % n;
    SplitToAt(base, rem, winners, n, k);
    Distribute(base, 1, n);
    Distribute(base + 1, 1, n);
    if k > 0 {
      SplitToAt(base, rem, winners, n, k - 1);
    }
  }

  /** One pot to its winners, after rake. Without winners nothing is raked and nothing is paid. */
  function PlanFromWinners(roomId: nat, handId: nat, pot: Chips, winnerSeats: seq<SeatId>,
                           bps: U16): (r: Result<Plan, SettlementError>)
  {
    var winners := Sorted(Members(winnerSeats));
    if winners == [] then Ok(Plan(roomId, handId, 0, []))
    else
      match RakeAmount(bps, pot)
      case Err(e) => Err(e)
      case Ok(rake) =>
        match CheckedSub(pot, rake)
        case Err(e) => Err(MoneyFault(e))
        case Ok(net) => Ok(Plan(roomId, handId, rake, Split(net, winners)))
  }

  /** A plan carries its own ids, rakes as the policy says, and pays only winners. */
  lemma {:induction false} WinnersPlanRakes(roomId: nat, handId: nat, pot: Chips, winnerSeats: seq<SeatId>, bps: U16,
                                            plan: Plan)
    requires PlanFromWinners(roomId, handId, pot, winnerSeats, bps) == Ok(plan)
    ensures plan.roomId == roomId && plan.handId == handId
    ensures winnerSeats != [] ==> Rakes(bps, pot, plan.rakeAmount)
    ensures winnerSeats == [] ==> plan.rakeAmount == 0 && plan.payouts == []
    ensures forall p :: p in plan.payouts ==> p.seatId in winnerSeats
  {
    var winners := Sorted(Members(winnerSeats));
    SortedSpec(Members(winnerSeats));
    if winnerSeats != [] {
      assert winnerSeats[0] in Members(winnerSeats);
      RakeRoundsDown(bps, pot);
      forall p | p in plan.payouts ensures p.seatId in winnerSeats {
        var k :| 0 <= k < |plan.payouts| && plan.payouts[k] == p;
        SplitAt(pot - plan.rakeAmount, winners, 0);
        SplitAt(pot - plan.rakeAmount, winners, k);
        assert winners[k] in Members(winners);
      }
    } else {
      assert Members(winnerSeats) == {};
    }
  }

  /** Only a bad rake policy stops the plan, and only if there are winners. A plan accounts for the whole
      pot if and only if there are winners or the pot is empty. */
  lemma {:induction false} WinnersPlanConserves(roomId: nat, handId: nat, pot: Chips, winnerSeats: seq<SeatId>,
                                                bps: U16)
    ensures var r := PlanFromWinners(roomId, handId, pot, winnerSeats, bps);
            && (r.Ok? <==> winnerSeats == [] || bps <= BPS)
            && (r.Ok? ==> (SumAmounts(r.value.payouts) + r.value.rakeAmount == pot <==> winnerSeats != [] || pot == 0))
  {
    var winners := Sorted(Members(winnerSeats));
    SortedSpec(Members(winnerSeats));
    if winnerSeats != [] {
      assert winnerSeats[0] in Members(winnerSeats);
      assert winners != [];
      RakeRoundsDown(bps, pot);
      if bps <= BPS {
        SplitSum(pot - RakeAmount(bps, pot).value, winners);
      }
    } else {
      assert Members(winnerSeats) == {};
    }
  }

  /** A pot of a hundred chips without winners: nothing is paid and nothing is raked. */
  lemma {:induction false} PotWithoutWinners()
    ensures PlanFromWinners(0, 0, 100, [], 300) == Ok(Plan(0, 0, 0, []))
  {
    SortedSpec(Members([]));
    assert Members([]) == {};
  }

  // ----- gross awards -----

  /** Adds the shares of one pot to the gross awards. */
  function Credit(gross: ChipMap, shares: seq<Payout>): (r: Result<ChipMap, SettlementError>)
  {
    if shares == [] then Ok(gross)
    else
      match Credit(gross, shares[..|shares| - 1])
      case Err(e) => Err(e)
      case Ok(g) =>
        var p := shares[|shares| - 1];
        if Get(g, p.seatId) + p.amount > U128_MAX then Err(MoneyFault(Overflow))
        else Ok(g[p.seatId := Get(g, p.seatId) + p.amount])
  }

  function Winners(pot: PotAward): (s: set<SeatId>)
  {
    Members(pot.winnerSeats)
  }

  /** A pot with chips in it and somebody to win them. */
  predicate Awarded(pot: PotAward)
  {
    pot.amount > 0 && pot.winnerSeats != []
  }

  predicate ValidAward(pot: PotAward)
  {
    Awarded(pot) ==> Winners(pot) <= Members(pot.eligibleSeats)
  }

  function AwardPot(gross: ChipMap, pot: PotAward): (r: Result<ChipMap, SettlementError>)
  {
    if !Awarded(pot) then Ok(gross)
    else if !ValidAward(pot) then Err(InvalidPotAward)
    else Credit(gross, Split(pot.amount, Sorted(Winners(pot))))
  }

  function Accumulate(pots: seq<PotAward>): (r: Result<ChipMap, SettlementError>)
  {
    if pots == [] then Ok(map[])
    else
      match Accumulate(pots[..|pots| - 1])
      case Err(e) => Err(e)
      case Ok(g) => AwardPot(g, pots[|pots| - 1])
  }

  /** The gross awards in seat order. */
  function ListBelow(m: ChipMap, n: nat): (ps: seq<Payout>)
    requires n <= SEAT_LIMIT
  {
    if n == 0 then [] else ListBelow(m, n - 1) + (if n - 1 in m then [Payout(n - 1, m[n - 1])] else [])
  }

  function GrossList(m: ChipMap): (ps: seq<Payout>)
  {
    ListBelow(m, SEAT_LIMIT)
  }

  lemma {:induction false} ListBelowSum(m: ChipMap, n: nat)
    requires n <= SEAT_LIMIT
    ensures SumAmounts(ListBelow(m, n)) == SumBelow(m, n)
  {
    if n > 0 {
      ListBelowSum(m, n - 1);
      var init := ListBelow(m, n - 1);
      if n - 1 in m {
        assert ListBelow(m, n)[..|init|] == init;
      } else {
        assert ListBelow(m, n) == init;
      }
    }
  }

  lemma {:induction false} ListBelowEntries(m: ChipMap, n: nat)
    requires n <= SEAT_LIMIT
    ensures SeatsAscend(ListBelow(m, n))
    ensures forall p :: p in ListBelow(m, n) ==> p.seatId < n && p.seatId in m && m[p.seatId] == p.amount
  {
    if n > 0 {
      ListBelowEntries(m, n - 1);
      var init := ListBelow(m, n - 1);
      assert forall i :: 0 <= i < |init| ==> init[i] in init;
    }
  }

  /** The list carries the map's total, in ascending seat order. */
  lemma {:induction false} GrossListSpec(m: ChipMap)
    ensures SumAmounts(GrossList(m)) == Total(m)
    ensures SeatsAscend(GrossList(m))
    ensures forall i :: 0 <= i < |GrossList(m)| ==> GrossList(m)[i].amount == Get(m, GrossList(m)[i].seatId)
  {
    ListBelowSum(m, SEAT_LIMIT);
    ListBelowEntries(m, SEAT_LIMIT);
    forall i | 0 <= i < |GrossList(m)| ensures GrossList(m)[i].amount == Get(m, GrossList(m)[i].seatId) {
      assert GrossList(m)[i] in GrossList(m);
    }
  }

  // ----- the plan -----

  function PlanFromGross(roomId: nat, handId: nat, gross: ChipMap, bps: U16): (r: Result<Plan, SettlementError>)
  {
    GrossListSpec(gross);
    var total := Total(gross);
    if total > U128_MAX then Err(MoneyFault(Overflow))
    else if total == 0 then Ok(Plan(roomId, handId, 0, []))
    else
      match RakeAmount(bps, total)
      case Err(e) => Err(e)
      case Ok(rake) =>
        if rake > total then Err(MoneyFault(Underflow))
        else Ok(Plan(roomId, handId, rake, ApportionByWeight(GrossList(gross), total - rake)))
  }

  function PlanFromAwards(roomId: nat, handId: nat, pots: seq<PotAward>, bps: U16): (r: Result<Plan, SettlementError>)
  {
    match Accumulate(pots)
    case Err(e) => Err(e)
    case Ok(gross) => PlanFromGross(roomId, handId, gross, bps)
  }
}
