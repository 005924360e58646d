/** The plan loop, and what a plan conserves. */
module SettlementTheorems {
  import opened Arith
  import opened Money
  import opened Seats
  import opened Apportion
  import opened ApportionTheorems
  import opened Settlement

  // ----- the loops -----

  lemma {:induction false} CreditFailsOn(gross: ChipMap, shares: seq<Payout>, i: nat)
    requires i <= |shares| && Credit(gross, shares[..i]).Err?
    ensures Credit(gross, shares) == Credit(gross, shares[..i])
    decreases |shares| - i
  {
    if i == |shares| {
      assert shares[..i] == shares;
    } else {
      assert shares[..i + 1][..i] == shares[..i];
      CreditFailsOn(gross, shares, i + 1);
    }
  }

  method CreditShares(before: ChipMap, shares: seq<Payout>) returns (r: Result<ChipMap, SettlementError>)
    ensures r == Credit(before, shares)
  {
    var gross := before;
    var i := 0;
    while i < |shares|
      invariant 0 <= i <= |shares| && Credit(before, shares[..i]) == Ok(gross)
    {
      assert shares[..i + 1][..i] == shares[..i];
      var next := CheckedAdd(Get(gross, shares[i].seatId), shares[i].amount);
      if next.Err? {
        CreditFailsOn(before, shares, i + 1);
        return Err(MoneyFault(next.error));
      }
      gross := gross[shares[i].seatId := next.value];
      i := i + 1;
    }
    assert shares[..i] == shares;
    r := Ok(gross);
  }

  lemma {:induction false} AccumulateFailsOn(pots: seq<PotAward>, i: nat)
    requires i <= |pots| && Accumulate(pots[..i]).Err?
    ensures Accumulate(pots) == Accumulate(pots[..i])
    decreases |pots| - i
  {
    if i == |pots| {
      assert pots[..i] == pots;
    } else {
      assert pots[..i + 1][..i] == pots[..i];
      AccumulateFailsOn(pots, i + 1);
    }
  }

  method AccumulateAwards(pots: seq<PotAward>) returns (r: Result<ChipMap, SettlementError>)
    ensures r == Accumulate(pots)
  {
    var gross: ChipMap := map[];
    var i := 0;
    while i < |pots|
      invariant 0 <= i <= |pots| && Accumulate(pots[..i]) == Ok(gross)
    {
      assert pots[..i + 1][..i] == pots[..i];
      var pot := pots[i];
      var winners := Sorted(Winners(pot));
      WinnersSorted(pot);
      if pot.amount != 0 && winners != [] {
        if !(Winners(pot) <= Members(pot.eligibleSeats)) {
          AccumulateFailsOn(pots, i + 1);
          return Err(InvalidPotAward);
        }
        var credited := CreditShares(gross, Split(pot.amount, winners));
        if credited.Err? {
          AccumulateFailsOn(pots, i + 1);
          return credited;
        }
        gross := credited.value;
      }
      i := i + 1;
    }
    assert pots[..i] == pots;
    r := Ok(gross);
  }

  lemma {:induction false} WinnersSorted(pot: PotAward)
    ensures Sorted(Winners(pot)) == [] <==> pot.winnerSeats == []
  {
    SortedSpec(Winners(pot));
    if pot.winnerSeats != [] {
      assert pot.winnerSeats[0] in Winners(pot);
    }
  }

  /** The checked sum of the gross awards. */
  method CheckedTotal(ps: seq<Payout>) returns (r: Result<Chips, MoneyError>)
    ensures r == if SumAmounts(ps) <= U128_MAX then Ok(SumAmounts(ps)) else Err(Overflow)
  {
    var total: Chips := 0;
    var i := 0;
    while i < |ps|
      invariant 0 <= i <= |ps| && total == SumAmounts(ps[..i])
    {
      assert ps[..i + 1][..i] == ps[..i];
      PrefixSum(ps, i + 1);
      var next := CheckedAdd(total, ps[i].amount);
      if next.Err? {
        return next;
      }
      total := next.value;
      i := i + 1;
    }
    assert ps[..i] == ps;
    r := Ok(total);
  }

  method BuildPlanFromGross(roomId: nat, handId: nat, gross: ChipMap, bps: U16)
    returns (r: Result<Plan, SettlementError>)
    ensures r == PlanFromGross(roomId, handId, gross, bps)
  {
    var payouts := GrossList(gross);
    GrossListSpec(gross);
    var total := CheckedTotal(payouts);
    if total.Err? {
      return Err(MoneyFault(total.error));
    }
    if total.value == 0 {
      return Ok(Plan(roomId, handId, 0, []));
    }
    var rake := RakeAmount(bps, total.value);
    if rake.Err? {
      return Err(rake.error);
    }
    var distributable := CheckedSub(total.value, rake.value);
    if distributable.Err? {
      return Err(MoneyFault(distributable.error));
    }
    var net := ComputeApportionment(payouts, distributable.value);
    assert distributable.value == Total(gross) - rake.value;
    r := Ok(Plan(roomId, handId, rake.value, net));
  }

  method BuildPlanFromPotAwards(roomId: nat, handId: nat, pots: seq<PotAward>, bps: U16)
    returns (r: Result<Plan, SettlementError>)
    ensures r == PlanFromAwards(roomId, handId, pots, bps)
  {
    var gross := AccumulateAwards(pots);
    if gross.Err? {
      return Err(gross.error);
    }
    r := BuildPlanFromGross(roomId, handId, gross.value, bps);
  }

  // ----- gross awards are the pots -----

  function AwardedTotal(pots: seq<PotAward>): (t: nat)
  {
    if pots == [] then 0
    else AwardedTotal(pots[..|pots| - 1]) + (if Awarded(pots[|pots| - 1]) then pots[|pots| - 1].amount else 0)
  }

  ghost predicate ValidAwards(pots: seq<PotAward>)
  {
    forall i :: 0 <= i < |pots| ==> ValidAward(pots[i])
  }

  lemma {:induction false} CreditTotal(gross: ChipMap, shares: seq<Payout>)
    ensures Credit(gross, shares).Ok? ==> Total(Credit(gross, shares).value) == Total(gross) + SumAmounts(shares)
    ensures Total(gross) + SumAmounts(shares) <= U128_MAX ==> Credit(gross, shares).Ok?
  {
    if shares != [] {
      var init, p := shares[..|shares| - 1], shares[|shares| - 1];
      CreditTotal(gross, init);
      if Credit(gross, init).Ok? {
        var g := Credit(gross, init).value;
        GetAtMostSum(g, p.seatId, SEAT_LIMIT);
        if Get(g, p.seatId) + p.amount <= U128_MAX {
          TotalUpdate(g, p.seatId, Get(g, p.seatId) + p.amount);
        }
      }
    }
  }

  lemma {:induction false} AwardPotTotal(gross: ChipMap, pot: PotAward)
    ensures AwardPot(gross, pot).Ok? ==>
              && ValidAward(pot)
              && Total(AwardPot(gross, pot).value) == Total(gross) + (if Awarded(pot) then pot.amount else 0)
    ensures ValidAward(pot) && Total(gross) + pot.amount <= U128_MAX ==> AwardPot(gross, pot).Ok?
  {
    if Awarded(pot) {
      WinnersSorted(pot);
      SplitSum(pot.amount, Sorted(Winners(pot)));
      CreditTotal(gross, Split(pot.amount, Sorted(Winners(pot))));
    }
  }

  /** The gross awards add up to the pots that were won, and accumulating them fails only for a
      winner who is not eligible or for want of 128 bits. */
  lemma {:induction false} AccumulateTotal(pots: seq<PotAward>)
    ensures Accumulate(pots).Ok? ==> ValidAwards(pots) && Total(Accumulate(pots).value) == AwardedTotal(pots)
    ensures ValidAwards(pots) && AwardedTotal(pots) <= U128_MAX ==> Accumulate(pots).Ok?
  {
    if pots == [] {
      SumOfEmpty(SEAT_LIMIT);
    } else {
      var init, pot := pots[..|pots| - 1], pots[|pots| - 1];
      AccumulateTotal(init);
      if Accumulate(init).Ok? {
        AwardPotTotal(Accumulate(init).value, pot);
      }
    }
  }

  /** A plan is built if and only if every winner is eligible, the awards fit 128 bits, and the rake
      policy is valid unless there is nothing to rake. */
  lemma {:induction false} PlanBuiltIff(roomId: nat, handId: nat, pots: seq<PotAward>, bps: U16)
    ensures PlanFromAwards(roomId, handId, pots, bps).Ok? <==>
              ValidAwards(pots) && AwardedTotal(pots) <= U128_MAX && (AwardedTotal(pots) == 0 || bps <= BPS)
  {
    AccumulateTotal(pots);
    if Accumulate(pots).Ok? && 0 < AwardedTotal(pots) <= U128_MAX {
      RakeRoundsDown(bps, AwardedTotal(pots));
    }
  }

  lemma {:induction false} PlanFailsOnPolicy(roomId: nat, handId: nat, pots: seq<PotAward>, bps: U16)
    requires ValidAwards(pots) && AwardedTotal(pots) <= U128_MAX && PlanFromAwards(roomId, handId, pots, bps).Err?
    ensures PlanFromAwards(roomId, handId, pots, bps) == Err(InvalidRakePolicy)
  {
    AccumulateTotal(pots);
    RakeRoundsDown(bps, AwardedTotal(pots));
  }

  /** The awards as the apportionment sees them, and what it is asked to hand out. */
  lemma {:induction false} PlanShape(roomId: nat, handId: nat, pots: seq<PotAward>, bps: U16, plan: Plan)
    requires PlanFromAwards(roomId, handId, pots, bps) == Ok(plan)
    ensures Accumulate(pots).Ok? && AwardedTotal(pots) <= U128_MAX && plan.rakeAmount <= AwardedTotal(pots)
    ensures var ps := GrossList(Accumulate(pots).value);
            && SeatsAscend(ps) && SumAmounts(ps) == AwardedTotal(pots)
            && plan.payouts == ApportionByWeight(ps, AwardedTotal(pots) - plan.rakeAmount)
    ensures AwardedTotal(pots) == 0 ==> plan.rakeAmount == 0
  {
    AccumulateTotal(pots);
    GrossListSpec(Accumulate(pots).value);
  }

  /** A plan carries its own ids and rakes what was won as the policy says. */
  lemma {:induction false} PlanRakes(roomId: nat, handId: nat, pots: seq<PotAward>, bps: U16, plan: Plan)
    requires PlanFromAwards(roomId, handId, pots, bps) == Ok(plan)
    ensures plan.roomId == roomId && plan.handId == handId && AwardedTotal(pots) <= U128_MAX
    ensures if AwardedTotal(pots) > 0 then Rakes(bps, AwardedTotal(pots), plan.rakeAmount) else plan.rakeAmount == 0
  {
    AccumulateTotal(pots);
    if 0 < AwardedTotal(pots) <= U128_MAX {
      RakeRoundsDown(bps, AwardedTotal(pots));
    }
  }

  /** No gross award times the distributable amount saturates. */
  ghost predicate NoSaturation(pots: seq<PotAward>, rake: Chips)
  {
    && Accumulate(pots).Ok?
    && rake <= AwardedTotal(pots) <= U128_MAX
    && ProductsFit(GrossList(Accumulate(pots).value), AwardedTotal(pots) - rake)
  }

  /** Awards whose total squared fits 128 bits never saturate. */
  lemma {:induction false} SmallPotsDoNotSaturate(pots: seq<PotAward>, rake: Chips)
    requires Accumulate(pots).Ok? && rake <= AwardedTotal(pots) <= U128_MAX
    requires AwardedTotal(pots) * AwardedTotal(pots) <= U128_MAX
    ensures NoSaturation(pots, rake)
  {
    var g, total := Accumulate(pots).value, AwardedTotal(pots);
    AccumulateTotal(pots);
    GrossListSpec(g);
    var ps := GrossList(g);
    forall i | 0 <= i < |ps| ensures ps[i].amount * (total - rake) <= U128_MAX {
      GetAtMostSum(g, ps[i].seatId, SEAT_LIMIT);
      MulMonotone(ps[i].amount, total, total - rake);
      MulMonotone(total - rake, total, total);
    }
  }

  /** The shares of the target, saturated and rounded down, come within one chip an award of it. */
  ghost predicate SharesCover(ps: seq<Payout>, target: Chips)
  {
    && SumAmounts(ps) <= U128_MAX
    && if SumAmounts(ps) == 0 then target == 0 else target <= WholeShares(ps, SumAmounts(ps), target) + |ps|
  }

  lemma {:induction false} ApportionedTotal(ps: seq<Payout>, target: Chips)
    requires SumAmounts(ps) <= U128_MAX && SeatsAscend(ps)
    ensures SumAmounts(ApportionByWeight(ps, target)) <= target
    ensures SumAmounts(ApportionByWeight(ps, target)) == target <==> SharesCover(ps, target)
    ensures SumAmounts(ps) > 0 && ProductsFit(ps, target) ==> SharesCover(ps, target)
  {
    if SumAmounts(ps) > 0 {
      PaysAtMostTarget(ps, target);
      if ProductsFit(ps, target) {
        PaysExactly(ps, target);
      }
    }
  }

  /** The shares of what was won less the rake reach it. */
  ghost predicate SharesReach(pots: seq<PotAward>, rake: Chips)
  {
    && Accumulate(pots).Ok? && rake <= AwardedTotal(pots) <= U128_MAX
    && SharesCover(GrossList(Accumulate(pots).value), AwardedTotal(pots) - rake)
  }

  lemma {:induction false} ReachIff(pots: seq<PotAward>, rake: Chips, payouts: seq<Payout>)
    requires Accumulate(pots).Ok? && rake <= AwardedTotal(pots) <= U128_MAX
    requires SeatsAscend(GrossList(Accumulate(pots).value))
    requires SumAmounts(GrossList(Accumulate(pots).value)) == AwardedTotal(pots)
    requires payouts == ApportionByWeight(GrossList(Accumulate(pots).value), AwardedTotal(pots) - rake)
    ensures SumAmounts(payouts) + rake <= AwardedTotal(pots)
    ensures SumAmounts(payouts) + rake == AwardedTotal(pots) <==> SharesReach(pots, rake)
    ensures NoSaturation(pots, rake) ==> SharesReach(pots, rake)
  {
    ApportionedTotal(GrossList(Accumulate(pots).value), AwardedTotal(pots) - rake);
  }

  /** A built plan never pays out more than what was won less the rake. It pays out exactly that if and only if
      the shares reach it, which they do while no product saturates. */
  lemma {:induction false} PlanConserves(roomId: nat, handId: nat, pots: seq<PotAward>, bps: U16, plan: Plan)
    requires PlanFromAwards(roomId, handId, pots, bps) == Ok(plan)
    ensures SumAmounts(plan.payouts) + plan.rakeAmount <= AwardedTotal(pots) <= U128_MAX
    ensures SumAmounts(plan.payouts) + plan.rakeAmount == AwardedTotal(pots) <==> SharesReach(pots, plan.rakeAmount)
    ensures NoSaturation(pots, plan.rakeAmount) ==> SharesReach(pots, plan.rakeAmount)
  {
    PlanShape(roomId, handId, pots, bps, plan);
    ReachIff(pots, plan.rakeAmount, plan.payouts);
  }

  lemma {:induction false} PayoutsPositive(ps: seq<Payout>, target: Chips)
    requires SumAmounts(ps) <= U128_MAX
    ensures SeatsAscend(ApportionByWeight(ps, target))
    ensures forall k :: 0 <= k < |ApportionByWeight(ps, target)| ==> ApportionByWeight(ps, target)[k].amount > 0
  {
    if SumAmounts(ps) > 0 {
      var paid := ApportionByWeight(ps, target);
      PayoutsListNets(ps, target);
      forall k | 0 <= k < |paid| ensures paid[k].amount > 0 {
        assert paid[k] in paid;
      }
    }
  }

  /** A plan lists every seat it pays once, in ascending order, with a positive amount. */
  lemma {:induction false} PlanListsPaid(roomId: nat, handId: nat, pots: seq<PotAward>, bps: U16, plan: Plan)
    requires PlanFromAwards(roomId, handId, pots, bps) == Ok(plan)
    ensures SeatsAscend(plan.payouts) && forall k :: 0 <= k < |plan.payouts| ==> plan.payouts[k].amount > 0
  {
    PlanShape(roomId, handId, pots, bps, plan);
    PayoutsPositive(GrossList(Accumulate(pots).value), AwardedTotal(pots) - plan.rakeAmount);
  }

  // ----- one seat's share -----

  /** The chips of all pots in which `seat` is a winner. */
  function WonBy(pots: seq<PotAward>, seat: SeatId): (t: nat)
  {
    if pots == [] then 0
    else WonBy(pots[..|pots| - 1], seat)
         + (if seat in pots[|pots| - 1].winnerSeats then pots[|pots| - 1].amount else 0)
  }

  function ShareOf(shares: seq<Payout>, seat: SeatId): (t: nat)
  {
    if shares == [] then 0
    else ShareOf(shares[..|shares| - 1], seat)
         + (if shares[|shares| - 1].seatId == seat then shares[|shares| - 1].amount else 0)
  }

  lemma {:induction false} ShareAtMostSum(shares: seq<Payout>, seat: SeatId)
    ensures ShareOf(shares, seat) <= SumAmounts(shares)
    ensures (forall i :: 0 <= i < |shares| ==> shares[i].seatId != seat) ==> ShareOf(shares, seat) == 0
  {
    if shares != [] {
      ShareAtMostSum(shares[..|shares| - 1], seat);
    }
  }

  lemma {:induction false} CreditShare(gross: ChipMap, shares: seq<Payout>, seat: SeatId)
    requires Credit(gross, shares).Ok?
    ensures Get(Credit(gross, shares).value, seat) == Get(gross, seat) + ShareOf(shares, seat)
  {
    if shares != [] {
      var init, p := shares[..|shares| - 1], shares[|shares| - 1];
      CreditShare(gross, init, seat);
      var g := Credit(gross, init).value;
      GetUpdate(g, p.seatId, Get(g, p.seatId) + p.amount);
    }
  }

  lemma {:induction false} AwardPotShare(gross: ChipMap, pot: PotAward, seat: SeatId)
    requires AwardPot(gross, pot).Ok?
    ensures Get(AwardPot(gross, pot).value, seat)
         <= Get(gross, seat) + (if seat in pot.winnerSeats then pot.amount else 0)
  {
    if Awarded(pot) {
      var winners := Sorted(Winners(pot));
      SortedSpec(Winners(pot));
      WinnersSorted(pot);
      var shares := Split(pot.amount, winners);
      CreditShare(gross, shares, seat);
      ShareAtMostSum(shares, seat);
      SplitSum(pot.amount, winners);
      SplitAt(pot.amount, winners, 0);
      if seat !in pot.winnerSeats {
        forall k | 0 <= k < |shares| ensures shares[k].seatId != seat {
          SplitAt(pot.amount, winners, k);
          assert winners[k] in Members(winners);
        }
      }
    }
  }

  /** A seat's gross award is at most the pots it won. */
  lemma {:induction false} GrossAtMostWon(pots: seq<PotAward>, seat: SeatId)
    requires Accumulate(pots).Ok?
    ensures Get(Accumulate(pots).value, seat) <= WonBy(pots, seat)
  {
    if pots != [] {
      var init, pot := pots[..|pots| - 1], pots[|pots| - 1];
      GrossAtMostWon(init, seat);
      AwardPotShare(Accumulate(init).value, pot, seat);
    }
  }

  // ----- equal parts -----

  /** The whole chips of `seat`'s equal part of every pot it won. */
  function WholeParts(pots: seq<PotAward>, seat: SeatId): (t: nat)
  {
    if pots == [] then 0
    else
      var pot := pots[|pots| - 1];
      WholeParts(pots[..|pots| - 1], seat)
      + if Awarded(pot) && seat in pot.winnerSeats then PartOf(pot) else 0
  }

  function PartOf(pot: PotAward): (t: nat)
    requires Awarded(pot)
  {
    WinnersSorted(pot);
    SortedSpec(Winners(pot));
    DivMod(pot.amount, |Winners(pot)|);
    pot.amount / |Winners(pot)|
  }

  /** How many pots `seat` won. */
  function PotsWon(pots: seq<PotAward>, seat: SeatId): (n: nat)
  {
    if pots == [] then 0
    else PotsWon(pots[..|pots| - 1], seat)
         + if Awarded(pots[|pots| - 1]) && seat in pots[|pots| - 1].winnerSeats then 1 else 0
  }

  lemma {:induction false} ShareOfOne(shares: seq<Payout>, k: nat)
    requires k < |shares| && forall i, j :: 0 <= i < j < |shares| ==> shares[i].seatId != shares[j].seatId
    ensures ShareOf(shares, shares[k].seatId) == shares[k].amount
  {
    var n := |shares| - 1;
    if k == n {
      ShareAtMostSum(shares[..n], shares[k].seatId);
    } else {
      ShareOfOne(shares[..n], k);
    }
  }

  lemma {:induction false} SplitShare(amount: Chips, winners: seq<SeatId>, seat: SeatId)
    requires Ascending(winners) && seat in winners
    ensures amount / |winners| <= ShareOf(Split(amount, winners), seat) <= amount / |winners| + 1
  {
    var n := |winners|;
    var k :| 0 <= k < n && winners[k] == seat;
    ShareFits(amount, n);
    forall i | 0 <= i < n
      ensures |Split(amount, winners)| == n && Split(amount, winners)[i].seatId == winners[i]
    {
      SplitAt(amount, winners, i);
    }
    ShareOfOne(Split(amount, winners), k);
    SplitToAt(amount / n, amount % n, winners, n, k);
  }

  lemma {:induction false} AwardPotPart(gross: ChipMap, pot: PotAward, seat: SeatId)
    requires AwardPot(gross, pot).Ok? && Awarded(pot) && seat in pot.winnerSeats
    ensures var before, after := Get(gross, seat), Get(AwardPot(gross, pot).value, seat);
            before + PartOf(pot) <= after <= before + PartOf(pot) + 1
  {
    var winners := Sorted(Winners(pot));
    SortedSpec(Winners(pot));
    assert seat in Members(pot.winnerSeats);
    assert seat in Members(winners);
    CreditShare(gross, Split(pot.amount, winners), seat);
    SplitShare(pot.amount, winners, seat);
  }

  lemma {:induction false} AwardPotOthers(gross: ChipMap, pot: PotAward, seat: SeatId)
    requires AwardPot(gross, pot).Ok? && Awarded(pot) && seat !in pot.winnerSeats
    ensures Get(AwardPot(gross, pot).value, seat) == Get(gross, seat)
    ensures seat in AwardPot(gross, pot).value <==> seat in gross
  {
    var winners := Sorted(Winners(pot));
    SortedSpec(Winners(pot));
    WinnersSorted(pot);
    var shares := Split(pot.amount, winners);
    CreditShare(gross, shares, seat);
    SplitAt(pot.amount, winners, 0);
    forall k | 0 <= k < |shares| ensures shares[k].seatId != seat {
      SplitAt(pot.amount, winners, k);
      assert winners[k] in Members(winners);
    }
    ShareAtMostSum(shares, seat);
    CreditKeys(gross, shares, seat);
  }

  lemma {:induction false} CreditKeys(gross: ChipMap, shares: seq<Payout>, seat: SeatId)
    requires Credit(gross, shares).Ok? && forall k :: 0 <= k < |shares| ==> shares[k].seatId != seat
    ensures seat in Credit(gross, shares).value <==> seat in gross
  {
    if shares != [] {
      CreditKeys(gross, shares[..|shares| - 1], seat);
    }
  }

  /** A seat's gross award is its equal part of every pot it won, to within a chip a pot. */
  lemma {:induction false} GrossIsParts(pots: seq<PotAward>, seat: SeatId)
    requires Accumulate(pots).Ok?
    ensures WholeParts(pots, seat) <= Get(Accumulate(pots).value, seat) <= WholeParts(pots, seat) + PotsWon(pots, seat)
    ensures seat in Accumulate(pots).value ==> PotsWon(pots, seat) > 0
  {
    if pots != [] {
      var init, pot := pots[..|pots| - 1], pots[|pots| - 1];
      GrossIsParts(init, seat);
      if Awarded(pot) {
        if seat in pot.winnerSeats {
          AwardPotPart(Accumulate(init).value, pot, seat);
        } else {
          AwardPotOthers(Accumulate(init).value, pot, seat);
        }
      }
    }
  }

  /** Whatever saturates, only winners of some pot are paid. */
  lemma {:induction false} PaidHasWon(pots: seq<PotAward>, rake: Chips, p: Payout)
    requires Accumulate(pots).Ok? && rake <= AwardedTotal(pots) <= U128_MAX
    requires SumAmounts(GrossList(Accumulate(pots).value)) <= U128_MAX
    requires p in ApportionByWeight(GrossList(Accumulate(pots).value), AwardedTotal(pots) - rake)
    ensures PotsWon(pots, p.seatId) > 0
  {
    var gross := Accumulate(pots).value;
    var ps, target := GrossList(gross), AwardedTotal(pots) - rake;
    GrossListSpec(gross);
    ListBelowEntries(gross, SEAT_LIMIT);
    PayoutsListNets(ps, target);
    var i := NetOnlyFor(ps, target, p.seatId);
    assert ps[i] in ps;
    GrossIsParts(pots, p.seatId);
  }

  lemma {:induction false} PlanPaysWinners(roomId: nat, handId: nat, pots: seq<PotAward>, bps: U16, plan: Plan,
                                           p: Payout)
    requires PlanFromAwards(roomId, handId, pots, bps) == Ok(plan) && p in plan.payouts
    ensures PotsWon(pots, p.seatId) > 0
  {
    PlanShape(roomId, handId, pots, bps, plan);
    PaidHasWon(pots, plan.rakeAmount, p);
  }

  lemma {:induction false} WonSome(pots: seq<PotAward>, seat: SeatId) returns (i: nat)
    requires PotsWon(pots, seat) > 0
    ensures i < |pots| && Awarded(pots[i]) && seat in pots[i].winnerSeats
  {
    var n := |pots| - 1;
    if Awarded(pots[n]) && seat in pots[n].winnerSeats {
      i := n;
    } else {
      i := WonSome(pots[..n], seat);
    }
  }

  /** A payout list names a seat at most once, with what the seat nets. */
  lemma {:induction false} PaidIsNet(ps: seq<Payout>, target: Chips, seat: SeatId)
    requires 0 < SumAmounts(ps) <= U128_MAX
    ensures ShareOf(ApportionByWeight(ps, target), seat) == Get(Net(ps, target), seat)
  {
    var paid, net := ApportionByWeight(ps, target), Get(Net(ps, target), seat);
    PayoutsListNets(ps, target);
    if net > 0 {
      assert Payout(seat, net) in paid;
      var k :| 0 <= k < |paid| && paid[k] == Payout(seat, net);
      ShareOfOne(paid, k);
    } else {
      forall k | 0 <= k < |paid| ensures paid[k].seatId != seat {
        assert paid[k] in paid;
      }
      ShareAtMostSum(paid, seat);
    }
  }

  /** `net` times `g` is within `g` of `exact`. */
  predicate WithinOne(g: nat, net: nat, exact: nat)
  {
    g * net <= exact + g && exact < g * net + g
  }

  lemma {:induction false} FloorWithinOne(g: nat, net: nat, floor: nat, exact: nat)
    requires g > 0 && floor == exact / g && floor <= net <= floor + 1
    ensures WithinOne(g, net, exact)
  {
    DivMod(exact, g);
    Distribute(floor, 1, g);
  }

  lemma {:induction false} NetNearShare(ps: seq<Payout>, target: Chips, i: nat)
    requires 0 < SumAmounts(ps) <= U128_MAX && SeatsAscend(ps) && ProductsFit(ps, target) && i < |ps|
    ensures WithinOne(SumAmounts(ps), Get(Net(ps, target), ps[i].seatId), ps[i].amount * target)
  {
    NetNearFloor(ps, target, i);
    FloorWithinOne(SumAmounts(ps), Get(Net(ps, target), ps[i].seatId), RowOf(ps[i], SumAmounts(ps), target).floor,
                   ps[i].amount * target);
  }

  lemma {:induction false} ListedAt(m: ChipMap, n: nat, seat: SeatId) returns (i: nat)
    requires n <= SEAT_LIMIT && seat in m && seat < n
    ensures i < |ListBelow(m, n)| && ListBelow(m, n)[i] == Payout(seat, m[seat])
  {
    if seat == n - 1 {
      i := |ListBelow(m, n - 1)|;
    } else {
      i := ListedAt(m, n - 1, seat);
    }
  }

  lemma {:induction false} NetByShare(gross: ChipMap, target: Chips, seat: SeatId)
    requires 0 < Total(gross) <= U128_MAX && ProductsFit(GrossList(gross), target)
    requires SumAmounts(GrossList(gross)) == Total(gross) && SeatsAscend(GrossList(gross))
    ensures WithinOne(Total(gross), Get(Net(GrossList(gross), target), seat), Get(gross, seat) * target)
    ensures seat !in gross ==> Get(Net(GrossList(gross), target), seat) == 0
  {
    var ps := GrossList(gross);
    if Get(Net(ps, target), seat) > 0 {
      NettedIsListed(gross, target, seat);
    }
    if seat in gross {
      var i := ListedAt(gross, SEAT_LIMIT, seat);
      NetNearShare(ps, target, i);
    }
  }

  lemma {:induction false} NettedIsListed(gross: ChipMap, target: Chips, seat: SeatId)
    requires 0 < SumAmounts(GrossList(gross)) <= U128_MAX && SeatsAscend(GrossList(gross))
    requires Get(Net(GrossList(gross), target), seat) > 0
    ensures seat in gross
  {
    var i := NetOnlyFor(GrossList(gross), target, seat);
    ListBelowEntries(gross, SEAT_LIMIT);
    assert GrossList(gross)[i] in GrossList(gross);
  }

  /** `paid` is, to within a chip, the share of what is not raked that the gross award of `seat` is of all that
      was won, and nothing if it won nothing. */
  ghost predicate NearShare(pots: seq<PotAward>, rake: Chips, seat: SeatId, paid: nat)
    requires NoSaturation(pots, rake)
  {
    && WithinOne(AwardedTotal(pots), paid, Get(Accumulate(pots).value, seat) * (AwardedTotal(pots) - rake))
    && (PotsWon(pots, seat) == 0 ==> paid == 0)
  }

  lemma {:induction false} NetNear(pots: seq<PotAward>, rake: Chips, seat: SeatId)
    requires NoSaturation(pots, rake) && AwardedTotal(pots) > 0
    requires SumAmounts(GrossList(Accumulate(pots).value)) == AwardedTotal(pots)
    ensures NearShare(pots, rake, seat, Get(Net(GrossList(Accumulate(pots).value), AwardedTotal(pots) - rake), seat))
  {
    AccumulateTotal(pots);
    GrossListSpec(Accumulate(pots).value);
    NetByShare(Accumulate(pots).value, AwardedTotal(pots) - rake, seat);
    GrossIsParts(pots, seat);
  }

  /** While no product saturates, a plan pays every seat its share. */
  lemma {:induction false} PaidByShare(roomId: nat, handId: nat, pots: seq<PotAward>, bps: U16, plan: Plan,
                                       seat: SeatId)
    requires NoSaturation(pots, plan.rakeAmount) && AwardedTotal(pots) > 0
    requires PlanFromAwards(roomId, handId, pots, bps) == Ok(plan)
    ensures NearShare(pots, plan.rakeAmount, seat, ShareOf(plan.payouts, seat))
  {
    PlanShape(roomId, handId, pots, bps, plan);
    PaidIsNet(GrossList(Accumulate(pots).value), AwardedTotal(pots) - plan.rakeAmount, seat);
    NetNear(pots, plan.rakeAmount, seat);
  }

  lemma {:induction false} NetOnlyFor(ps: seq<Payout>, target: Chips, seat: SeatId) returns (i: nat)
    requires 0 < SumAmounts(ps) <= U128_MAX && SeatsAscend(ps) && Get(Net(ps, target), seat) > 0
    ensures i < |ps| && ps[i].seatId == seat
  {
    var rows := RowsOf(ps, SumAmounts(ps), target);
    RowsDiffer(ps, SumAmounts(ps), target);
    SortDiffers(rows);
    SortKeeps(rows);
    var sorted, extra := SortRows(rows), Leftover(ps, target);
    var k := RowFor(Bump(sorted, extra), seat);
    assert ps != [];
    BumpAtSeat(sorted, extra, k);
    assert sorted[k] in rows;
    i :| 0 <= i < |rows| && rows[i] == sorted[k];
    RowsAt(ps, SumAmounts(ps), target, i);
  }

  lemma {:induction false} RowFor(rows: seq<Row>, seat: SeatId) returns (k: nat)
    requires Get(NetOf(rows), seat) > 0
    ensures k < |rows| && rows[k].seat == seat
  {
    var last := rows[|rows| - 1];
    if last.seat == seat {
      k := |rows| - 1;
    } else {
      k := RowFor(rows[..|rows| - 1], seat);
    }
  }

  lemma {:induction false} BumpAtSeat(rows: seq<Row>, extra: nat, k: nat)
    requires k < |Bump(rows, extra)|
    ensures k < |rows| && Bump(rows, extra)[k].seat == rows[k].seat
  {
    BumpLength(rows, extra);
    BumpAt(rows, extra, k);
  }

  lemma {:induction false} BumpLength(rows: seq<Row>, extra: nat)
    ensures |Bump(rows, extra)| == |rows|
  {
    if rows != [] {
      BumpLength(rows[..|rows| - 1], extra);
    }
  }

  /** A payout goes to a seat with a gross award of at least its amount. */
  lemma {:induction false} PayoutAtMostGross(ps: seq<Payout>, target: Chips, p: Payout) returns (i: nat)
    requires SumAmounts(ps) <= U128_MAX && SeatsAscend(ps) && ProductsFit(ps, target) && target <= SumAmounts(ps)
    requires p in ApportionByWeight(ps, target)
    ensures i < |ps| && ps[i].seatId == p.seatId && p.amount <= ps[i].amount
  {
    PayoutsListNets(ps, target);
    i := NetOnlyFor(ps, target, p.seatId);
    NetAtMostGross(ps, target, i);
  }

  lemma {:induction false} ListedAtMostWon(pots: seq<PotAward>, i: nat)
    requires Accumulate(pots).Ok? && i < |GrossList(Accumulate(pots).value)|
    ensures GrossList(Accumulate(pots).value)[i].amount <= WonBy(pots, GrossList(Accumulate(pots).value)[i].seatId)
  {
    var gross := Accumulate(pots).value;
    GrossListSpec(gross);
    GrossAtMostWon(pots, GrossList(gross)[i].seatId);
  }

  /** While no product saturates, every payout is at most the pots its seat won. */
  lemma {:induction false} PayoutAtMostWon(pots: seq<PotAward>, rake: Chips, p: Payout)
    requires NoSaturation(pots, rake)
    requires SumAmounts(GrossList(Accumulate(pots).value)) <= U128_MAX
    requires p in ApportionByWeight(GrossList(Accumulate(pots).value), AwardedTotal(pots) - rake)
    ensures p.amount <= WonBy(pots, p.seatId)
  {
    AccumulateTotal(pots);
    GrossListSpec(Accumulate(pots).value);
    var i := PayoutAtMostGross(GrossList(Accumulate(pots).value), AwardedTotal(pots) - rake, p);
    ListedAtMostWon(pots, i);
  }
}
