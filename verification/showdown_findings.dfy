/** Where settlement falls short of the pot, on a concrete hand. */
module ShowdownFindings {
  import opened Money
  import opened Seats
  import opened Pots
  import opened PotTheorems
  import opened EngineModel
  import opened EngineMoney
  import opened EngineAllIns
  import opened EngineFindings
  import opened EngineStuck
  import opened Apportion
  import opened Settlement
  import opened SettlementTheorems
  import opened ShowdownEval
  import opened ShowdownSettlement

  lemma {:induction false} UnequalLayers(v: View, input: ShowdownInput)
    requires v.hand.seated == {0, 1} && v.hand.folded == {} && Shown(v, input)
    requires v.pot.contributions == map[0 := STAKE, 1 := SHORT]
    ensures var m, layers := v.pot.contributions, Layers(v.pot.contributions, v.hand.folded);
            && layers != [] && Decidable(input, layers, |layers|)
            && Total(m) == STAKE + SHORT && Capped(m, RunnerUp(m)) == 2 * SHORT
  {
    var m := v.pot.contributions;
    TwoUnequal(m, 0, 1, v.hand.folded);
    var layers := Layers(m, v.hand.folded);
    assert {0, 1} - v.hand.folded == Unfolded(v);
    SortedSpec(Unfolded(v));
    assert forall s :: s in layers[0].eligibleSeats <==> s in Members(layers[0].eligibleSeats);
    assert Contested(input, layers[0]);
    assert layers[1..] == [] && SumLayers(layers) == 2 * SHORT;
    LayersSum(m, v.hand.folded);
  }

  /** A plan whose layers, squared, fit 128 bits pays them exactly. */
  lemma {:induction false} SmallPlanPays(strength: Strength, v: View, input: ShowdownInput, bps: U16, plan: Plan,
                                         total: nat)
    requires ChipsInv(v) && SettlementPlan(strength, v, input, bps) == Ok(plan)
    requires total == Capped(v.pot.contributions, RunnerUp(v.pot.contributions)) && total * total <= U128_MAX
    ensures SumAmounts(plan.payouts) + plan.rakeAmount == total
  {
    PlanPaysLayers(strength, v, input, bps, plan);
    AwardsForSpec(strength, v, input, 0);
    var pots := AwardsFor(strength, v, input).value;
    PlanShape(v.snapshot.roomId, v.snapshot.handId, pots, bps, plan);
    SmallPotsDoNotSaturate(pots, plan.rakeAmount);
  }

  /** A showdown of two in which one put in more than the other. */
  lemma {:induction false} UnequalPlan(strength: Strength, v: View, input: ShowdownInput) returns (plan: Plan)
    requires ChipsInv(v) && v.hand.seated == {0, 1} && v.hand.folded == {} && Shown(v, input)
    requires v.pot.contributions == map[0 := STAKE, 1 := SHORT]
    ensures SettlementPlan(strength, v, input, 0) == Ok(plan)
    ensures SumAmounts(plan.payouts) + plan.rakeAmount == 2 * SHORT < STAKE + SHORT == v.snapshot.potTotal
  {
    UnequalLayers(v, input);
    PlanBuiltExactly(strength, v, input, 0);
    plan := SettlementPlan(strength, v, input, 0).value;
    SmallPlanPays(strength, v, input, 0, plan, 2 * SHORT);
  }

  /** Dealt, played and shown: two unequal all-ins end in a plan that pays six big blinds of a pot of eight,
      whoever wins, and nobody is paid the other two. */
  lemma {:induction false} ExcessNotPaid(deck: seq<Card>, strength: Strength, input: ShowdownInput) returns (plan: Plan)
    requires CheckDeal(TableOfTwo(), deck).None?
    requires |input.board| >= 3 && |input.revealed| > 0 && input.revealed[0].0 in {0, 1}
    ensures var w := UnequalAllIns(Dealt(TableOfTwo(), deck, 1));
            && w.snapshot.status == Showdown && w.snapshot.potTotal == 8 * BIG_BLIND
            && SettlementPlan(strength, w, input, 0) == Ok(plan)
            && SumAmounts(plan.payouts) + plan.rakeAmount == 6 * BIG_BLIND
  {
    UnequalShowdown(deck);
    var w := UnequalAllIns(Dealt(TableOfTwo(), deck, 1));
    assert input.revealed[0].0 in Unfolded(w);
    plan := UnequalPlan(strength, w, input);
  }

  // ----- a pot that cannot be settled -----

  /** With two seats at the top, the runner-up is what they put in. */
  lemma {:induction false} TopTwoEqual(m: ChipMap, a: SeatId, b: SeatId, top: Chips)
    requires a != b && Get(m, a) == Get(m, b) == top && forall s: SeatId :: Get(m, s) <= top
    ensures RunnerUp(m) == top
  {
    var seat := TopTwoSpec(m, SEAT_LIMIT);
    assert Get(m, a) == top && Get(m, b) == top;
    if RunnerUp(m) > top {
      assert false;
    }
  }

  lemma {:induction false} StuckPlan(strength: Strength, v: View, input: ShowdownInput, bps: U16)
    requires ChipsInv(v) && SeatedOnly(v) && Unfolded(v) == {0, 3}
    requires v.pot.contributions == map[0 := STAKE, 1 := 2 * STAKE, 2 := 2 * STAKE, 3 := STAKE]
    ensures SettlementPlan(strength, v, input, bps) == Err(LayerNotEvaluated)
  {
    var m, layers := v.pot.contributions, Layers(v.pot.contributions, v.hand.folded);
    TopTwoEqual(m, 1, 2, 2 * STAKE);
    LayersExistIff(m, v.hand.folded);
    if Decidable(input, layers, |layers|) {
      DecidableMeansHeld(v, input, layers);
    }
    AwardsDecidable(strength, input, layers, |layers|);
  }

  /** Four seats, two of them all-in: the other two bet on and then fold. Whatever is shown, by whomever, no
      plan can be made, and the whole pot of thirty big blinds stays where it is. */
  lemma {:induction false} PotStuck(deck: seq<Card>, v: View, w: View, strength: Strength, input: ShowdownInput,
                                    bps: U16)
    requires CheckDeal(TableOfFour(), deck).None? && v == Dealt(TableOfFour(), deck, 1) && w == StuckHand(v)
    ensures w.snapshot.status == Showdown && w.snapshot.potTotal == 30 * BIG_BLIND
    ensures SettlementPlan(strength, w, input, bps) == Err(LayerNotEvaluated)
  {
    StuckAtShowdown(deck, v, w);
    StuckPlan(strength, w, input, bps);
    FourTotal(w.pot.contributions);
  }

  lemma {:induction false} FourTotal(m: ChipMap)
    requires m == map[0 := STAKE, 1 := 2 * STAKE, 2 := 2 * STAKE, 3 := STAKE]
    ensures Total(m) == 6 * STAKE
  {
    var none: ChipMap := map[];
    SumOfEmpty(SEAT_LIMIT);
    TotalUpdate(none, 0, STAKE);
    TotalUpdate(none[0 := STAKE], 1, 2 * STAKE);
    TotalUpdate(none[0 := STAKE][1 := 2 * STAKE], 2, 2 * STAKE);
    TotalUpdate(none[0 := STAKE][1 := 2 * STAKE][2 := 2 * STAKE], 3, STAKE);
    assert none[0 := STAKE][1 := 2 * STAKE][2 := 2 * STAKE][3 := STAKE] == m;
  }
}
