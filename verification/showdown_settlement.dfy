/** From a finished hand to its settlement plan: layers, winners and apportionment joined. */
module ShowdownSettlement {
  import opened Money
  import opened Seats
  import opened Pots
  import opened PotTheorems
  import opened EngineModel
  import opened EngineMoney
  import opened EngineTurns
  import opened EngineAllIns
  import opened Apportion
  import opened ApportionTheorems
  import opened Settlement
  import opened SettlementTheorems
  import opened ShowdownEval

  datatype PlanError = NoLayersDerived | LayerNotEvaluated | Unsettled(cause: SettlementError)

  /** The awards of the first `n` layers; `None` when a layer with chips has nobody to win it. */
  function AwardsTo(strength: Strength, input: ShowdownInput, layers: seq<PotLayer>, n: nat): (r: Option<seq<PotAward>>)
    requires n <= |layers|
  {
    if n == 0 then Some([])
    else
      match AwardsTo(strength, input, layers, n - 1)
      case None => None
      case Some(awards) =>
        var layer := layers[n - 1];
        if layer.amount == 0 then Some(awards)
        else
          match Evaluate(strength, input, Some(layer.eligibleSeats))
          case None => None
          case Some(winners) => Some(awards + [PotAward(layer.amount, layer.eligibleSeats, winners)])
  }

  function Awards(strength: Strength, input: ShowdownInput, layers: seq<PotLayer>): (r: Option<seq<PotAward>>)
  {
    AwardsTo(strength, input, layers, |layers|)
  }

  function SettlementPlan(strength: Strength, v: View, input: ShowdownInput, bps: U16): (r: Result<Plan, PlanError>)
  {
    var layers := Layers(v.pot.contributions, v.hand.folded);
    if layers == [] && v.snapshot.potTotal > 0 then Err(NoLayersDerived)
    else
      match Awards(strength, input, layers)
      case None => Err(LayerNotEvaluated)
      case Some(pots) =>
        match PlanFromAwards(v.snapshot.roomId, v.snapshot.handId, pots, bps)
        case Err(e) => Err(Unsettled(e))
        case Ok(plan) => Ok(plan)
  }

  lemma {:induction false} AwardsFailOn(strength: Strength, input: ShowdownInput, layers: seq<PotLayer>, n: nat)
    requires n <= |layers| && AwardsTo(strength, input, layers, n).None?
    ensures Awards(strength, input, layers).None?
    decreases |layers| - n
  {
    if n < |layers| {
      AwardsFailOn(strength, input, layers, n + 1);
    }
  }

  method BuildSettlementPlan(strength: Strength, v: View, input: ShowdownInput, bps: U16)
    returns (r: Result<Plan, PlanError>)
    ensures r == SettlementPlan(strength, v, input, bps)
  {
    var layers := BuildPotLayers(v.pot.contributions, v.hand.folded);
    if layers == [] && v.snapshot.potTotal > 0 {
      return Err(NoLayersDerived);
    }
    var pots: seq<PotAward> := [];
    var i := 0;
    while i < |layers|
      invariant 0 <= i <= |layers| && AwardsTo(strength, input, layers, i) == Some(pots)
    {
      var layer := layers[i];
      if layer.amount != 0 {
        var winners := EvaluateShowdown(strength, input, Some(layer.eligibleSeats));
        if winners.None? {
          AwardsFailOn(strength, input, layers, i + 1);
          return Err(LayerNotEvaluated);
        }
        pots := pots + [PotAward(layer.amount, layer.eligibleSeats, winners.value)];
      }
      i := i + 1;
    }
    var plan := BuildPlanFromPotAwards(v.snapshot.roomId, v.snapshot.handId, pots, bps);
    if plan.Err? {
      return Err(Unsettled(plan.error));
    }
    r := Ok(plan.value);
  }

  // ----- awards are the layers -----

  lemma {:induction false} OneLayerMore(layers: seq<PotLayer>, layer: PotLayer, seat: SeatId)
    ensures SumLayers(layers + [layer]) == SumLayers(layers) + layer.amount
    ensures WinnableBy(layers + [layer], seat)
         == WinnableBy(layers, seat) + if seat in layer.eligibleSeats then layer.amount else 0
  {
    if layers == [] {
      assert layers + [layer] == [layer] && [layer][1..] == [];
    } else {
      OneLayerMore(layers[1..], layer, seat);
      assert (layers + [layer])[1..] == layers[1..] + [layer];
    }
  }

  /** Somebody eligible for the layer showed a hand. */
  ghost predicate Contested(input: ShowdownInput, layer: PotLayer)
  {
    exists k :: 0 <= k < |input.revealed| && input.revealed[k].0 in layer.eligibleSeats
  }

  /** Every layer that holds chips can be decided. */
  ghost predicate Decidable(input: ShowdownInput, layers: seq<PotLayer>, n: nat)
  {
    forall i :: 0 <= i < n && i < |layers| && layers[i].amount > 0 ==> |input.board| >= 3 && Contested(input, layers[i])
  }

  lemma {:induction false} LayerEvaluated(strength: Strength, input: ShowdownInput, layer: PotLayer)
    ensures Evaluate(strength, input, Some(layer.eligibleSeats)).Some? <==>
              |input.board| >= 3 && Contested(input, layer)
    ensures Evaluate(strength, input, Some(layer.eligibleSeats)).Some? ==>
              && Evaluate(strength, input, Some(layer.eligibleSeats)).value != []
              && Members(Evaluate(strength, input, Some(layer.eligibleSeats)).value) <= Members(layer.eligibleSeats)
  {
    WinnersAreBest(strength, input, Some(layer.eligibleSeats));
    assert forall k :: 0 <= k < |input.revealed| ==>
             (Contends(Some(layer.eligibleSeats), input.revealed[k].0) <==> input.revealed[k].0 in layer.eligibleSeats);
    if Evaluate(strength, input, Some(layer.eligibleSeats)).Some? {
      WinnersContend(strength, input, layer.eligibleSeats);
    }
  }

  /** Awards exist if and only if every layer with chips can be decided. */
  lemma {:induction false} AwardsDecidable(strength: Strength, input: ShowdownInput, layers: seq<PotLayer>, n: nat)
    requires n <= |layers|
    ensures AwardsTo(strength, input, layers, n).Some? <==> Decidable(input, layers, n)
  {
    if n > 0 {
      AwardsDecidable(strength, input, layers, n - 1);
      LayerEvaluated(strength, input, layers[n - 1]);
      assert Decidable(input, layers, n) <==>
          Decidable(input, layers, n - 1)
          && (layers[n - 1].amount > 0 ==> |input.board| >= 3 && Contested(input, layers[n - 1]));
    }
  }

  /** Awards are valid, hold all the chips of the layers, and let a seat win only where it is eligible. */
  lemma {:induction false} AwardsCover(strength: Strength, input: ShowdownInput, layers: seq<PotLayer>, n: nat,
                                       seat: SeatId)
    requires n <= |layers| && AwardsTo(strength, input, layers, n).Some?
    ensures var pots := AwardsTo(strength, input, layers, n).value;
            && ValidAwards(pots)
            && AwardedTotal(pots) == SumLayers(layers[..n])
            && WonBy(pots, seat) <= WinnableBy(layers[..n], seat)
  {
    if n > 0 {
      AwardsCover(strength, input, layers, n - 1, seat);
      OneLayerMore(layers[..n - 1], layers[n - 1], seat);
      assert layers[..n] == layers[..n - 1] + [layers[n - 1]];
      if layers[n - 1].amount > 0 {
        LayerEvaluated(strength, input, layers[n - 1]);
        var winners := Evaluate(strength, input, Some(layers[n - 1].eligibleSeats)).value;
        OneAwardMore(AwardsTo(strength, input, layers, n - 1).value, layers[n - 1], winners, seat);
      }
    }
  }

  lemma {:induction false} OneAwardMore(pots: seq<PotAward>, layer: PotLayer, winners: seq<SeatId>, seat: SeatId)
    requires ValidAwards(pots) && layer.amount > 0 && winners != [] && Members(winners) <= Members(layer.eligibleSeats)
    ensures var more := pots + [PotAward(layer.amount, layer.eligibleSeats, winners)];
            && ValidAwards(more) && AwardedTotal(more) == AwardedTotal(pots) + layer.amount
            && WonBy(more, seat) <= WonBy(pots, seat) + if seat in layer.eligibleSeats then layer.amount else 0
  {
    var pot := PotAward(layer.amount, layer.eligibleSeats, winners);
    assert (pots + [pot])[..|pots|] == pots;
    if seat in winners {
      assert seat in Members(winners);
      assert seat in Members(layer.eligibleSeats);
    }
  }

  /** `pot` is `layer`, awarded to the best hands among those eligible for it, and to nobody else. */
  ghost predicate ToTheBest(strength: Strength, input: ShowdownInput, layer: PotLayer, pot: PotAward)
  {
    && pot.amount == layer.amount && pot.eligibleSeats == layer.eligibleSeats
    && pot.winnerSeats != []
    && forall s :: s in pot.winnerSeats <==> HoldsBest(strength, input, Some(layer.eligibleSeats), s)
  }

  lemma {:induction false} AwardsInOrder(strength: Strength, input: ShowdownInput, layers: seq<PotLayer>, n: nat)
    requires n <= |layers| && AwardsTo(strength, input, layers, n).Some?
    requires forall i :: 0 <= i < n ==> layers[i].amount > 0
    ensures var pots := AwardsTo(strength, input, layers, n).value;
            |pots| == n && forall i :: 0 <= i < n ==> ToTheBest(strength, input, layers[i], pots[i])
  {
    if n > 0 {
      AwardsInOrder(strength, input, layers, n - 1);
      WinnersAreBest(strength, input, Some(layers[n - 1].eligibleSeats));
      var pots := AwardsTo(strength, input, layers, n).value;
      assert ToTheBest(strength, input, layers[n - 1], pots[n - 1]);
    }
  }

  // ----- any state -----

  /** The awards a showdown makes of the pot layers of `v`. */
  function AwardsFor(strength: Strength, v: View, input: ShowdownInput): (r: Option<seq<PotAward>>)
  {
    Awards(strength, input, Layers(v.pot.contributions, v.hand.folded))
  }

  lemma {:induction false} AwardsForSpec(strength: Strength, v: View, input: ShowdownInput, seat: SeatId)
    requires ChipsInv(v)
    ensures AwardsFor(strength, v, input).Some? <==>
              Decidable(input, Layers(v.pot.contributions, v.hand.folded), |Layers(v.pot.contributions, v.hand.folded)|)
    ensures AwardsFor(strength, v, input).Some? ==>
              var pots := AwardsFor(strength, v, input).value;
              && ValidAwards(pots)
              && AwardedTotal(pots) == Capped(v.pot.contributions, RunnerUp(v.pot.contributions)) <= v.snapshot.potTotal
              && WonBy(pots, seat) <= Capped(v.pot.contributions, Get(v.pot.contributions, seat))
  {
    var m, layers := v.pot.contributions, Layers(v.pot.contributions, v.hand.folded);
    AwardsDecidable(strength, input, layers, |layers|);
    if AwardsFor(strength, v, input).Some? {
      AwardsCover(strength, input, layers, |layers|, seat);
    }
    assert layers[..|layers|] == layers;
    LayersSum(m, v.hand.folded);
    CappedMonotone(m, 0, RunnerUp(m), SEAT_LIMIT);
    WinnableAtMostMatched(m, v.hand.folded, seat);
  }

  /** The awards run through the layers in order, each to its best hands. */
  lemma {:induction false} AwardsByLayer(strength: Strength, v: View, input: ShowdownInput)
    requires ChipsInv(v) && AwardsFor(strength, v, input).Some?
    ensures var layers, pots := Layers(v.pot.contributions, v.hand.folded), AwardsFor(strength, v, input).value;
            |pots| == |layers| && forall i :: 0 <= i < |layers| ==> ToTheBest(strength, input, layers[i], pots[i])
  {
    var layers := Layers(v.pot.contributions, v.hand.folded);
    LayersHoldChips(v.pot.contributions, v.hand.folded, 0);
    AwardsInOrder(strength, input, layers, |layers|);
  }

  /** Whatever saturates, a seat that holds the best hand in no layer is paid nothing. */
  lemma {:induction false} PaidHoldsBest(strength: Strength, v: View, input: ShowdownInput, bps: U16, plan: Plan,
                                         p: Payout) returns (i: nat)
    requires ChipsInv(v) && SettlementPlan(strength, v, input, bps) == Ok(plan) && p in plan.payouts
    ensures var layers := Layers(v.pot.contributions, v.hand.folded);
            i < |layers| && HoldsBest(strength, input, Some(layers[i].eligibleSeats), p.seatId)
  {
    AwardsByLayer(strength, v, input);
    i := PaidWonSome(strength, v, input, bps, plan, p);
    assert ToTheBest(strength, input, Layers(v.pot.contributions, v.hand.folded)[i],
                     AwardsFor(strength, v, input).value[i]);
  }

  lemma {:induction false} PaidWonSome(strength: Strength, v: View, input: ShowdownInput, bps: U16, plan: Plan,
                                       p: Payout) returns (i: nat)
    requires SettlementPlan(strength, v, input, bps) == Ok(plan) && p in plan.payouts
    ensures AwardsFor(strength, v, input).Some? && i < |AwardsFor(strength, v, input).value|
    ensures p.seatId in AwardsFor(strength, v, input).value[i].winnerSeats
  {
    var pots := AwardsFor(strength, v, input).value;
    PlanPaysWinners(v.snapshot.roomId, v.snapshot.handId, pots, bps, plan, p);
    i := WonSome(pots, p.seatId);
  }

  /** Only `seat` holds the best hand, whatever the layer. */
  ghost predicate SoleBest(strength: Strength, input: ShowdownInput, layers: seq<PotLayer>, seat: SeatId)
  {
    forall i, s :: 0 <= i < |layers| && HoldsBest(strength, input, Some(layers[i].eligibleSeats), s) ==> s == seat
  }

  lemma {:induction false} OnePayout(ps: seq<Payout>, seat: SeatId)
    requires SeatsAscend(ps) && forall k :: 0 <= k < |ps| ==> ps[k].seatId == seat && ps[k].amount > 0
    ensures |ps| == if SumAmounts(ps) > 0 then 1 else 0
    ensures |ps| == 1 ==> ps[0].seatId == seat && ps[0].amount == SumAmounts(ps)
  {
    if ps != [] {
      var last := |ps| - 1;
      assert ps[0].seatId == ps[last].seatId;
      assert ps[..0] == [];
    }
  }

  lemma {:induction false} OnlySolePaid(strength: Strength, v: View, input: ShowdownInput, bps: U16, plan: Plan,
                                        seat: SeatId, k: nat)
    requires ChipsInv(v) && SettlementPlan(strength, v, input, bps) == Ok(plan) && k < |plan.payouts|
    requires SoleBest(strength, input, Layers(v.pot.contributions, v.hand.folded), seat)
    ensures plan.payouts[k].seatId == seat
  {
    var i := PaidHoldsBest(strength, v, input, bps, plan, plan.payouts[k]);
  }

  /** The one best hand is paid all of the layers but the rake, if the shares reach them. */
  lemma {:induction false} SoleBestTakesAll(strength: Strength, v: View, input: ShowdownInput, bps: U16, plan: Plan,
                                            seat: SeatId)
    requires ChipsInv(v) && SettlementPlan(strength, v, input, bps) == Ok(plan)
    requires SoleBest(strength, input, Layers(v.pot.contributions, v.hand.folded), seat)
    ensures AwardsFor(strength, v, input).Some?
    ensures SharesReach(AwardsFor(strength, v, input).value, plan.rakeAmount) ==>
              var net := Capped(v.pot.contributions, RunnerUp(v.pot.contributions)) - plan.rakeAmount;
              if net == 0 then plan.payouts == []
              else |plan.payouts| == 1 && plan.payouts[0].seatId == seat && plan.payouts[0].amount == net
  {
    PlanPaysLayers(strength, v, input, bps, plan);
    PlanListsPaid(v.snapshot.roomId, v.snapshot.handId, AwardsFor(strength, v, input).value, bps, plan);
    forall k | 0 <= k < |plan.payouts| ensures plan.payouts[k].seatId == seat {
      OnlySolePaid(strength, v, input, bps, plan, seat, k);
    }
    OnePayout(plan.payouts, seat);
  }

  /** A plan carries the hand's ids and rakes the layers as the policy says. */
  lemma {:induction false} LayersRaked(strength: Strength, v: View, input: ShowdownInput, bps: U16, plan: Plan)
    requires ChipsInv(v) && SettlementPlan(strength, v, input, bps) == Ok(plan)
    ensures plan.roomId == v.snapshot.roomId && plan.handId == v.snapshot.handId
    ensures var layered := Capped(v.pot.contributions, RunnerUp(v.pot.contributions));
            layered <= U128_MAX && if layered > 0 then Rakes(bps, layered, plan.rakeAmount) else plan.rakeAmount == 0
  {
    AwardsForSpec(strength, v, input, 0);
    PlanRakes(v.snapshot.roomId, v.snapshot.handId, AwardsFor(strength, v, input).value, bps, plan);
  }

  /** In any balanced state, all-ins included, a plan is built if and only if there is a layer unless
      the pot is empty, every layer with chips can be decided, and the rake policy is valid unless
      there is nothing to rake. An ineligible winner is never the reason for a failure. */
  lemma {:induction false} PlanBuiltExactly(strength: Strength, v: View, input: ShowdownInput, bps: U16)
    requires ChipsInv(v)
    ensures var layers := Layers(v.pot.contributions, v.hand.folded);
            SettlementPlan(strength, v, input, bps).Ok? <==>
              && (layers != [] || v.snapshot.potTotal == 0)
              && Decidable(input, layers, |layers|)
              && (Capped(v.pot.contributions, RunnerUp(v.pot.contributions)) == 0 || bps <= BPS)
    ensures SettlementPlan(strength, v, input, bps) != Err(Unsettled(InvalidPotAward))
  {
    AwardsForSpec(strength, v, input, 0);
    if AwardsFor(strength, v, input).Some? {
      PlanBuiltIff(v.snapshot.roomId, v.snapshot.handId, AwardsFor(strength, v, input).value, bps);
      AccumulateTotal(AwardsFor(strength, v, input).value);
    }
  }

  /** In any balanced state the error says what was wrong: chips without a layer, a layer that cannot be
      decided, or the rake policy, in that order. */
  lemma {:induction false} PlanFailsAs(strength: Strength, v: View, input: ShowdownInput, bps: U16)
    requires ChipsInv(v) && SettlementPlan(strength, v, input, bps).Err?
    ensures var layers := Layers(v.pot.contributions, v.hand.folded);
            var error := SettlementPlan(strength, v, input, bps).error;
            if layers == [] && v.snapshot.potTotal > 0 then error == NoLayersDerived
            else if !Decidable(input, layers, |layers|) then error == LayerNotEvaluated
            else error == Unsettled(InvalidRakePolicy)
  {
    AwardsForSpec(strength, v, input, 0);
    if SettlementPlan(strength, v, input, bps).error.Unsettled? {
      PlanFailsOnPolicy(v.snapshot.roomId, v.snapshot.handId, AwardsFor(strength, v, input).value, bps);
    }
  }

  /** Every unfolded hand is shown, and at least three board cards are given. */
  ghost predicate AllShown(v: View, input: ShowdownInput)
  {
    && |input.board| >= 3
    && forall s :: s in Unfolded(v) ==> exists k :: 0 <= k < |input.revealed| && input.revealed[k].0 == s
  }

  /** Some unfolded seat has put in at least the runner-up. */
  ghost predicate TopIsHeld(v: View)
  {
    exists s :: s in Unfolded(v) && Get(v.pot.contributions, s) >= RunnerUp(v.pot.contributions)
  }

  lemma {:induction false} DecidableMeansHeld(v: View, input: ShowdownInput, layers: seq<PotLayer>)
    requires SeatedOnly(v) && ChipsInv(v)
    requires layers == Layers(v.pot.contributions, v.hand.folded) != [] && Decidable(input, layers, |layers|)
    ensures TopIsHeld(v)
  {
    var m, top := v.pot.contributions, layers[|layers| - 1];
    LayersExistIff(m, v.hand.folded);
    TopLayer(m, v.hand.folded, 0);
    LayersHoldChips(m, v.hand.folded, 0);
    assert Contested(input, top);
    var k :| 0 <= k < |input.revealed| && input.revealed[k].0 in top.eligibleSeats;
    var s := input.revealed[k].0;
    assert s in Members(top.eligibleSeats);
    assert Get(m, s) >= RunnerUp(m) > 0;
  }

  lemma {:induction false} HeldMeansDecidable(v: View, input: ShowdownInput, layers: seq<PotLayer>, s: SeatId)
    requires AllShown(v, input) && s in Unfolded(v) && Get(v.pot.contributions, s) >= RunnerUp(v.pot.contributions)
    requires layers == Layers(v.pot.contributions, v.hand.folded)
    ensures Decidable(input, layers, |layers|)
  {
    var m := v.pot.contributions;
    if layers != [] {
      LayersExistIff(m, v.hand.folded);
      TopLayer(m, v.hand.folded, 0);
      var k :| 0 <= k < |input.revealed| && input.revealed[k].0 == s;
      forall i | 0 <= i < |layers| ensures Contested(input, layers[i]) {
        LayersNested(m, v.hand.folded, i, |layers| - 1);
        assert s in Members(layers[|layers| - 1].eligibleSeats);
        assert s in Members(layers[i].eligibleSeats);
      }
    }
  }

  /** In any state of any run, with every unfolded hand shown and a valid policy: a plan is built if and only
      if the pot is empty, or two seats have chips in it and some unfolded seat has put in at least the
      second largest contribution. Otherwise the whole pot is stuck. */
  lemma {:induction false} SettleableIff(
    roomId: nat, handId: nat, handNo: U64, events: seq<Event>, v: View, strength: Strength, input: ShowdownInput,
    bps: U16)
    requires v == Run(Opened(roomId, handId, handNo), events) && AllShown(v, input) && bps <= BPS
    ensures SettlementPlan(strength, v, input, bps).Ok? <==>
              v.snapshot.potTotal == 0 || (RunnerUp(v.pot.contributions) > 0 && TopIsHeld(v))
  {
    var m, layers := v.pot.contributions, Layers(v.pot.contributions, v.hand.folded);
    ChipsOverEveryRun(roomId, handId, handNo, events);
    SeatedOverEveryRun(roomId, handId, handNo, events);
    PlanBuiltExactly(strength, v, input, bps);
    LayersExistIff(m, v.hand.folded);
    if layers != [] {
      PotBehindLayers(v);
      if Decidable(input, layers, |layers|) {
        DecidableMeansHeld(v, input, layers);
      }
      if s :| s in Unfolded(v) && Get(m, s) >= RunnerUp(m) {
        HeldMeansDecidable(v, input, layers, s);
      }
    }
  }

  /** Layers hold chips of the pot. */
  lemma {:induction false} PotBehindLayers(v: View)
    requires ChipsInv(v) && RunnerUp(v.pot.contributions) > 0
    ensures v.snapshot.potTotal > 0
  {
    var seat := TopTwoSpec(v.pot.contributions, SEAT_LIMIT);
    GetAtMostSum(v.pot.contributions, seat, SEAT_LIMIT);
  }

  /** While no product saturates no seat is paid more than it could match from every contributor. */
  lemma {:induction false} PayoutAtMostMatched(strength: Strength, v: View, input: ShowdownInput, bps: U16,
                                               plan: Plan, p: Payout)
    requires ChipsInv(v) && SettlementPlan(strength, v, input, bps) == Ok(plan) && AwardsFor(strength, v, input).Some?
    requires NoSaturation(AwardsFor(strength, v, input).value, plan.rakeAmount) && p in plan.payouts
    ensures p.amount <= Capped(v.pot.contributions, Get(v.pot.contributions, p.seatId))
  {
    var pots := AwardsFor(strength, v, input).value;
    PlanShape(v.snapshot.roomId, v.snapshot.handId, pots, bps, plan);
    PayoutAtMostWon(pots, plan.rakeAmount, p);
    AwardsForSpec(strength, v, input, p.seatId);
  }

  /** A built plan pays, rake included, at most the layers, and exactly the layers if and only if the shares
      reach them, which they do unless a product saturates. */
  lemma {:induction false} PlanPaysLayers(strength: Strength, v: View, input: ShowdownInput, bps: U16, plan: Plan)
    requires ChipsInv(v) && SettlementPlan(strength, v, input, bps) == Ok(plan)
    ensures AwardsFor(strength, v, input).Some?
    ensures SumAmounts(plan.payouts) + plan.rakeAmount <= Capped(v.pot.contributions, RunnerUp(v.pot.contributions))
    ensures var layered := Capped(v.pot.contributions, RunnerUp(v.pot.contributions));
            SumAmounts(plan.payouts) + plan.rakeAmount == layered <==>
              SharesReach(AwardsFor(strength, v, input).value, plan.rakeAmount)
    ensures NoSaturation(AwardsFor(strength, v, input).value, plan.rakeAmount) ==>
              SharesReach(AwardsFor(strength, v, input).value, plan.rakeAmount)
  {
    var pots := AwardsFor(strength, v, input).value;
    AwardsForSpec(strength, v, input, 0);
    PlanConserves(v.snapshot.roomId, v.snapshot.handId, pots, bps, plan);
  }

  /** In any balanced state, all-ins included: payouts and rake miss the pot by at least what the largest
      contribution exceeds the next by, and by no more if and only if the shares reach the layers. So they
      make up the pot if and only if the shares do and the two largest contributions are equal. */
  lemma {:induction false} PlanMissesExcess(strength: Strength, v: View, input: ShowdownInput, bps: U16, plan: Plan)
    requires ChipsInv(v) && SettlementPlan(strength, v, input, bps) == Ok(plan)
    ensures AwardsFor(strength, v, input).Some?
    ensures var paid := SumAmounts(plan.payouts) + plan.rakeAmount;
            var excess := Largest(v.pot.contributions) - RunnerUp(v.pot.contributions);
            var reach := SharesReach(AwardsFor(strength, v, input).value, plan.rakeAmount);
            && 0 <= excess && paid + excess <= v.snapshot.potTotal
            && (paid + excess == v.snapshot.potTotal <==> reach)
            && (paid == v.snapshot.potTotal <==> reach && excess == 0)
  {
    PlanPaysLayers(strength, v, input, bps, plan);
    LayersSum(v.pot.contributions, v.hand.folded);
    UncalledExcess(v.pot.contributions, v.hand.folded);
    var _ := TopTwoSpec(v.pot.contributions, SEAT_LIMIT);
  }

  // ----- after a hand without all-ins -----

  lemma {:induction false} TwoDistinct(s: set<SeatId>) returns (a: SeatId, b: SeatId)
    requires |s| >= 2
    ensures a in s && b in s && a != b
  {
    a :| a in s;
    assert |s - {a}| >= 1;
    b :| b in s - {a};
  }

  /** Equal stakes leave no excess: the layers hold the whole pot. */
  lemma {:induction false} SquaredLayersHoldPot(v: View, stake: nat)
    requires ChipsInv(v) && Squared(v, stake)
    ensures RunnerUp(v.pot.contributions) == Largest(v.pot.contributions) == stake
    ensures Capped(v.pot.contributions, RunnerUp(v.pot.contributions)) == v.snapshot.potTotal
    ensures SumLayers(Layers(v.pot.contributions, v.hand.folded)) == v.snapshot.potTotal
  {
    var m := v.pot.contributions;
    var a, b := TwoDistinct(Unfolded(v));
    var top := TopTwoSpec(m, SEAT_LIMIT);
    assert Get(m, a) == stake && Get(m, b) == stake;
    UncalledExcess(m, v.hand.folded);
    LayersSum(m, v.hand.folded);
  }

  /** Equal stakes make every layer a contest among all the seats left. */
  lemma {:induction false} SquaredEligible(v: View, stake: nat, level: nat)
    requires Squared(v, stake)
    ensures forall i :: 0 <= i < |LayersAbove(v.pot.contributions, v.hand.folded, level)| ==>
              LayersAbove(v.pot.contributions, v.hand.folded, level)[i].eligibleSeats == Sorted(Unfolded(v))
    decreases |Above(v.pot.contributions, level)|
  {
    var m := v.pot.contributions;
    if |Above(m, level)| > 1 {
      AboveShrinks(m, level);
      SquaredEligible(v, stake, NextLevel(m, level));
      var x := NextLevelSpec(m, level);
      assert level < stake;
      assert Above(m, level) - v.hand.folded == Unfolded(v);
    }
  }

  /** Some seat still in the hand showed its cards, and at least three board cards are given. */
  ghost predicate Shown(v: View, input: ShowdownInput)
  {
    |input.board| >= 3 && exists k :: 0 <= k < |input.revealed| && input.revealed[k].0 in Unfolded(v)
  }

  lemma {:induction false} SquaredHasLayers(v: View, stake: nat)
    requires Squared(v, stake)
    ensures Layers(v.pot.contributions, v.hand.folded) != []
  {
    var a, b := TwoDistinct(Unfolded(v));
    assert {a, b} <= Above(v.pot.contributions, 0);
    SubsetSize({a, b}, Above(v.pot.contributions, 0));
  }

  lemma {:induction false} SquaredDecidable(v: View, stake: nat, input: ShowdownInput)
    requires Squared(v, stake) && Shown(v, input)
    ensures var layers := Layers(v.pot.contributions, v.hand.folded); Decidable(input, layers, |layers|)
  {
    SquaredEligible(v, stake, 0);
    SortedSpec(Unfolded(v));
    var k :| 0 <= k < |input.revealed| && input.revealed[k].0 in Unfolded(v);
    assert input.revealed[k].0 in Members(Sorted(Unfolded(v)));
  }

  /** Equal stakes settle in full: a plan is built, and payouts and rake are exactly the pot. */
  lemma {:induction false} SquaredSettles(strength: Strength, v: View, stake: nat, input: ShowdownInput, bps: U16)
    returns (plan: Plan)
    requires ChipsInv(v) && Squared(v, stake) && Shown(v, input) && bps <= BPS
    ensures SettlementPlan(strength, v, input, bps) == Ok(plan)
    ensures AwardsFor(strength, v, input).Some?
    ensures SumAmounts(plan.payouts) + plan.rakeAmount <= v.snapshot.potTotal
    ensures SumAmounts(plan.payouts) + plan.rakeAmount == v.snapshot.potTotal <==>
              SharesReach(AwardsFor(strength, v, input).value, plan.rakeAmount)
    ensures v.snapshot.potTotal * v.snapshot.potTotal <= U128_MAX ==>
              SharesReach(AwardsFor(strength, v, input).value, plan.rakeAmount)
  {
    SquaredHasLayers(v, stake);
    SquaredDecidable(v, stake, input);
    SquaredLayersHoldPot(v, stake);
    PlanBuiltExactly(strength, v, input, bps);
    plan := SettlementPlan(strength, v, input, bps).value;
    PlanPaysLayers(strength, v, input, bps, plan);
    var pots := AwardsFor(strength, v, input).value;
    AwardsForSpec(strength, v, input, 0);
    PlanShape(v.snapshot.roomId, v.snapshot.handId, pots, bps, plan);
    if v.snapshot.potTotal * v.snapshot.potTotal <= U128_MAX {
      SmallPotsDoNotSaturate(pots, plan.rakeAmount);
    }
  }

  /** With equal stakes only best hands are paid, one alone takes all but the rake, and the pot is raked. */
  lemma {:induction false} SquaredPaysBest(strength: Strength, v: View, stake: nat, input: ShowdownInput, bps: U16,
                                           plan: Plan)
    requires ChipsInv(v) && Squared(v, stake) && SettlementPlan(strength, v, input, bps) == Ok(plan)
    ensures PaysBest(strength, v, input, bps, plan)
  {
    var layers := Layers(v.pot.contributions, v.hand.folded);
    SquaredEligible(v, stake, 0);
    SquaredLayersHoldPot(v, stake);
    PotBehindLayers(v);
    LayersRaked(strength, v, input, bps, plan);
    PlanPaysLayers(strength, v, input, bps, plan);
    forall p | p in plan.payouts ensures HoldsBest(strength, input, Some(Sorted(Unfolded(v))), p.seatId) {
      var i := PaidHoldsBest(strength, v, input, bps, plan, p);
    }
    forall seat | AloneBest(strength, input, Sorted(Unfolded(v)), seat)
      ensures SharesReach(AwardsFor(strength, v, input).value, plan.rakeAmount) ==>
                SumAmounts(plan.payouts) == ShareOf(plan.payouts, seat) == v.snapshot.potTotal - plan.rakeAmount
    {
      SoleBestTakesAll(strength, v, input, bps, plan, seat);
    }
  }

  /** `seat` holds the best hand among `eligible`, and nobody else does. */
  ghost predicate AloneBest(strength: Strength, input: ShowdownInput, eligible: seq<SeatId>, seat: SeatId)
  {
    forall s :: HoldsBest(strength, input, Some(eligible), s) <==> s == seat
  }

  /** A plan for the hand of `v` that rakes the pot, pays only best hands among the seats left, and pays a
      single best hand everything but the rake if the shares reach the pot. */
  ghost predicate PaysBest(strength: Strength, v: View, input: ShowdownInput, bps: U16, plan: Plan)
  {
    var left, pot := Sorted(Unfolded(v)), v.snapshot.potTotal;
    && plan.roomId == v.snapshot.roomId && plan.handId == v.snapshot.handId
    && Rakes(bps, pot, plan.rakeAmount)
    && (forall p :: p in plan.payouts ==> HoldsBest(strength, input, Some(left), p.seatId))
    && AwardsFor(strength, v, input).Some?
    && (SharesReach(AwardsFor(strength, v, input).value, plan.rakeAmount) ==>
          forall seat :: AloneBest(strength, input, left, seat) ==>
            SumAmounts(plan.payouts) == ShareOf(plan.payouts, seat) == pot - plan.rakeAmount)
  }

  /** From the deal to the plan: as long as no all-in is accepted and nothing overflows, whatever is played
      or refused, a hand that comes to showdown has equal stakes, layers contested by everyone left that
      hold the whole pot, and a plan whose payouts and rake are exactly the pot if and only if the shares
      reach it, as they do for any pot whose square fits 128 bits. The rake is the policy's part of the pot,
      only best hands are paid, and a single best hand is paid everything else. */
  lemma {:induction false} WholeHandConserves(
    v: View, deck: seq<Card>, handId: nat, actions: seq<PlayerAction>, w: View,
    strength: Strength, input: ShowdownInput, bps: U16) returns (stake: nat, plan: Plan)
    requires CheckDeal(v, deck).None? && FairStart(v)
    requires NoneOverflow(Dealt(v, deck, handId), actions) && NoAllIn(Kept(Dealt(v, deck, handId), actions))
    requires w == Play(Dealt(v, deck, handId), actions) && w.snapshot.status == Showdown
    requires Shown(w, input) && bps <= BPS
    ensures Squared(w, stake)
    ensures forall i :: 0 <= i < |Layers(w.pot.contributions, w.hand.folded)| ==>
              Layers(w.pot.contributions, w.hand.folded)[i].eligibleSeats == Sorted(Unfolded(w))
    ensures SumLayers(Layers(w.pot.contributions, w.hand.folded)) == w.snapshot.potTotal
    ensures SettlementPlan(strength, w, input, bps) == Ok(plan)
    ensures SumAmounts(plan.payouts) + plan.rakeAmount <= w.snapshot.potTotal
    ensures AwardsFor(strength, w, input).Some?
    ensures SumAmounts(plan.payouts) + plan.rakeAmount == w.snapshot.potTotal <==>
              SharesReach(AwardsFor(strength, w, input).value, plan.rakeAmount)
    ensures w.snapshot.potTotal * w.snapshot.potTotal <= U128_MAX ==>
              SharesReach(AwardsFor(strength, w, input).value, plan.rakeAmount)
    ensures PaysBest(strength, w, input, bps, plan)
  {
    var j;
    stake, j := HandFromDeal(v, deck, handId, actions);
    SquaredEligible(w, stake, 0);
    SquaredLayersHoldPot(w, stake);
    plan := SquaredSettles(strength, w, stake, input, bps);
    SquaredPaysBest(strength, w, stake, input, bps, plan);
  }
}
