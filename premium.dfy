/** The premium calculation engine of backend/services/insuranceService.js: the base
    price, the riders and the discounts, combined into a quote, and the creation of an
    insurance record from a quote. The current year is a parameter. */
module Premium {
  import opened Wrappers
  import opened Models

  /** JavaScript's `Math.round`: the nearest integer, halves rounded up. */
  function Round(x: real): (r: int)
    ensures r as real <= x + 0.5 < r as real + 1.0
  {
    (x + 0.5).Floor
  }

  /** Rounding commutes with adding a whole number. */
  lemma RoundShift(n: int, x: real)
    ensures Round(n as real + x) == n + Round(x)
  {
    var a, b := Round(n as real + x), Round(x);
    assert (a - n) as real < b as real + 1.0;
    assert b as real < (a - n) as real + 1.0;
  }

  /** Rounding is monotone. */
  lemma RoundMonotone(x: real, y: real)
    requires x <= y
    ensures Round(x) <= Round(y)
  {
    var a, b := Round(x), Round(y);
    assert a as real < b as real + 1.0;
  }

  // ---------------------------------------------------------------------------------
  // Base price (calculateBasePrice)
  // ---------------------------------------------------------------------------------

  /** The multiplicative adjustments of the base price, in the order they are applied. */
  datatype Step = WeightStep | EngineVolumeStep | VehicleAgeStep | OwnershipStep | ExperienceStep | AccidentsStep

  /** The customer gets the experience adjustment: present, with non-zero experience. */
  predicate HasExperience(c: Option<Customer>) {
    c.Some? && TruthyInt(c.value.drivingExperience)
  }

  /** The customer gets the accidents adjustment: present, with a non-zero accident count. */
  predicate HasAccidents(c: Option<Customer>) {
    c.Some? && TruthyInt(c.value.accidentsCount)
  }

  /** `[s]` when the guard holds, nothing otherwise. */
  function StepIf(guard: bool, s: Step): (r: seq<Step>) {
    if guard then [s] else []
  }

  /** The adjustments that apply to this vehicle and customer, in order; the others are
      left out entirely (not applied with a factor of 1). */
  function AppliedSteps(v: Vehicle, c: Option<Customer>): (r: seq<Step>) {
    [WeightStep]
    + (StepIf(!v.isElectric && TruthyReal(v.engineVolume), EngineVolumeStep)
    + (StepIf(TruthyInt(v.year), VehicleAgeStep)
    + (StepIf(TruthyInt(v.ownersCount), OwnershipStep)
    + (StepIf(HasExperience(c), ExperienceStep)
    + StepIf(HasAccidents(c), AccidentsStep)))))
  }

  /** The position of an adjustment in the source's order. */
  function Rank(s: Step): (r: nat) {
    match s
    case WeightStep => 0
    case EngineVolumeStep => 1
    case VehicleAgeStep => 2
    case OwnershipStep => 3
    case ExperienceStep => 4
    case AccidentsStep => 5
  }

  function Max(a: real, b: real): (r: real) { if a >= b then a else b }

  /** The driving-experience factor: 2% less per year, never below 0.8. */
  function ExperienceFactor(experience: int): (f: real)
    ensures f >= 0.8
    ensures f >= 1.0 - experience as real * 0.02
    ensures f == 0.8 || f == 1.0 - experience as real * 0.02
    ensures experience >= 0 ==> f <= 1.0
    ensures experience >= 10 ==> f == 0.8
  {
    Max(0.8, 1.0 - experience as real * 0.02)
  }

  /** The factor one adjustment multiplies the running price by. */
  function Factor(s: Step, v: Vehicle, p: Pricing, c: Option<Customer>, currentYear: int): (f: real) {
    match s
    case WeightStep => (v.weight.GetOr(0.0) / 1000.0) * p.weightMultiplier
    case EngineVolumeStep => (v.engineVolume.GetOr(0.0) / 1500.0) * p.engineVolumeMultiplier
    case VehicleAgeStep => (1.0 + (currentYear - v.year.GetOr(0)) as real * 0.02) * p.vehicleAgeMultiplier
    case OwnershipStep => (1.0 + v.ownersCount.GetOr(0) as real * 0.05) * p.ownershipCountMultiplier
    case ExperienceStep => if c.Some? then ExperienceFactor(c.value.drivingExperience.GetOr(0)) else 1.0
    case AccidentsStep => if c.Some? then 1.0 + c.value.accidentsCount.GetOr(0) as real * 0.15 else 1.0
  }

  /** Real multiplication, named so that the running price is unfolded one step at a time. */
  function Times(a: real, b: real): (r: real) { a * b }

  /** The running price after multiplying `price` by the factors of `steps`, in order. */
  function Run(price: real, steps: seq<Step>, v: Vehicle, p: Pricing, c: Option<Customer>, currentYear: int): (r: real)
    decreases |steps|
  {
    if steps == [] then price
    else Run(Times(price, Factor(steps[0], v, p, c, currentYear)), steps[1..], v, p, c, currentYear)
  }

  /** The base price before rounding: the product's base price run through every applied step. */
  function RawBasePrice(v: Vehicle, p: Pricing, c: Option<Customer>, currentYear: int): (r: real) {
    Run(p.basePrice, AppliedSteps(v, c), v, p, c, currentYear)
  }

  function BasePrice(v: Vehicle, p: Pricing, c: Option<Customer>, currentYear: int): (r: int) {
    Round(RawBasePrice(v, p, c, currentYear))
  }

  /** One guarded step: the running price through `StepIf(guard, s) + rest` is the price,
      multiplied by the factor of `s` only when the guard holds, run through `rest`. */
  lemma Advance(price: real, guard: bool, s: Step, rest: seq<Step>, v: Vehicle, p: Pricing, c: Option<Customer>, y: int)
    ensures Run(price, StepIf(guard, s) + rest, v, p, c, y)
         == Run(if guard then Times(price, Factor(s, v, p, c, y)) else price, rest, v, p, c, y)
  {
    if guard {
      var all := [s] + rest;
      assert all != [] && all[0] == s && all[1..] == rest;
    } else {
      assert StepIf(guard, s) + rest == rest;
    }
  }

  /** Each factor, spelt out for a vehicle and customer whose fields are present. */
  lemma FactorsAsWritten(v: Vehicle, p: Pricing, c: Option<Customer>, y: int)
    ensures v.weight.Some? ==> Factor(WeightStep, v, p, c, y) == (v.weight.value / 1000.0) * p.weightMultiplier
    ensures v.engineVolume.Some? ==>
      Factor(EngineVolumeStep, v, p, c, y) == (v.engineVolume.value / 1500.0) * p.engineVolumeMultiplier
    ensures v.year.Some? ==>
      Factor(VehicleAgeStep, v, p, c, y) == (1.0 + (y - v.year.value) as real * 0.02) * p.vehicleAgeMultiplier
    ensures v.ownersCount.Some? ==>
      Factor(OwnershipStep, v, p, c, y) == (1.0 + v.ownersCount.value as real * 0.05) * p.ownershipCountMultiplier
    ensures c.Some? && c.value.drivingExperience.Some? ==>
      Factor(ExperienceStep, v, p, c, y) == Max(0.8, 1.0 - c.value.drivingExperience.value as real * 0.02)
    ensures c.Some? && c.value.accidentsCount.Some? ==>
      Factor(AccidentsStep, v, p, c, y) == 1.0 + c.value.accidentsCount.value as real * 0.15
  {
  }

  /** calculateBasePrice: the running price, multiplied step by step. The ghost suffixes
      `t1` … `t5` are the applied steps still to be taken after each stage. */
  method CalculateBasePrice(vehicle: Vehicle, product: Product, customerInfo: Option<Customer>, currentYear: int)
    returns (basePrice: int)
    requires vehicle.weight.Some?
    ensures basePrice == BasePrice(vehicle, product.pricing, customerInfo, currentYear)
  {
    var p := product.pricing;
    ghost var c, y := customerInfo, currentYear;
    ghost var raw := RawBasePrice(vehicle, p, c, y);
    ghost var t5 := StepIf(HasAccidents(c), AccidentsStep);
    ghost var t4 := StepIf(HasExperience(c), ExperienceStep) + t5;
    ghost var t3 := StepIf(TruthyInt(vehicle.ownersCount), OwnershipStep) + t4;
    ghost var t2 := StepIf(TruthyInt(vehicle.year), VehicleAgeStep) + t3;
    ghost var t1 := StepIf(!vehicle.isElectric && TruthyReal(vehicle.engineVolume), EngineVolumeStep) + t2;
    assert AppliedSteps(vehicle, c) == StepIf(true, WeightStep) + t1;

    FactorsAsWritten(vehicle, p, c, y);
    var price := p.basePrice;
    Advance(price, true, WeightStep, t1, vehicle, p, c, y);
    var factor := (vehicle.weight.value / 1000.0) * p.weightMultiplier;
    assert factor == Factor(WeightStep, vehicle, p, c, y);
    price := Times(price, factor);
    assert Run(price, t1, vehicle, p, c, y) == raw;

    var guard := !vehicle.isElectric && vehicle.engineVolume.Some? && vehicle.engineVolume.value != 0.0;
    Advance(price, guard, EngineVolumeStep, t2, vehicle, p, c, y);
    if guard {
      factor := (vehicle.engineVolume.value / 1500.0) * p.engineVolumeMultiplier;
      assert factor == Factor(EngineVolumeStep, vehicle, p, c, y);
      price := Times(price, factor);
    }
    assert Run(price, t2, vehicle, p, c, y) == raw;

    guard := vehicle.year.Some? && vehicle.year.value != 0;
    Advance(price, guard, VehicleAgeStep, t3, vehicle, p, c, y);
    if guard {
      var vehicleAge := currentYear - vehicle.year.value;
      factor := (1.0 + vehicleAge as real * 0.02) * p.vehicleAgeMultiplier;
      assert factor == Factor(VehicleAgeStep, vehicle, p, c, y);
      price := Times(price, factor);
    }
    assert Run(price, t3, vehicle, p, c, y) == raw;

    guard := vehicle.ownersCount.Some? && vehicle.ownersCount.value != 0;
    Advance(price, guard, OwnershipStep, t4, vehicle, p, c, y);
    if guard {
      factor := (1.0 + vehicle.ownersCount.value as real * 0.05) * p.ownershipCountMultiplier;
      assert factor == Factor(OwnershipStep, vehicle, p, c, y);
      price := Times(price, factor);
    }
    assert Run(price, t4, vehicle, p, c, y) == raw;

    guard := customerInfo.Some? && customerInfo.value.drivingExperience.Some? && customerInfo.value.drivingExperience.value != 0;
    Advance(price, guard, ExperienceStep, t5, vehicle, p, c, y);
    if guard {
      factor := Max(0.8, 1.0 - customerInfo.value.drivingExperience.value as real * 0.02);
      assert factor == Factor(ExperienceStep, vehicle, p, c, y);
      price := Times(price, factor);
    }
    assert Run(price, t5, vehicle, p, c, y) == raw;

    guard := customerInfo.Some? && customerInfo.value.accidentsCount.Some? && customerInfo.value.accidentsCount.value != 0;
    Advance(price, guard, AccidentsStep, [], vehicle, p, c, y);
    assert t5 + [] == t5;
    if guard {
      factor := 1.0 + customerInfo.value.accidentsCount.value as real * 0.15;
      assert factor == Factor(AccidentsStep, vehicle, p, c, y);
      price := Times(price, factor);
    }
    assert price == raw;

    basePrice := Round(price);
  }

  /** The weight adjustment is always applied, and first. */
  lemma WeightAlwaysApplied(v: Vehicle, p: Pricing, c: Option<Customer>, y: int)
    ensures |AppliedSteps(v, c)| >= 1 && AppliedSteps(v, c)[0] == WeightStep
    ensures Factor(WeightStep, v, p, c, y) == (v.weight.GetOr(0.0) / 1000.0) * p.weightMultiplier
  {
  }

  /** Which adjustments apply, each exactly on its guard. */
  lemma AppliedStepsGuards(v: Vehicle, c: Option<Customer>)
    ensures EngineVolumeStep in AppliedSteps(v, c) <==> !v.isElectric && TruthyReal(v.engineVolume)
    ensures VehicleAgeStep in AppliedSteps(v, c) <==> TruthyInt(v.year)
    ensures OwnershipStep in AppliedSteps(v, c) <==> TruthyInt(v.ownersCount)
    ensures ExperienceStep in AppliedSteps(v, c) <==> HasExperience(c)
    ensures AccidentsStep in AppliedSteps(v, c) <==> HasAccidents(c)
  {
    var e := StepIf(!v.isElectric && TruthyReal(v.engineVolume), EngineVolumeStep);
    var a := StepIf(TruthyInt(v.year), VehicleAgeStep);
    var o := StepIf(TruthyInt(v.ownersCount), OwnershipStep);
    var x := StepIf(HasExperience(c), ExperienceStep);
    var k := StepIf(HasAccidents(c), AccidentsStep);
    assert AppliedSteps(v, c) == [WeightStep] + (e + (a + (o + (x + k))));
    forall t | t in AppliedSteps(v, c)
      ensures t == WeightStep || t in e || t in a || t in o || t in x || t in k
    {
    }
  }

  /** The applied adjustments start with the weight and keep the source's order, each at
      most once. */
  lemma AppliedStepsOrdered(v: Vehicle, c: Option<Customer>)
    ensures var r := AppliedSteps(v, c);
            1 <= |r| <= 6 && r[0] == WeightStep && RankIncreasing(r)
  {
    OrderedByGuards(!v.isElectric && TruthyReal(v.engineVolume), TruthyInt(v.year),
                    TruthyInt(v.ownersCount), HasExperience(c), HasAccidents(c));
  }

  /** The ordering of the applied steps, for any outcome of the five guards. */
  lemma OrderedByGuards(g1: bool, g2: bool, g3: bool, g4: bool, g5: bool)
    ensures var r := [WeightStep] + (StepIf(g1, EngineVolumeStep) + (StepIf(g2, VehicleAgeStep)
                     + (StepIf(g3, OwnershipStep) + (StepIf(g4, ExperienceStep) + StepIf(g5, AccidentsStep)))));
            1 <= |r| <= 6 && r[0] == WeightStep && RankIncreasing(r)
  {
    var t5 := StepIf(g5, AccidentsStep);
    assert RankIncreasing(t5) && RanksAbove(t5, 5);
    var t4 := StepIf(g4, ExperienceStep) + t5;
    GuardedBefore(g4, ExperienceStep, t5);
    var t3 := StepIf(g3, OwnershipStep) + t4;
    GuardedBefore(g3, OwnershipStep, t4);
    var t2 := StepIf(g2, VehicleAgeStep) + t3;
    GuardedBefore(g2, VehicleAgeStep, t3);
    var t1 := StepIf(g1, EngineVolumeStep) + t2;
    GuardedBefore(g1, EngineVolumeStep, t2);
    GuardedBefore(true, WeightStep, t1);
    assert StepIf(true, WeightStep) == [WeightStep];
  }

  /** The ranks of `r` strictly increase. */
  predicate RankIncreasing(r: seq<Step>) {
    forall a, b :: 0 <= a < b < |r| ==> Rank(r[a]) < Rank(r[b])
  }

  /** Every step of `r` ranks at least `n`, and `r` has at most `6 - n` steps. */
  predicate RanksAbove(r: seq<Step>, n: nat) {
    |r| + n <= 6 && forall k :: 0 <= k < |r| ==> n <= Rank(r[k])
  }

  /** A guarded step put before steps ranked after it keeps the ranks increasing. */
  lemma GuardedBefore(guard: bool, s: Step, rest: seq<Step>)
    requires RankIncreasing(rest) && RanksAbove(rest, Rank(s) + 1)
    ensures RankIncreasing(StepIf(guard, s) + rest) && RanksAbove(StepIf(guard, s) + rest, Rank(s))
  {
    var t := StepIf(guard, s) + rest;
    if guard {
      assert forall k :: 1 <= k < |t| ==> t[k] == rest[k - 1];
    } else {
      assert t == rest;
    }
  }

  /** An older vehicle or more owners never lower the price below the multiplier, experience
      gives a discount of at most 20%, and accidents never lower the price. */
  lemma FactorBounds(v: Vehicle, p: Pricing, c: Option<Customer>, y: int)
    ensures v.year.GetOr(0) <= y && p.vehicleAgeMultiplier >= 0.0
            ==> Factor(VehicleAgeStep, v, p, c, y) >= p.vehicleAgeMultiplier
    ensures v.ownersCount.GetOr(0) >= 0 && p.ownershipCountMultiplier >= 0.0
            ==> Factor(OwnershipStep, v, p, c, y) >= p.ownershipCountMultiplier
    ensures 0.8 <= Factor(ExperienceStep, v, p, c, y)
    ensures (c.Some? ==> c.value.drivingExperience.GetOr(0) >= 0) ==> Factor(ExperienceStep, v, p, c, y) <= 1.0
    ensures (c.Some? ==> c.value.accidentsCount.GetOr(0) >= 0) ==> Factor(AccidentsStep, v, p, c, y) >= 1.0
  {
  }

  /** A missing customer gets neither customer adjustment. */
  lemma NoCustomerNoCustomerFactors(v: Vehicle)
    ensures ExperienceStep !in AppliedSteps(v, None)
    ensures AccidentsStep !in AppliedSteps(v, None)
  {
    AppliedStepsGuards(v, None);
  }

  /** Two factor assignments that agree on every step of `steps` run alike. */
  lemma {:induction false} RunAgree(price: real, steps: seq<Step>, v1: Vehicle, p1: Pricing, c1: Option<Customer>,
                                    v2: Vehicle, p2: Pricing, c2: Option<Customer>, y: int)
    requires forall s :: s in steps ==> Factor(s, v1, p1, c1, y) == Factor(s, v2, p2, c2, y)
    ensures Run(price, steps, v1, p1, c1, y) == Run(price, steps, v2, p2, c2, y)
    decreases |steps|
  {
    if steps != [] {
      assert steps[0] in steps;
      assert forall s :: s in steps[1..] ==> s in steps;
      RunAgree(Times(price, Factor(steps[0], v1, p1, c1, y)), steps[1..], v1, p1, c1, v2, p2, c2, y);
    }
  }

  /** When the engine-volume adjustment is skipped, the engine-volume multiplier has no
      effect at all: the step is omitted, not applied as a factor. */
  lemma SkippedEngineVolumeIgnoresMultiplier(v: Vehicle, p: Pricing, c: Option<Customer>, y: int, m: real)
    requires v.isElectric || !TruthyReal(v.engineVolume)
    ensures BasePrice(v, p.(engineVolumeMultiplier := m), c, y) == BasePrice(v, p, c, y)
  {
    AppliedStepsGuards(v, c);
    RunAgree(p.basePrice, AppliedSteps(v, c), v, p.(engineVolumeMultiplier := m), c, v, p, c, y);
  }

  /** An engine volume of 0 prices exactly like a missing one. */
  lemma ZeroEngineVolumeIsAbsent(v: Vehicle, p: Pricing, c: Option<Customer>, y: int)
    ensures BasePrice(v.(engineVolume := Some(0.0)), p, c, y) == BasePrice(v.(engineVolume := None), p, c, y)
  {
    var v0, vn := v.(engineVolume := Some(0.0)), v.(engineVolume := None);
    assert AppliedSteps(v0, c) == AppliedSteps(vn, c);
    AppliedStepsGuards(v0, c);
    RunAgree(p.basePrice, AppliedSteps(v0, c), v0, p, c, vn, p, c, y);
  }

  /** Inputs a well-formed product and vehicle satisfy: positive base price, multipliers
      and weight, no negative engine volume, counts or vehicle age. */
  predicate Plausible(v: Vehicle, p: Pricing, c: Option<Customer>, y: int) {
    && p.basePrice > 0.0 && p.weightMultiplier > 0.0 && p.engineVolumeMultiplier > 0.0
    && p.vehicleAgeMultiplier > 0.0 && p.ownershipCountMultiplier > 0.0
    && v.weight.Some? && v.weight.value > 0.0
    && (v.engineVolume.Some? ==> v.engineVolume.value >= 0.0)
    && (v.year.Some? ==> v.year.value <= y)
    && (v.ownersCount.Some? ==> v.ownersCount.value >= 0)
    && (c.Some? && c.value.accidentsCount.Some? ==> c.value.accidentsCount.value >= 0)
  }

  /** With plausible inputs every applied factor is positive, and raising the product's
      multipliers does not lower any of them. */
  lemma FactorMonotone(s: Step, v: Vehicle, p: Pricing, q: Pricing, c: Option<Customer>, y: int)
    requires Plausible(v, p, c, y) && PricingAtMost(p, q) && s in AppliedSteps(v, c)
    ensures 0.0 < Factor(s, v, p, c, y) <= Factor(s, v, q, c, y)
  {
    AppliedStepsGuards(v, c);
    match s
    case WeightStep =>
      var w := v.weight.value / 1000.0;
      assert w > 0.0;
      assert w * p.weightMultiplier <= w * q.weightMultiplier;
    case EngineVolumeStep =>
      var e := v.engineVolume.value / 1500.0;
      assert e > 0.0;
      assert e * p.engineVolumeMultiplier <= e * q.engineVolumeMultiplier;
    case VehicleAgeStep =>
      var a := 1.0 + (y - v.year.value) as real * 0.02;
      assert a > 0.0;
      assert a * p.vehicleAgeMultiplier <= a * q.vehicleAgeMultiplier;
    case OwnershipStep =>
      var o := 1.0 + v.ownersCount.value as real * 0.05;
      assert o > 0.0;
      assert o * p.ownershipCountMultiplier <= o * q.ownershipCountMultiplier;
    case ExperienceStep =>
    case AccidentsStep =>
  }

  /** Every multiplier of `p` is at most the one of `q`, and so is the base price. */
  predicate PricingAtMost(p: Pricing, q: Pricing) {
    && p.basePrice <= q.basePrice && p.weightMultiplier <= q.weightMultiplier
    && p.engineVolumeMultiplier <= q.engineVolumeMultiplier
    && p.vehicleAgeMultiplier <= q.vehicleAgeMultiplier
    && p.ownershipCountMultiplier <= q.ownershipCountMultiplier
  }

  /** A smaller positive start and smaller positive factors give a smaller positive result. */
  lemma {:induction false} RunMonotone(x: real, x': real, steps: seq<Step>, v: Vehicle, p: Pricing, q: Pricing,
                                       c: Option<Customer>, y: int)
    requires 0.0 < x <= x'
    requires Plausible(v, p, c, y) && PricingAtMost(p, q)
    requires forall s :: s in steps ==> s in AppliedSteps(v, c)
    ensures 0.0 < Run(x, steps, v, p, c, y) <= Run(x', steps, v, q, c, y)
    decreases |steps|
  {
    if steps != [] {
      var s := steps[0];
      assert s in steps;
      assert forall t :: t in steps[1..] ==> t in steps;
      FactorMonotone(s, v, p, q, c, y);
      var f, f' := Factor(s, v, p, c, y), Factor(s, v, q, c, y);
      assert 0.0 < x * f by {
        assert 0.0 < f;
      }
      assert x * f <= x' * f' by {
        assert (x' - x) * f >= 0.0;
        assert x' * (f' - f) >= 0.0;
      }
      RunMonotone(Times(x, f), Times(x', f'), steps[1..], v, p, q, c, y);
    }
  }

  /** With plausible inputs the running price stays positive, so the base price is never negative. */
  lemma PlausibleBasePricePositive(v: Vehicle, p: Pricing, c: Option<Customer>, y: int)
    requires Plausible(v, p, c, y)
    ensures RawBasePrice(v, p, c, y) > 0.0
    ensures BasePrice(v, p, c, y) >= 0
  {
    RunMonotone(p.basePrice, p.basePrice, AppliedSteps(v, c), v, p, p, c, y);
  }

  /** A product whose base price and multipliers are no higher gives no higher a base price. */
  lemma BasePriceMonotone(v: Vehicle, p: Pricing, q: Pricing, c: Option<Customer>, y: int)
    requires Plausible(v, p, c, y) && PricingAtMost(p, q)
    ensures BasePrice(v, p, c, y) <= BasePrice(v, q, c, y)
  {
    RunMonotone(p.basePrice, q.basePrice, AppliedSteps(v, c), v, p, q, c, y);
    RoundMonotone(RawBasePrice(v, p, c, y), RawBasePrice(v, q, c, y));
  }

  // ---------------------------------------------------------------------------------
  // Riders (calculateAdditionalServicesPrice)
  // ---------------------------------------------------------------------------------

  /** KASKO: 5% of the vehicle price, a missing price counting as 0. */
  function KaskoTerm(rs: Riders): (r: real) {
    match rs.havarijniPojisteni
    case Some(k) => if k.enabled then k.vehiclePrice.GetOr(0.0) * 0.05 else 0.0
    case None => 0.0
  }

  /** Theft: half the vehicle's weight. */
  function TheftTerm(rs: Riders, weight: real): (r: real) {
    if On(rs.pojisteniOdcizeni) then weight * 0.5 else 0.0
  }

  /** Natural disaster: a flat 444. */
  function NaturalDisasterTerm(rs: Riders): (r: real) {
    if On(rs.zivelniPojisteni) then 444.0 else 0.0
  }

  /** Animal collision: a flat 920. */
  function AnimalCollisionTerm(rs: Riders): (r: real) {
    if On(rs.stetSeZveri) then 920.0 else 0.0
  }

  /** The unrounded rider price: the sum of the four independent terms. */
  function RidersSum(rs: Riders, weight: real): (r: real) {
    KaskoTerm(rs) + TheftTerm(rs, weight) + NaturalDisasterTerm(rs) + AnimalCollisionTerm(rs)
  }

  /** No riders object costs nothing; otherwise the sum of the terms, rounded once. */
  function AdditionalServicesPrice(riders: Option<Riders>, weight: real): (r: int) {
    match riders
    case None => 0
    case Some(rs) => Round(RidersSum(rs, weight))
  }

  /** calculateAdditionalServicesPrice: the running price, increased rider by rider. */
  method CalculateAdditionalServicesPrice(additionalServices: Option<Riders>, vehicle: Vehicle)
    returns (result: int)
    requires additionalServices.Some? && On(additionalServices.value.pojisteniOdcizeni) ==> vehicle.weight.Some?
    ensures result == AdditionalServicesPrice(additionalServices, vehicle.weight.GetOr(0.0))
  {
    var price := 0.0;
    if additionalServices.None? {
      return 0;
    }
    var rs := additionalServices.value;
    if rs.havarijniPojisteni.Some? && rs.havarijniPojisteni.value.enabled {
      var vehiclePrice := rs.havarijniPojisteni.value.vehiclePrice.GetOr(0.0);
      price := price + vehiclePrice * 0.05;
    }
    if rs.pojisteniOdcizeni.Some? && rs.pojisteniOdcizeni.value.enabled {
      price := price + vehicle.weight.value * 0.5;
    }
    if rs.zivelniPojisteni.Some? && rs.zivelniPojisteni.value.enabled {
      price := price + 444.0;
    }
    if rs.stetSeZveri.Some? && rs.stetSeZveri.value.enabled {
      price := price + 920.0;
    }
    result := Round(price);
  }

  /** Switching the theft rider changes the unrounded price by exactly its own term. */
  lemma TheftIndependent(rs: Riders, t: Option<Toggle>, w: real)
    ensures KaskoTerm(rs.(pojisteniOdcizeni := t)) == KaskoTerm(rs)
    ensures NaturalDisasterTerm(rs.(pojisteniOdcizeni := t)) == NaturalDisasterTerm(rs)
    ensures AnimalCollisionTerm(rs.(pojisteniOdcizeni := t)) == AnimalCollisionTerm(rs)
    ensures RidersSum(rs.(pojisteniOdcizeni := t), w) - RidersSum(rs, w)
         == TheftTerm(rs.(pojisteniOdcizeni := t), w) - TheftTerm(rs, w)
  {
  }

  /** Switching KASKO changes the unrounded price by exactly its own term. */
  lemma KaskoIndependent(rs: Riders, k: Option<Kasko>, w: real)
    ensures TheftTerm(rs.(havarijniPojisteni := k), w) == TheftTerm(rs, w)
    ensures NaturalDisasterTerm(rs.(havarijniPojisteni := k)) == NaturalDisasterTerm(rs)
    ensures AnimalCollisionTerm(rs.(havarijniPojisteni := k)) == AnimalCollisionTerm(rs)
    ensures RidersSum(rs.(havarijniPojisteni := k), w) - RidersSum(rs, w)
         == KaskoTerm(rs.(havarijniPojisteni := k)) - KaskoTerm(rs)
  {
  }

  /** With no rider switched on, the riders cost nothing; the flat riders add 444 and 920
      on top of the rounded variable part. */
  lemma RidersPriceDecomposition(rs: Riders, w: real)
    ensures AdditionalServicesPrice(Some(rs), w)
         == Round(KaskoTerm(rs) + TheftTerm(rs, w))
            + (if On(rs.zivelniPojisteni) then 444 else 0)
            + (if On(rs.stetSeZveri) then 920 else 0)
  {
    var flat := (if On(rs.zivelniPojisteni) then 444 else 0) + (if On(rs.stetSeZveri) then 920 else 0);
    assert RidersSum(rs, w) == flat as real + (KaskoTerm(rs) + TheftTerm(rs, w));
    RoundShift(flat, KaskoTerm(rs) + TheftTerm(rs, w));
  }

  // ---------------------------------------------------------------------------------
  // Discounts (calculateDiscounts)
  // ---------------------------------------------------------------------------------

  /** The customer gets the age discount: a birth year is given and they are over 30. */
  predicate OverThirty(c: Option<Customer>, currentYear: int) {
    c.Some? && TruthyInt(c.value.birthYear) && currentYear - c.value.birthYear.value > 30
  }

  /** The flat discounts: 1500 for an electric vehicle, 500 for a customer over 30. */
  function Discounts(v: Vehicle, c: Option<Customer>, currentYear: int): (d: int)
    ensures d in {0, 500, 1500, 2000}
    ensures d >= 1500 <==> v.isElectric
    ensures (d == 500 || d == 2000) <==> OverThirty(c, currentYear)
  {
    (if v.isElectric then 1500 else 0) + (if OverThirty(c, currentYear) then 500 else 0)
  }

  /** calculateDiscounts: the running discount, increased condition by condition. */
  method CalculateDiscounts(vehicle: Vehicle, customerInfo: Option<Customer>, currentYear: int)
    returns (result: int)
    ensures result == Discounts(vehicle, customerInfo, currentYear)
  {
    var discounts := 0;
    if vehicle.isElectric {
      discounts := discounts + 1500;
    }
    if customerInfo.Some? && customerInfo.value.birthYear.Some? && customerInfo.value.birthYear.value != 0 {
      var age := currentYear - customerInfo.value.birthYear.value;
      if age > 30 {
        discounts := discounts + 500;
      }
    }
    result := Round(discounts as real);
  }

  // ---------------------------------------------------------------------------------
  // The quote (calculateInsurance) and the insurance record (createInsurance)
  // ---------------------------------------------------------------------------------

  /** The quote for resolved records: the three parts and the rounded total. */
  function QuoteOf(v: Vehicle, p: Pricing, c: Option<Customer>, riders: Option<Riders>, currentYear: int): (q: Quote)
    ensures Balanced(q)
    ensures q.basePrice == BasePrice(v, p, c, currentYear)
    ensures q.additionalServicesPrice == AdditionalServicesPrice(riders, v.weight.GetOr(0.0))
    ensures q.discounts == Discounts(v, c, currentYear)
  {
    var b := BasePrice(v, p, c, currentYear);
    var a := AdditionalServicesPrice(riders, v.weight.GetOr(0.0));
    var d := Discounts(v, c, currentYear);
    Quote(b, a, d, Round((b + a - d) as real))
  }

  datatype CalcError = InvalidVehicleId | VehicleNotFound | ProductNotFound

  /** `Vehicle.findById`. */
  function FindVehicle(vehicles: seq<Vehicle>, id: string): (r: Option<nat>) {
    FindFirst(vehicles, (v: Vehicle) => v.id == id)
  }

  /** `Product.findOne({ type, active: true })`. */
  function FindActiveProduct(products: seq<Product>, packageType: string): (r: Option<nat>) {
    FindFirst(products, (p: Product) => p.productType == packageType && p.active)
  }

  /** The vehicle with this id, if stored, has a weight. */
  predicate WeighedIfStored(vehicles: seq<Vehicle>, id: string) {
    forall i :: 0 <= i < |vehicles| && vehicles[i].id == id ==> vehicles[i].weight.Some?
  }

  /** calculateInsurance: resolve the vehicle and an active product of the package type,
      then combine the three calculators. `vehicleIdValid` is the verdict of Mongoose's
      ObjectId check on `vehicleId`. */
  method CalculateInsurance(vehicleIdValid: bool, vehicleId: string, packageType: string,
                            customerInfo: Option<Customer>, additionalServices: Option<Riders>,
                            vehicles: seq<Vehicle>, products: seq<Product>, currentYear: int)
    returns (r: Result<Quote, CalcError>)
    requires WeighedIfStored(vehicles, vehicleId)
    ensures !vehicleIdValid ==> r == Failure(InvalidVehicleId)
    ensures vehicleIdValid && FindVehicle(vehicles, vehicleId).None? ==> r == Failure(VehicleNotFound)
    ensures vehicleIdValid && FindVehicle(vehicles, vehicleId).Some? && FindActiveProduct(products, packageType).None?
            ==> r == Failure(ProductNotFound)
    ensures r.Success? <==> vehicleIdValid && FindVehicle(vehicles, vehicleId).Some? && FindActiveProduct(products, packageType).Some?
    ensures r.Success? ==>
              var v := vehicles[FindVehicle(vehicles, vehicleId).value];
              var p := products[FindActiveProduct(products, packageType).value];
              v.id == vehicleId && p.productType == packageType && p.active
              && r.value == QuoteOf(v, p.pricing, customerInfo, additionalServices, currentYear)
  {
    if !vehicleIdValid {
      return Failure(InvalidVehicleId);
    }
    var vi := FindVehicle(vehicles, vehicleId);
    if vi.None? {
      return Failure(VehicleNotFound);
    }
    var vehicle := vehicles[vi.value];
    var pi := FindActiveProduct(products, packageType);
    if pi.None? {
      return Failure(ProductNotFound);
    }
    var product := products[pi.value];

    var basePrice := CalculateBasePrice(vehicle, product, customerInfo, currentYear);
    var additionalServicesPrice := CalculateAdditionalServicesPrice(additionalServices, vehicle);
    var discounts := CalculateDiscounts(vehicle, customerInfo, currentYear);
    var totalPrice := Round((basePrice + additionalServicesPrice - discounts) as real);
    r := Success(Quote(basePrice, additionalServicesPrice, discounts, totalPrice));
  }

  /** The total of a quote needs no rounding: it is base plus riders minus discounts. */
  lemma QuoteIsBalanced(v: Vehicle, p: Pricing, c: Option<Customer>, riders: Option<Riders>, y: int)
    ensures QuoteOf(v, p, c, riders, y).totalPrice
         == BasePrice(v, p, c, y) + AdditionalServicesPrice(riders, v.weight.GetOr(0.0)) - Discounts(v, c, y)
  {
  }

  /** An electric vehicle always gets the flat 1500, whatever else holds. */
  lemma ElectricDiscountIsFlat(v: Vehicle, p: Pricing, c: Option<Customer>, riders: Option<Riders>, y: int)
    requires v.isElectric
    ensures QuoteOf(v, p, c, riders, y).discounts - (if OverThirty(c, y) then 500 else 0) == 1500
  {
  }

  /** Every product's type is one of the tiers, so the package type an insurance takes from
      its product lies in the Insurance schema's `packageType` enum. */
  predicate ProductsTyped(products: seq<Product>) {
    forall i :: 0 <= i < |products| ==> products[i].productType in Tiers
  }

  /** createInsurance: calculate the quote and, when that succeeds, store a draft insurance
      carrying it; on failure nothing is stored. `newId` is the id the database assigns. */
  method CreateInsurance(db: InsuranceCollection, newId: string,
                         vehicleIdValid: bool, vehicleId: string, packageType: string,
                         customerInfo: Option<Customer>, additionalServices: Option<Riders>,
                         vehicles: seq<Vehicle>, products: seq<Product>, currentYear: int)
    returns (r: Result<Insurance, CalcError>)
    requires db.Valid()
    requires forall i :: 0 <= i < |db.docs| ==> db.docs[i].id != newId
    requires WeighedIfStored(vehicles, vehicleId) && ProductsTyped(products)
    modifies db
    ensures db.Valid()
    ensures r.Failure? ==> db.docs == old(db.docs)
    ensures r.Success? ==> db.docs == old(db.docs) + [r.value]
    ensures r.Success? ==>
              && r.value.id == newId && r.value.vehicle == vehicleId && r.value.status == "draft"
              && r.value.selectedPackage == packageType && r.value.selectedPackage in Tiers
              && r.value.customerInfo == customerInfo && r.value.additionalServices == additionalServices
              && Balanced(r.value.pricing)
    ensures r.Success? <==> vehicleIdValid && FindVehicle(vehicles, vehicleId).Some? && FindActiveProduct(products, packageType).Some?
    ensures r.Success? ==>
              r.value.pricing == QuoteOf(vehicles[FindVehicle(vehicles, vehicleId).value],
                                         products[FindActiveProduct(products, packageType).value].pricing,
                                         customerInfo, additionalServices, currentYear)
  {
    var pricing := CalculateInsurance(vehicleIdValid, vehicleId, packageType, customerInfo, additionalServices,
                                      vehicles, products, currentYear);
    if pricing.Failure? {
      return Failure(pricing.error);
    }
    var insurance := Insurance(newId, vehicleId, customerInfo, packageType, additionalServices, pricing.value, "draft");
    db.docs := db.docs + [insurance];
    r := Success(insurance);
  }
}
