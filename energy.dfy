/**
 * Self-consumption helpers (src/lib/energy.js): how much of the yearly
 * photovoltaic production the customer uses directly, in kWh and as a
 * percentage of the customer's consumption.
 */
module Energy {
  import opened Wrappers
  import opened JsNumbers
  import opened JsValues

  /** The share of the consumption covered by the PV system, with and
    * without a heat pump. A missing or non-numeric factor reads as NaN. */
  datatype Factors = Factors(withHP: Num, withoutHP: Num)

  /** The default parameter `{ withHP: 0.75, withoutHP: 0.65 }`. */
  const DefaultFactors: Factors := Factors(Fin(0.75), Fin(0.65))

  function Coverage(hasHeatPump: bool, factors: Factors): Num {
    if hasHeatPump then factors.withHP else factors.withoutHP
  }

  /** `Math.max(0, Number(v) || 0)`: negative, zero, missing and
    * non-numeric inputs all read as 0. */
  function NonNegative(v: Value): (x: real)
    ensures x >= 0.0
    ensures ToNumber(v).Fin? && ToNumber(v).r > 0.0 ==> x == ToNumber(v).r
    ensures ToNumber(v).NaN? || ToNumber(v).r <= 0.0 ==> x == 0.0
  {
    RMax(0.0, ToNumber(v).Or(0.0))
  }

  /** `Number(v) || 0`: keeps negative numbers. */
  function NumberOrZero(v: Value): (x: real)
    ensures ToNumber(v).Fin? ==> x == ToNumber(v).r
    ensures ToNumber(v).NaN? ==> x == 0.0
  {
    ToNumber(v).Or(0.0)
  }

  /** `Math.max(0, Math.min(candidate, pv, load))` on normalised inputs. */
  function Autoconsumata(load: real, pv: real, coverage: Num): (used: Num)
    requires load >= 0.0 && pv >= 0.0
    ensures coverage.NaN? <==> used.NaN?
    ensures used.Fin? ==> 0.0 <= used.r <= RMin(pv, load)
  {
    Max(Fin(0.0), Min(Min(Mul(Fin(load), coverage), Fin(pv)), Fin(load)))
  }

  /** `calcAutoconsumataKWh(consumoKWh, produzioneKWh, hasHeatPump, factors)` */
  function CalcAutoconsumataKWh(consumo: Value, produzione: Value, hasHeatPump: bool,
                                factors: Factors): (used: Num)
    ensures Coverage(hasHeatPump, factors).Fin? <==> used.Fin?
    ensures used.Fin? ==>
      0.0 <= used.r <= RMin(NonNegative(produzione), NonNegative(consumo))
  {
    Autoconsumata(NonNegative(consumo), NonNegative(produzione), Coverage(hasHeatPump, factors))
  }

  /** `load * coverage`, the share before the caps. */
  function Candidate(consumo: Value, hasHeatPump: bool, factors: Factors): Num {
    Mul(Fin(NonNegative(consumo)), Coverage(hasHeatPump, factors))
  }

  /** Whenever the estimate `load * coverage` fits within the production, it
    * is the answer; a coverage between 0 and 1 never exceeds the load. */
  lemma EstimateUsedWhenItFits(consumo: Value, produzione: Value, hasHeatPump: bool,
                               factors: Factors)
    requires Coverage(hasHeatPump, factors).Fin?
    requires 0.0 <= Coverage(hasHeatPump, factors).r <= 1.0
    requires Candidate(consumo, hasHeatPump, factors).r <= NonNegative(produzione)
    ensures CalcAutoconsumataKWh(consumo, produzione, hasHeatPump, factors)
         == Candidate(consumo, hasHeatPump, factors)
  {
    CalcUnfolds(consumo, produzione, hasHeatPump, factors);
    CoveredFits(NonNegative(consumo), NonNegative(produzione), Coverage(hasHeatPump, factors),
                Candidate(consumo, hasHeatPump, factors));
  }

  lemma CalcUnfolds(consumo: Value, produzione: Value, hasHeatPump: bool, factors: Factors)
    ensures CalcAutoconsumataKWh(consumo, produzione, hasHeatPump, factors)
         == Autoconsumata(NonNegative(consumo), NonNegative(produzione), Coverage(hasHeatPump, factors))
  {
  }

  lemma CoveredFits(load: real, pv: real, coverage: Num, candidate: Num)
    requires load >= 0.0 && pv >= 0.0 && coverage.Fin? && 0.0 <= coverage.r <= 1.0
    requires candidate == Mul(Fin(load), coverage) && candidate.r <= pv
    ensures Autoconsumata(load, pv, coverage) == candidate
  {
    AutoconsumataFits(load, pv, coverage.r);
  }

  lemma AutoconsumataFits(load: real, pv: real, c: real)
    requires load >= 0.0 && pv >= 0.0 && 0.0 <= c <= 1.0 && load * c <= pv
    ensures Autoconsumata(load, pv, Fin(c)) == Fin(load * c)
  {
    MulWithinUnit(load, c);
  }

  lemma MulWithinUnit(x: real, c: real)
    requires x >= 0.0 && 0.0 <= c <= 1.0
    ensures 0.0 <= x * c <= x
  {
    assert x * c <= x * 1.0;
  }

  /** With the default factors, a heat pump means 75% of the consumption and
    * no heat pump 65%, each capped by the production. */
  lemma DefaultCoverage(consumo: Value, produzione: Value, hasHeatPump: bool)
    ensures CalcAutoconsumataKWh(consumo, produzione, hasHeatPump, DefaultFactors)
         == Fin(RMin(NonNegative(consumo) * (if hasHeatPump then 0.75 else 0.65),
                     NonNegative(produzione)))
  {
    var load := NonNegative(consumo);
    var c := if hasHeatPump then 0.75 else 0.65;
    MulWithinUnit(load, c);
  }

  /** `typeof v === 'number' && !Number.isNaN(v)`: an explicit figure the
    * caller already computed. */
  function ExplicitKWh(v: Value): (r: Option<real>)
    ensures r.Some? <==> v.Some? && v.value.JNum?
    ensures r.Some? ==> r.value == v.value.n
  {
    match v
    case Some(JNum(n)) => Some(n)
    case _ => None
  }

  /** Clamp `x` into `[lo, hi]` as `Math.max(lo, Math.min(x, hi))`. */
  function Clamp(x: real, lo: real, hi: real): (y: real)
    requires lo <= hi
    ensures lo <= y <= hi
    ensures lo <= x <= hi ==> y == x
    ensures x < lo ==> y == lo
    ensures x > hi ==> y == hi
  {
    RMax(lo, RMin(x, hi))
  }

  /** The kWh used in `calcSelfConsumptionPctByLoad`. */
  function UsedByLoad(load: real, pv: real, hasHeatPump: bool, autoconsumata: Value): (used: real)
    requires load >= 0.0 && pv >= 0.0
    ensures 0.0 <= used <= RMin(load, pv)
    ensures ExplicitKWh(autoconsumata).Some? ==>
      used == Clamp(ExplicitKWh(autoconsumata).value, 0.0, RMin(load, pv))
    ensures ExplicitKWh(autoconsumata).None? ==>
      Fin(used) == CalcAutoconsumataKWh(Some(JNum(load)), Some(JNum(pv)), hasHeatPump, DefaultFactors)
  {
    match ExplicitKWh(autoconsumata)
    case Some(a) => RMax(0.0, RMin(RMin(a, load), pv))
    case None =>
      NonNegativeOfNumber(load);
      NonNegativeOfNumber(pv);
      CalcAutoconsumataKWh(Some(JNum(load)), Some(JNum(pv)), hasHeatPump, DefaultFactors).r
  }

  /** A number that is already non-negative passes the normalisation
    * unchanged. */
  lemma NonNegativeOfNumber(x: real)
    requires x >= 0.0
    ensures NonNegative(Some(JNum(x))) == x
  {
  }

  /** `calcSelfConsumptionPctByLoad(consumoKWh, produzioneKWh, hasHeatPump, autoconsumataKWh)` */
  function CalcSelfConsumptionPctByLoad(consumo: Value, produzione: Value, hasHeatPump: bool,
                                        autoconsumata: Value): (pct: real)
    ensures 0.0 <= pct <= 100.0
    ensures NonNegative(consumo) == 0.0 ==> pct == 0.0
    ensures NonNegative(consumo) > 0.0 ==>
      pct == UsedByLoad(NonNegative(consumo), NonNegative(produzione), hasHeatPump, autoconsumata)
             / NonNegative(consumo) * 100.0
  {
    var load := NonNegative(consumo);
    var pv := NonNegative(produzione);
    var used := UsedByLoad(load, pv, hasHeatPump, autoconsumata);
    if load > 0.0 then
      PercentOfLoad(used, load);
      used / load * 100.0
    else 0.0
  }

  lemma PercentOfLoad(used: real, load: real)
    requires 0.0 <= used <= load && load > 0.0
    ensures 0.0 <= used / load * 100.0 <= 100.0
  {
    assert used / load <= 1.0 by {
      assert used / load * load == used;
    }
  }

  /** The kWh used in `calcSelfConsumptionPct`. */
  function UsedOfLoad(load: real, pv: real, autoconsumata: Value): (used: real)
    ensures used >= 0.0
    ensures load >= 0.0 ==> used <= load
    ensures ExplicitKWh(autoconsumata).Some? ==>
      used == RMax(0.0, RMin(ExplicitKWh(autoconsumata).value, load))
    ensures ExplicitKWh(autoconsumata).None? ==> used == RMax(0.0, RMin(load, pv))
  {
    match ExplicitKWh(autoconsumata)
    case Some(a) => RMax(0.0, RMin(a, load))
    case None => RMax(0.0, RMin(load, pv))
  }

  /** `calcSelfConsumptionPct(consumoKWh, produzioneKWh, autoconsumataKWh)` */
  function CalcSelfConsumptionPct(consumo: Value, produzione: Value, autoconsumata: Value): (pct: real)
    ensures 0.0 <= pct <= 100.0
    ensures NumberOrZero(consumo) <= 0.0 ==> pct == 0.0
    ensures NumberOrZero(consumo) > 0.0 ==>
      pct == UsedOfLoad(NumberOrZero(consumo), NumberOrZero(produzione), autoconsumata)
             / NumberOrZero(consumo) * 100.0
  {
    var load := NumberOrZero(consumo);
    var pv := NumberOrZero(produzione);
    var used := UsedOfLoad(load, pv, autoconsumata);
    if load > 0.0 then
      PercentOfLoad(used, load);
      used / load * 100.0
    else 0.0
  }

  /** Unlike `calcSelfConsumptionPctByLoad`, an explicit figure is clamped to
    * the consumption only, so it may exceed the production: with 3000 kWh
    * consumed, 1000 kWh produced and 2000 kWh declared self-consumed, one
    * helper reports two thirds and the other one third. */
  lemma ExplicitFigureNotCappedByProduction()
    ensures CalcSelfConsumptionPct(Some(JNum(3000.0)), Some(JNum(1000.0)), Some(JNum(2000.0)))
         == 200.0 / 3.0
    ensures CalcSelfConsumptionPctByLoad(Some(JNum(3000.0)), Some(JNum(1000.0)), false,
                                         Some(JNum(2000.0)))
         == 100.0 / 3.0
  {
  }

  /** Without an explicit figure, `calcSelfConsumptionPct` takes the smaller of
    * consumption and production. */
  lemma EstimateIsSmallerOfLoadAndProduction(consumo: Value, produzione: Value, autoconsumata: Value)
    requires ExplicitKWh(autoconsumata).None?
    requires NumberOrZero(consumo) > 0.0 && NumberOrZero(produzione) >= 0.0
    ensures CalcSelfConsumptionPct(consumo, produzione, autoconsumata)
         == RMin(NumberOrZero(consumo), NumberOrZero(produzione)) / NumberOrZero(consumo) * 100.0
  {
  }

  /** `Math.round(x)`: halves round up. */
  function Round(x: real): (n: int)
    ensures n as real - 0.5 <= x < n as real + 0.5
  {
    (x + 0.5).Floor
  }

  /** The four cases of src/lib/energy.test.js. */
  lemma EnergyTestCases()
    ensures CalcSelfConsumptionPct(Some(JNum(4000.0)), Some(JNum(5000.0)), None) == 100.0
    ensures CalcSelfConsumptionPct(Some(JNum(3000.0)), Some(JNum(5000.0)), Some(JNum(5000.0))) == 100.0
    ensures CalcSelfConsumptionPct(Some(JNum(0.0)), Some(JNum(5000.0)), Some(JNum(1000.0))) == 0.0
    ensures Round(CalcSelfConsumptionPct(Some(JNum(6000.0)), Some(JNum(4000.0)), None)) == 67
  {
    assert CalcSelfConsumptionPct(Some(JNum(6000.0)), Some(JNum(4000.0)), None) == 200.0 / 3.0;
  }
}
