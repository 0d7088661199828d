/**
 * The photovoltaic offer arithmetic of src/app.jsx: the price per kW from the
 * admin's price curve, the suggested and offered system sizes, the
 * maintenance quote, and the installation estimate (discount, VAT on the
 * discounted price, per-kW incentives, energy yield, yearly benefit,
 * payback and CO2 figures).
 */
module Pricing {
  import opened Wrappers
  import opened JsNumbers
  import opened JsValues
  import opened Sorting

  // ---------------------------------------------------------------------------
  // Price per kW from the curve

  /** `parseFloat(String(curve[name]).replace(',', '.')) || fallback`: a field
    * that is missing, unreadable or zero takes the fallback. */
  function CurveField(curve: Value, name: string, fallback: real): (x: real)
    requires fallback != 0.0
    ensures x != 0.0
    ensures ParseDecimal(Member(curve, name)).Fin? && ParseDecimal(Member(curve, name)).r != 0.0
            ==> x == ParseDecimal(Member(curve, name)).r
    ensures ParseDecimal(Member(curve, name)).NaN? || ParseDecimal(Member(curve, name)).r == 0.0
            ==> x == fallback
  {
    ParseDecimal(Member(curve, name)).Or(fallback)
  }

  /** The four curve figures as read, each defaulted by `||`. */
  datatype Curve = Curve(minKW: real, maxKW: real, priceAtMin: real, priceAtMax: real)

  function ReadCurve(curve: Value): (c: Curve)
    ensures c.minKW != 0.0 && c.maxKW != 0.0 && c.priceAtMin != 0.0 && c.priceAtMax != 0.0
  {
    Curve(CurveField(curve, "minKW", 8.0), CurveField(curve, "maxKW", 200.0),
          CurveField(curve, "priceAtMin", 2000.0), CurveField(curve, "priceAtMax", 1000.0))
  }

  /** The size clamped into `[minKW, maxKW]` as `Math.max(minKW, Math.min(maxKW, kw))`. */
  function ClampKW(kw: real, c: Curve): real {
    RMax(c.minKW, RMin(c.maxKW, kw))
  }

  /** The interpolation on read figures. With `minKW == maxKW` it divides
    * zero by zero, which is NaN. */
  function CurvePrice(kw: real, c: Curve): (price: Num)
    ensures price.NaN? <==> c.minKW == c.maxKW
  {
    var t := Div(Fin(ClampKW(kw, c) - c.minKW), Fin(c.maxKW - c.minKW));
    Add(Fin(c.priceAtMin), Mul(Fin(c.priceAtMax - c.priceAtMin), t))
  }

  /** `pricePerKWFromCurve(kw, curve)`: 0 without a curve; otherwise the
    * size, read with the decimal-comma parse and 0 when unreadable, priced
    * on the curve's figures. */
  function PricePerKWFromCurve(kw: Value, curve: Value): (price: Num)
    ensures !Truthy(curve) ==> price == Fin(0.0)
    ensures Truthy(curve) ==> price == CurvePrice(ParseDecimal(kw).Or(0.0), ReadCurve(curve))
  {
    if !Truthy(curve) then Fin(0.0)
    else CurvePrice(ParseDecimal(kw).Or(0.0), ReadCurve(curve))
  }

  /** On a proper curve the price is the linear interpolation between the two
    * end prices at the clamped size, and so lies between them. */
  lemma {:induction false} CurveInterpolates(kw: real, c: Curve)
    requires c.minKW < c.maxKW
    ensures var k := ClampKW(kw, c);
            && c.minKW <= k <= c.maxKW
            && CurvePrice(kw, c)
               == Fin(c.priceAtMin + (c.priceAtMax - c.priceAtMin) * ((k - c.minKW) / (c.maxKW - c.minKW)))
            && RMin(c.priceAtMin, c.priceAtMax) <= CurvePrice(kw, c).r <= RMax(c.priceAtMin, c.priceAtMax)
  {
    var k := ClampKW(kw, c);
    UnitFraction(k - c.minKW, c.maxKW - c.minKW);
    BetweenEnds(c.priceAtMin, c.priceAtMax, (k - c.minKW) / (c.maxKW - c.minKW));
  }

  lemma UnitFraction(a: real, b: real)
    requires 0.0 <= a <= b && b > 0.0
    ensures 0.0 <= a / b <= 1.0
  {
    assert a / b * b == a;
  }

  lemma BetweenEnds(p: real, q: real, t: real)
    requires 0.0 <= t <= 1.0
    ensures RMin(p, q) <= p + (q - p) * t <= RMax(p, q)
  {
    if p <= q {
      RisingStep(p, q, t);
    } else {
      FallingStep(p, q, t);
    }
    LinearBetween(p, q, (q - p) * t);
  }

  lemma RisingStep(p: real, q: real, t: real)
    requires 0.0 <= t <= 1.0 && p <= q
    ensures 0.0 <= (q - p) * t <= q - p
  {
    MulUnitInterval(q - p, t);
  }

  lemma FallingStep(p: real, q: real, t: real)
    requires 0.0 <= t <= 1.0 && q < p
    ensures q - p <= (q - p) * t <= 0.0
  {
    MulUnitInterval(p - q, t);
    assert (q - p) * t == -((p - q) * t);
  }

  lemma LinearBetween(p: real, q: real, d: real)
    requires p <= q ==> 0.0 <= d <= q - p
    requires q < p ==> q - p <= d <= 0.0
    ensures RMin(p, q) <= p + d <= RMax(p, q)
  {
  }

  lemma MulUnitInterval(x: real, t: real)
    requires x >= 0.0 && 0.0 <= t <= 1.0
    ensures 0.0 <= x * t <= x
  {
    assert x * t <= x * 1.0;
  }

  /** Sizes at or below `minKW` pay the price at `minKW`; sizes at or above
    * `maxKW` pay the price at `maxKW`. */
  lemma CurveEnds(kw: real, c: Curve)
    requires c.minKW < c.maxKW
    ensures kw <= c.minKW ==> CurvePrice(kw, c) == Fin(c.priceAtMin)
    ensures kw >= c.maxKW ==> CurvePrice(kw, c) == Fin(c.priceAtMax)
  {
    assert (c.maxKW - c.minKW) / (c.maxKW - c.minKW) == 1.0;
  }

  /** A curve whose `minKW` exceeds its `maxKW` prices every size at
    * `priceAtMin`. */
  lemma InvertedCurve(kw: real, c: Curve)
    requires c.minKW > c.maxKW
    ensures CurvePrice(kw, c) == Fin(c.priceAtMin)
  {
  }

  /** The default curve: 2000 CHF/kW at 8 kW down to 1000 CHF/kW at 200 kW. */
  const DefaultCurve: map<string, Json> :=
    map["minKW" := JNum(8.0), "priceAtMin" := JNum(2000.0),
        "maxKW" := JNum(200.0), "priceAtMax" := JNum(1000.0)]

  lemma ParseDecimalOfInteger(n: int)
    ensures ParseDecimal(Some(JNum(n as real))) == Fin(n as real)
  {
    IntegersRepresentable(n);
    ParseDecimalOfNumber(n as real);
  }

  /** A whole, nonzero number stored in a curve field is read as it is. */
  lemma StoredFieldRead(fields: map<string, Json>, name: string, n: int, fallback: real)
    requires name in fields && fields[name] == JNum(n as real) && n != 0 && fallback != 0.0
    ensures CurveField(Obj(fields), name, fallback) == n as real
  {
    assert Member(Obj(fields), name) == Some(JNum(n as real));
    ParseDecimalOfInteger(n);
  }

  lemma ReadDefaultCurve()
    ensures ReadCurve(Obj(DefaultCurve)) == Curve(8.0, 200.0, 2000.0, 1000.0)
  {
    StoredFieldRead(DefaultCurve, "minKW", 8, 8.0);
    StoredFieldRead(DefaultCurve, "maxKW", 200, 200.0);
    StoredFieldRead(DefaultCurve, "priceAtMin", 2000, 2000.0);
    StoredFieldRead(DefaultCurve, "priceAtMax", 1000, 1000.0);
  }

  /** Halfway along the default curve, 104 kW costs 1500 CHF/kW. */
  lemma DefaultCurveAt104()
    ensures PricePerKWFromCurve(Some(JNum(104.0)), Obj(DefaultCurve)) == Fin(1500.0)
  {
    ReadDefaultCurve();
    PricedAtWholeSize(104, Obj(DefaultCurve));
    DefaultCurveMidpoint();
  }

  /** A whole size given as a number is priced as it is. */
  lemma PricedAtWholeSize(n: int, curve: Value)
    requires Truthy(curve)
    ensures PricePerKWFromCurve(Some(JNum(n as real)), curve) == CurvePrice(n as real, ReadCurve(curve))
  {
    ParseDecimalOfInteger(n);
  }

  lemma DefaultCurveMidpoint()
    ensures CurvePrice(104.0, Curve(8.0, 200.0, 2000.0, 1000.0)) == Fin(1500.0)
  {
    assert ClampKW(104.0, Curve(8.0, 200.0, 2000.0, 1000.0)) == 104.0;
    assert (104.0 - 8.0) / (200.0 - 8.0) == 0.5;
  }

  /** Because of `||`, a curve field stored as 0 reads as its default. */
  lemma ZeroFieldFallsBack(fields: map<string, Json>, name: string, fallback: real)
    requires name in fields && fields[name] == JNum(0.0) && fallback != 0.0
    ensures CurveField(Obj(fields), name, fallback) == fallback
  {
    assert Member(Obj(fields), name) == Some(JNum(0 as real));
    ParseDecimalOfInteger(0);
  }

  /** A missing or unreadable curve figure reads as its default too. */
  lemma MissingFieldFallsBack(fields: map<string, Json>, name: string, fallback: real)
    requires name !in fields && fallback != 0.0
    ensures CurveField(Obj(fields), name, fallback) == fallback
  {
    UndefinedUnreadable();
  }

  // ---------------------------------------------------------------------------
  // Suggested sizes

  /** `Math.max(0, Number(kWh || 0) / 1000)`: about 1 kWp per MWh a year. */
  function TargetKW(kWh: Num): (t: real)
    ensures t >= 0.0
    ensures kWh.Fin? && kWh.r > 0.0 ==> t == kWh.r / 1000.0
  {
    RMax(0.0, kWh.Or(0.0) / 1000.0)
  }

  /** `suggestSizes(kWh)`: the (at most) three catalog sizes nearest the
    * target, nearest first, equally near ones smaller first. */
  function SuggestSizes(kWh: Num, pvSizes: seq<real>): (r: seq<real>)
    ensures |r| == if |pvSizes| < 3 then |pvSizes| else 3
    ensures multiset(r) <= multiset(pvSizes)
    ensures ByDistanceThenSize(r, TargetKW(kWh))
    ensures forall i, b :: 0 <= i < |r| && b in multiset(pvSizes) - multiset(r) ==>
              Before(r[i], b, TargetKW(kWh))
  {
    var target := TargetKW(kWh);
    var sizes := SortAsc(pvSizes);
    var ranked := SortByDist(sizes, target);
    var n := if |ranked| < 3 then |ranked| else 3;
    SortByDistThenSize(sizes, target);
    NearestFirst(ranked, n, target);
    ranked[..n]
  }

  lemma NearestFirst(full: seq<real>, n: nat, target: real)
    requires n <= |full| && ByDistanceThenSize(full, target)
    ensures multiset(full[..n]) <= multiset(full)
    ensures ByDistanceThenSize(full[..n], target)
    ensures forall i, b :: 0 <= i < n && b in multiset(full) - multiset(full[..n]) ==>
              Before(full[..n][i], b, target)
  {
    assert full == full[..n] + full[n..];
    assert multiset(full) == multiset(full[..n]) + multiset(full[n..]);
    forall i, b | 0 <= i < n && b in multiset(full) - multiset(full[..n])
      ensures Before(full[..n][i], b, target)
    {
      assert b in multiset(full[n..]);
      var j :| 0 <= j < |full[n..]| && full[n..][j] == b;
      assert full[n + j] == b;
    }
  }

  /** `selectedKW ?? (sizes[1] || sizes[0] || 0)`: the size an offer is built
    * for when none was picked: the second suggestion, else the first. */
  function DefaultSelectedKW(selected: Option<real>, sizes: seq<real>): (kw: real)
    ensures selected.Some? ==> kw == selected.value
    ensures selected.None? ==> kw == 0.0 || kw in sizes
    ensures selected.None? && |sizes| >= 2 && sizes[1] != 0.0 ==> kw == sizes[1]
  {
    match selected
    case Some(k) => k
    case None =>
      if |sizes| > 1 && sizes[1] != 0.0 then sizes[1]
      else if |sizes| > 0 && sizes[0] != 0.0 then sizes[0]
      else 0.0
  }

  // ---------------------------------------------------------------------------
  // Maintenance quote

  datatype MaintenanceQuote = MaintenanceQuote(panels: real, net: Num, vat: Num, gross: Num)

  /** The number of panels typed: comma or dot decimals, negatives and
    * unreadable text count as 0. */
  function Panels(text: Value): (n: real)
    ensures n >= 0.0
    ensures ParseDecimal(text).Fin? && ParseDecimal(text).r > 0.0 ==> n == ParseDecimal(text).r
    ensures ParseDecimal(text).NaN? || ParseDecimal(text).r <= 0.0 ==> n == 0.0
  {
    RMax(0.0, ParseDecimal(text).Or(0.0))
  }

  /** The maintenance price of `buildMaintOffer` and of `MaintenanceForm`,
    * whose arithmetic is the same: the panels (as `Panels` reads them)
    * times the price per panel, plus VAT at the given percentage. The two
    * settings figures enter as the numbers `*` coerces them to. */
  function Maintenance(panels: real, pricePerPanel: Num, vatPercent: Num): (q: MaintenanceQuote)
    requires panels >= 0.0
    ensures q.panels == panels
    ensures pricePerPanel.Fin? && vatPercent.Fin? ==>
      && q.net == Fin(panels * pricePerPanel.r)
      && q.vat == Fin(q.net.r * vatPercent.r / 100.0)
      && q.gross == Fin(q.net.r * (1.0 + vatPercent.r / 100.0))
    ensures pricePerPanel.NaN? ==> q.net.NaN? && q.vat.NaN? && q.gross.NaN?
    ensures vatPercent.NaN? ==> q.vat.NaN? && q.gross.NaN?
  {
    var net := Mul(Fin(panels), pricePerPanel);
    var vat := Div(Mul(net, vatPercent), Fin(100.0));
    if net.Fin? && vatPercent.Fin? then
      VatInclusive(net.r, vatPercent.r);
      MaintenanceQuote(panels, net, vat, Add(net, vat))
    else MaintenanceQuote(panels, net, vat, Add(net, vat))
  }

  /** With a non-negative price and VAT rate the gross is at least the net. */
  lemma MaintenanceGrossCoversNet(panels: real, price: real, vatPct: real)
    requires panels >= 0.0 && price >= 0.0 && vatPct >= 0.0
    ensures var q := Maintenance(panels, Fin(price), Fin(vatPct));
            0.0 <= q.net.r <= q.gross.r
  {
    NonNegativeProduct(panels, price);
    NonNegativeProduct(panels * price, vatPct);
  }

  lemma NonNegativeProduct(x: real, y: real)
    requires x >= 0.0 && y >= 0.0
    ensures x * y >= 0.0
  {
  }

  // ---------------------------------------------------------------------------
  // Installation estimate and summary

  /** The pricing settings the estimate reads, each figure parsed with the
    * decimal-comma parse and defaulted to 0 by `||`. */
  datatype Rates = Rates(
    curvePricing: bool, curve: Value, systemPrice: real, vatPct: real,
    fedPerKW: real, cantPerKW: real, munPerKW: real,
    pctWithHeatPump: real, pctWithoutHeatPump: real, buyPrice: real, exportPrice: real)

  /** `parseFloat(String(v).replace(',', '.')) || 0` */
  function DecimalOrZero(v: Value): (x: real)
    ensures ParseDecimal(v).Fin? ==> x == ParseDecimal(v).r
    ensures ParseDecimal(v).NaN? ==> x == 0.0
  {
    ParseDecimal(v).Or(0.0)
  }

  function ReadRates(pricing: Value): Rates {
    var inc := OrElse(Member(pricing, "incentives"), Obj(map[]));
    Rates(Truthy(Member(pricing, "curvePricingEnabled")), Member(pricing, "curve"),
          DecimalOrZero(Member(pricing, "systemPricePerKWCHF")),
          DecimalOrZero(Member(pricing, "vatPercent")),
          DecimalOrZero(Member(inc, "federalCHFPerKW")),
          DecimalOrZero(Member(inc, "cantonalCHFPerKW")),
          DecimalOrZero(Member(inc, "municipalCHFPerKW")),
          DecimalOrZero(Member(pricing, "selfConsumptionPctWithHeatPump")),
          DecimalOrZero(Member(pricing, "selfConsumptionPctWithoutHeatPump")),
          DecimalOrZero(Member(pricing, "energyPriceCHFPerKWh")),
          DecimalOrZero(Member(pricing, "exportPriceCHFPerKWh")))
  }

  /** `parseFloat(String(selectedKW)…) || (suggestedSizesKW?.[1] ?? 0)` */
  function EstimateKW(selectedKW: Value, suggested: seq<real>): (kw: real)
    ensures ParseDecimal(selectedKW).Fin? && ParseDecimal(selectedKW).r != 0.0 ==>
              kw == ParseDecimal(selectedKW).r
    ensures ParseDecimal(selectedKW).NaN? || ParseDecimal(selectedKW).r == 0.0 ==>
              kw == if |suggested| > 1 then suggested[1] else 0.0
  {
    ParseDecimal(selectedKW).Or(if |suggested| > 1 then suggested[1] else 0.0)
  }

  /** The price per kW: from the curve when curve pricing is enabled, else
    * the flat system price. */
  function UnitPrice(r: Rates, kw: real): (unit: Num)
    ensures r.curvePricing ==> unit == PricePerKWFromCurve(Some(JNum(kw)), r.curve)
    ensures !r.curvePricing ==> unit == Fin(r.systemPrice)
  {
    if r.curvePricing then PricePerKWFromCurve(Some(JNum(kw)), r.curve)
    else Fin(r.systemPrice)
  }

  datatype Estimate = Estimate(
    kw: real, unit: Num, subtotal: Num, discountVal: Num, vatPct: real, vat: Num,
    totalBeforeIncentives: Num, incFed: real, incCant: real, incMun: real, totalNet: Num,
    discountPct: real, prod: real, autoPct: real, autoKWh: real, gridKWh: real,
    valueAuto: real, valueExport: real, annualBenefit: real)

  /** The `stima` arithmetic on read figures. */
  function EstimateOf(kw: real, unit: Num, r: Rates, heatPump: bool, discountPct: real): (e: Estimate)
    ensures e.totalNet.NaN? || e.totalNet.r >= 0.0
    ensures e.gridKWh >= 0.0
    ensures e.kw == kw && e.unit == unit && e.prod == kw * 1000.0
    ensures e.annualBenefit == e.valueAuto + e.valueExport
    ensures e.autoPct == (if heatPump then r.pctWithHeatPump else r.pctWithoutHeatPump) / 100.0
  {
    var subtotal := Mul(Fin(kw), unit);
    var discountVal := Mul(subtotal, Fin(discountPct / 100.0));
    var vat := Div(Mul(Sub(subtotal, discountVal), Fin(r.vatPct)), Fin(100.0));
    var totalBeforeIncentives := Add(Sub(subtotal, discountVal), vat);
    var incFed := kw * r.fedPerKW;
    var incCant := kw * r.cantPerKW;
    var incMun := kw * r.munPerKW;
    var totalNet := Max(Fin(0.0), Sub(Sub(Sub(totalBeforeIncentives, Fin(incFed)), Fin(incCant)), Fin(incMun)));
    var prod := kw * 1000.0;
    var autoPct := (if heatPump then r.pctWithHeatPump else r.pctWithoutHeatPump) / 100.0;
    var autoKWh := prod * autoPct;
    var gridKWh := RMax(0.0, prod - autoKWh);
    var valueAuto := autoKWh * r.buyPrice;
    var valueExport := gridKWh * r.exportPrice;
    Estimate(kw, unit, subtotal, discountVal, r.vatPct, vat, totalBeforeIncentives,
             incFed, incCant, incMun, totalNet, discountPct, prod, autoPct, autoKWh, gridKWh,
             valueAuto, valueExport, valueAuto + valueExport)
  }

  /** The `stima` block of the offer view for an installation offer. */
  function InstallEstimate(pricing: Value, selectedKW: Value, suggested: seq<real>,
                           heatPump: Value, discountPct: real): (e: Estimate)
    ensures e.totalNet.NaN? || e.totalNet.r >= 0.0
    ensures e.gridKWh >= 0.0
    ensures e.kw == EstimateKW(selectedKW, suggested) && e.prod == e.kw * 1000.0
    ensures e.unit == UnitPrice(ReadRates(pricing), e.kw)
  {
    var kw := EstimateKW(selectedKW, suggested);
    EstimateOf(kw, UnitPrice(ReadRates(pricing), kw), ReadRates(pricing), Truthy(heatPump), discountPct)
  }

  /** VAT is charged on the discounted price, and the incentives come off the
    * VAT-inclusive total, which is floored at zero. */
  lemma EstimateBreakdown(kw: real, unit: real, r: Rates, heatPump: bool, discountPct: real)
    ensures var e := EstimateOf(kw, Fin(unit), r, heatPump, discountPct);
            && e.subtotal == Fin(kw * unit)
            && e.discountVal == Fin(e.subtotal.r * (discountPct / 100.0))
            && e.vat == Fin((e.subtotal.r - e.discountVal.r) * e.vatPct / 100.0)
            && e.totalBeforeIncentives
               == Fin((e.subtotal.r - e.discountVal.r) * (1.0 + e.vatPct / 100.0))
            && e.totalNet == Fin(RMax(0.0, e.totalBeforeIncentives.r - e.incFed - e.incCant - e.incMun))
            && e.incFed == kw * r.fedPerKW && e.incCant == kw * r.cantPerKW
            && e.incMun == kw * r.munPerKW
  {
    var e := EstimateOf(kw, Fin(unit), r, heatPump, discountPct);
    VatInclusive(e.subtotal.r - e.discountVal.r, e.vatPct);
  }

  lemma VatInclusive(x: real, pct: real)
    ensures x + x * pct / 100.0 == x * (1.0 + pct / 100.0)
  {
  }

  /** A price that is NaN, as a degenerate curve gives, makes the subtotal,
    * the VAT and the net total NaN. */
  lemma EstimateWithoutPrice(kw: real, r: Rates, heatPump: bool, discountPct: real)
    ensures var e := EstimateOf(kw, NaN, r, heatPump, discountPct);
            e.subtotal.NaN? && e.vat.NaN? && e.totalNet.NaN?
  {
  }

  /** The discount never exceeds 30% of a non-negative price when the
    * discount input's range is respected. */
  lemma DiscountBounded(kw: real, unit: real, r: Rates, heatPump: bool, discountPct: real)
    requires 0.0 <= discountPct <= 30.0 && kw * unit >= 0.0
    ensures var e := EstimateOf(kw, Fin(unit), r, heatPump, discountPct);
            0.0 <= e.discountVal.r <= e.subtotal.r * 0.3
  {
    EstimateBreakdown(kw, unit, r, heatPump, discountPct);
    var e := EstimateOf(kw, Fin(unit), r, heatPump, discountPct);
    DiscountShare(e.subtotal.r, discountPct);
    assert e.discountVal.r == e.subtotal.r * (discountPct / 100.0);
    assert e.subtotal.r * (discountPct / 100.0) <= e.subtotal.r * 0.3;
  }

  lemma DiscountShare(x: real, pct: real)
    requires x >= 0.0 && 0.0 <= pct <= 30.0
    ensures 0.0 <= x * (pct / 100.0) <= x * 0.3
  {
    MulUnitInterval(x, pct / 100.0);
    MulMonotone(x, pct / 100.0, 0.3);
  }

  lemma MulMonotone(x: real, a: real, b: real)
    requires x >= 0.0 && a <= b
    ensures x * a <= x * b
  {
  }

  /** The energy split: with a self-consumption share between 0 and 100% and
    * a non-negative size, the self-consumed and exported energy add up to
    * the production, and the yearly benefit is their value. */
  lemma EnergySplit(kw: real, unit: Num, r: Rates, heatPump: bool, discountPct: real)
    requires kw >= 0.0
    requires 0.0 <= (if heatPump then r.pctWithHeatPump else r.pctWithoutHeatPump) <= 100.0
    ensures var e := EstimateOf(kw, unit, r, heatPump, discountPct);
            && e.autoKWh + e.gridKWh == e.prod
            && e.annualBenefit == e.autoKWh * r.buyPrice + (e.prod - e.autoKWh) * r.exportPrice
  {
    var pct := if heatPump then r.pctWithHeatPump else r.pctWithoutHeatPump;
    MulUnitInterval(kw * 1000.0, pct / 100.0);
  }

  datatype Summary = Summary(co2Saved: Num, equivalentTrees: Num, paybackYears: Num)

  /** `OfferSummary`: CO2 avoided by the yearly production (0.12 kg/kWh by
    * default), the trees that absorb as much (21 kg a year each by
    * default), and the years the yearly benefit takes to pay the net price
    * back (0 when there is no benefit). `environment` is the snapshot's
    * `environment` group, `defaultEnvironment` the default settings' one. */
  function OfferSummary(e: Estimate, environment: Value, defaultEnvironment: Value): (s: Summary)
    ensures e.annualBenefit > 0.0 && e.totalNet.Fin? ==>
              s.paybackYears.Fin? && s.paybackYears.r * e.annualBenefit == e.totalNet.r
    ensures e.annualBenefit > 0.0 && e.totalNet.NaN? ==> s.paybackYears.NaN?
    ensures e.annualBenefit <= 0.0 ==> s.paybackYears == Fin(0.0)
    ensures e.totalNet.Fin? && e.totalNet.r >= 0.0 ==> s.paybackYears.Fin? && s.paybackYears.r >= 0.0
  {
    var env := OrElse(environment, defaultEnvironment);
    var co2 := Mul(Fin(e.prod), ToNumber(OrElse(Member(env, "co2GridKgPerKWh"), Some(JNum(0.12)))));
    var trees := Div(co2, ToNumber(OrElse(Member(env, "co2PerTreeKgPerYear"), Some(JNum(21.0)))));
    var payback := if e.annualBenefit > 0.0 then Div(e.totalNet, Fin(e.annualBenefit)) else Fin(0.0);
    Summary(co2, trees, payback)
  }

  /** Without an environment group the CO2 figure is 0.12 kg per kWh and a
    * tree absorbs 21 kg a year. */
  lemma SummaryDefaults(e: Estimate)
    ensures var s := OfferSummary(e, None, None);
            s.co2Saved == Fin(e.prod * 0.12) && s.equivalentTrees == Fin(e.prod * 0.12 / 21.0)
  {
  }

  /** The discount input: unreadable text is 0, and the value is clamped
    * into `[0, 30]`. */
  function DiscountInput(typed: string): (pct: real)
    ensures 0.0 <= pct <= 30.0
    ensures ParseDecimalString(typed).Fin? && 0.0 <= ParseDecimalString(typed).r <= 30.0 ==>
              pct == ParseDecimalString(typed).r
    ensures ParseDecimalString(typed).Fin? && ParseDecimalString(typed).r > 30.0 ==> pct == 30.0
    ensures ParseDecimalString(typed).Fin? && ParseDecimalString(typed).r < 0.0 ==> pct == 0.0
    ensures ParseDecimalString(typed).NaN? ==> pct == 0.0
  {
    var v := ParseDecimalString(typed).OrIfNaN(0.0);
    if v < 0.0 then 0.0 else if v > 30.0 then 30.0 else v
  }
}
