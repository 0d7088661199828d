/**
 * The admin form's numeric fields (src/app.jsx, `AdminPanel`): stored figures
 * are shown as text, typing keeps only the characters of a number, leaving a
 * field rewrites a readable text in canonical form, and saving reads every
 * text back (`normalizePricing`, `normalizeCurve`) with fallbacks for what
 * cannot be read.
 */
module AdminForm {
  import opened Wrappers
  import opened JsNumbers
  import opened JsValues
  import Pricing

  type Fields = map<string, Json>

  // ---------------------------------------------------------------------------
  // Figures shown as text

  /** `String(x ?? "")`: how the form shows a stored figure. */
  function InputText(v: Value): (t: string)
    ensures v.Some? && v.value.JNum? ==> t == RealToString(v.value.n)
    ensures IsNullish(v) ==> t == ""
    ensures IsString(v) ==> t == v.value.s
  {
    ToJsString(Coalesce(v, Some(JStr(""))))
  }

  /** A stored figure shown as text reads back as the same figure. */
  lemma InputTextReadsBack(n: real)
    requires Representable(n)
    ensures ParseDecimal(Some(JStr(InputText(Some(JNum(n)))))) == Fin(n)
  {
    ParseDecimalOfNumber(n);
  }

  /** The pricing figures edited as text. */
  const PricingTextKeys: set<string> := PriceKeys + PercentKeys + {ExportKey}

  /** The environment figures edited as text. */
  const EnvironmentTextKeys: set<string> := {"co2GridKgPerKWh", "co2PerTreeKgPerYear"}

  /** A settings group with the listed figures replaced by their text. */
  function AsInputs(group: Fields, keys: set<string>): (r: Fields)
    ensures r.Keys == group.Keys + keys
    ensures forall k :: k in keys ==> r[k] == JStr(InputText(Member(Obj(group), k)))
    ensures forall k :: k in group && k !in keys ==> r[k] == group[k]
  {
    map k | k in group.Keys + keys :: if k in keys then JStr(InputText(Member(Obj(group), k))) else group[k]
  }

  /** `String(group?.[k] ?? d)`: a curve or incentive figure as text, with
    * the shipped figure when there is none. */
  function FigureText(group: Value, k: string, d: real): string {
    ToJsString(Coalesce(Member(group, k), Some(JNum(d))))
  }

  datatype CurveTexts = CurveTexts(minKW: string, priceAtMin: string, maxKW: string, priceAtMax: string)

  function InitialCurveTexts(curve: Value): CurveTexts {
    CurveTexts(FigureText(curve, "minKW", 8.0), FigureText(curve, "priceAtMin", 2000.0),
               FigureText(curve, "maxKW", 200.0), FigureText(curve, "priceAtMax", 1000.0))
  }

  datatype IncentiveTexts = IncentiveTexts(federal: string, cantonal: string, municipal: string)

  function InitialIncentiveTexts(incentives: Value): IncentiveTexts {
    IncentiveTexts(FigureText(incentives, "federalCHFPerKW", 360.0),
                   FigureText(incentives, "cantonalCHFPerKW", 180.0),
                   FigureText(incentives, "municipalCHFPerKW", 10.0))
  }

  // ---------------------------------------------------------------------------
  // Typing and leaving a field

  /** `[0-9.,]`, the characters a decimal field accepts. */
  predicate DecimalChar(c: char) {
    IsDigit(c) || c == '.' || c == ','
  }

  predicate DecimalText(s: string) {
    forall i :: 0 <= i < |s| ==> DecimalChar(s[i])
  }

  /** A decimal field keeps what is typed only when it is all `[0-9.,]`. */
  function TypedDecimal(current: string, typed: string): (shown: string)
    ensures DecimalText(typed) ==> shown == typed
    ensures !DecimalText(typed) ==> shown == current
  {
    if DecimalText(typed) then typed else current
  }

  /** `[0-9]`, the characters a kW field of the curve accepts. */
  function TypedInteger(current: string, typed: string): (shown: string)
    ensures AllDigits(typed) ==> shown == typed
    ensures !AllDigits(typed) ==> shown == current
  {
    if AllDigits(typed) then typed else current
  }

  /** Leaving a decimal field: a readable text is rewritten as the number
    * it reads as, an unreadable one stays. */
  function BlurDecimal(text: string): string {
    var v := ParseDecimalString(text);
    if v.NaN? then text else RealToString(v.r)
  }

  /** Leaving a kW field of the curve: `parseInt`, rewritten the same way. */
  function BlurInteger(text: string): string {
    var v := ParseInt(text);
    if v.NaN? then text else RealToString(v.r)
  }

  /** Leaving a self-consumption field: an unreadable text becomes the
    * shipped share `d`, and the share is clamped into [0, 100]. */
  function BlurredPercent(text: string, d: real): (p: real)
    ensures 0.0 <= p <= 100.0
    ensures ParseDecimalString(text).Fin? && 0.0 <= ParseDecimalString(text).r <= 100.0 ==>
              p == ParseDecimalString(text).r
    ensures ParseDecimalString(text).NaN? && 0.0 <= d <= 100.0 ==> p == d
  {
    RMax(0.0, RMin(100.0, ParseDecimalString(text).OrIfNaN(d)))
  }

  function BlurPercent(text: string, d: real): string {
    RealToString(BlurredPercent(text, d))
  }

  /** The text a self-consumption field shows after it is left reads as a
    * share in [0, 100], and saving keeps that share. */
  lemma BlurPercentSaved(text: string, d: real)
    requires Representable(BlurredPercent(text, d))
    ensures ParseDecimalString(BlurPercent(text, d)) == Fin(BlurredPercent(text, d))
    ensures ClampPercent(ParseDecimalString(BlurPercent(text, d))) == BlurredPercent(text, d)
  {
    var p := BlurredPercent(text, d);
    ParseDecimalOfNumber(p);
    assert ParseDecimal(Some(JNum(p))) == ParseDecimalString(BlurPercent(text, d));
  }

  /** Leaving a field never changes the figure its text reads as. */
  lemma BlurDecimalKeepsValue(text: string)
    requires ParseDecimalString(text).Fin? ==> Representable(ParseDecimalString(text).r)
    ensures ParseDecimalString(BlurDecimal(text)) == ParseDecimalString(text)
  {
    var v := ParseDecimalString(text);
    if v.Fin? {
      ParseDecimalOfNumber(v.r);
      assert ParseDecimal(Some(JNum(v.r))) == ParseDecimalString(RealToString(v.r));
    }
  }

  lemma BlurIntegerKeepsValue(text: string)
    requires AllDigits(text)
    ensures ParseInt(BlurInteger(text)) == ParseInt(text)
  {
    var v := ParseInt(text);
    if v.Fin? {
      assert v.r >= 0.0 by {
        DigitsOnlyNonNegative(text);
      }
      ParseIntOfPrinted(v.r);
    }
  }

  lemma DigitsOnlyNonNegative(text: string)
    requires AllDigits(text)
    ensures ParseInt(text).Fin? ==> ParseInt(text).r >= 0.0
  {
    if text == [] {
      EmptyNoInteger();
    } else {
      ParseIntOfPlain(text, "", text);
    }
  }

  lemma EmptyNoInteger()
    ensures ParseInt("") == NaN
  {
  }

  /** What a decimal field accepts never reads as a negative figure. */
  lemma {:induction false} DecimalTextNotNegative(text: string)
    requires DecimalText(text)
    ensures ParseDecimalString(text).Fin? ==> ParseDecimalString(text).r >= 0.0
  {
    var u := FirstCommaToDot(text);
    if u != [] {
      assert u[0] == (if text[0] == ',' then '.' else text[0]);
      assert TrimStart(u) == u;
      assert SignLength(u) == 0 && u[0..] == u;
      ScanUnsignedNotNegative(u);
    }
  }

  lemma ScanUnsignedNotNegative(s: string)
    ensures ScanUnsigned(s).Some? ==> ScanUnsigned(s).value.value >= 0.0
  {
    var ni := LeadingDigits(s);
    if ni < |s| && s[ni] == '.' {
      var nf := LeadingDigits(s[ni + 1..]);
      FracValueNotNegative(s[ni + 1..][..nf]);
    }
  }

  lemma {:induction false} FracValueNotNegative(s: string)
    requires AllDigits(s)
    ensures FracValue(s) >= 0.0
  {
    if s != [] {
      FracValueNotNegative(s[1..]);
    }
  }

  // ---------------------------------------------------------------------------
  // Saving: `normalizePricing`

  /** `isNaN(v) ? fallback : v` for `v` the decimal-comma reading of `val`. */
  function ParseField(val: Value, fallback: Value): (r: Value)
    ensures ParseDecimal(val).Fin? ==> r == Some(JNum(ParseDecimal(val).r))
    ensures ParseDecimal(val).NaN? ==> r == fallback
  {
    var v := ParseDecimal(val);
    if v.NaN? then fallback else Some(JNum(v.r))
  }

  /** `Math.max(0, Math.min(100, v || 0))` */
  function ClampPercent(v: Num): (p: real)
    ensures 0.0 <= p <= 100.0
    ensures v.Fin? && 0.0 <= v.r <= 100.0 ==> p == v.r
    ensures v.Fin? && v.r > 100.0 ==> p == 100.0
    ensures v.NaN? || v.r < 0.0 ==> p == 0.0
  {
    RMax(0.0, RMin(100.0, v.Or(0.0)))
  }

  /** The prices read with the saved figure as fallback. */
  const PriceKeys: set<string> :=
    {"energyPriceCHFPerKWh", "maintenancePricePerPanelCHF", "vatPercent", "systemPricePerKWCHF"}

  const PercentKeys: set<string> := {"selfConsumptionPctWithHeatPump", "selfConsumptionPctWithoutHeatPump"}

  const ExportKey: string := "exportPriceCHFPerKWh"

  const IncentiveKeys: set<string> := {"federalCHFPerKW", "cantonalCHFPerKW", "municipalCHFPerKW"}

  /** The key names that share a length differ in a letter. */
  lemma KeyNamesDistinct()
    ensures ExportKey !in PriceKeys && "incentives" !in PriceKeys
  {
    assert ExportKey[1] != "energyPriceCHFPerKWh"[1];
    assert "incentives"[0] != "vatPercent"[0];
  }

  /** Every key `normalizePricing` writes. */
  const NormalizedKeys: set<string> := PriceKeys + PercentKeys + {ExportKey, "incentives"}

  /** An incentive read from its text, with the saved incentive, or else the
    * shipped one, as fallback. */
  function IncentiveValue(text: string, fallback: Json): (j: Json)
    ensures ParseDecimalString(text).Fin? ==> j == JNum(ParseDecimalString(text).r)
    ensures ParseDecimalString(text).NaN? ==> j == fallback
  {
    ParseField(Some(JStr(text)), Some(fallback)).value
  }

  /** `saved.incentives?.[k] ?? d` */
  function IncentiveFallback(saved: Value, k: string, d: real): Json {
    Coalesce(Member(Member(saved, "incentives"), k), Some(JNum(d))).value
  }

  /** The shipped incentive under each key, in CHF per kW. */
  function IncentiveDefault(k: string): real {
    if k == "federalCHFPerKW" then 360.0 else if k == "cantonalCHFPerKW" then 180.0 else 10.0
  }

  /** The text the form holds for each incentive. */
  function IncentiveText(t: IncentiveTexts, k: string): string {
    if k == "federalCHFPerKW" then t.federal else if k == "cantonalCHFPerKW" then t.cantonal else t.municipal
  }

  /** `incentives: { federalCHFPerKW: …, cantonalCHFPerKW: …, municipalCHFPerKW: … }` */
  function Incentives(t: IncentiveTexts, saved: Value): (inc: Fields)
    ensures inc.Keys == IncentiveKeys
    ensures forall k :: k in inc ==>
              inc[k] == IncentiveValue(IncentiveText(t, k), IncentiveFallback(saved, k, IncentiveDefault(k)))
  {
    map k | k in IncentiveKeys :: IncentiveValue(IncentiveText(t, k), IncentiveFallback(saved, k, IncentiveDefault(k)))
  }

  /** What the normalised pricing holds under `k`; `None` when the key ends
    * up without a value (an undefined fallback), which saving drops. */
  function NormalizedEntry(pricing: Fields, saved: Value, t: IncentiveTexts, k: string): Value {
    var v := Member(Obj(pricing), k);
    if k in PriceKeys then ParseField(v, Member(saved, k))
    else if k in PercentKeys then Some(JNum(ClampPercent(ParseDecimal(v))))
    else if k == ExportKey then ParseField(v, Coalesce(Member(saved, k), Some(JNum(0.05))))
    else if k == "incentives" then Some(JObj(Incentives(t, saved)))
    else v
  }

  /** `normalizePricing(pricing)`: `pricing` is the form's pricing group,
    * `saved` the pricing the form was opened with, `t` the incentive texts. */
  function NormalizePricing(pricing: Fields, saved: Value, t: IncentiveTexts): Fields {
    map k | k in pricing.Keys + NormalizedKeys && NormalizedEntry(pricing, saved, t, k).Some? ::
      NormalizedEntry(pricing, saved, t, k).value
  }

  /** Every key of the normalised pricing reads as its normalised entry. */
  lemma NormalizedEntryAt(pricing: Fields, saved: Value, t: IncentiveTexts, k: string)
    ensures Member(Obj(NormalizePricing(pricing, saved, t)), k) == NormalizedEntry(pricing, saved, t, k)
  {
    var m := NormalizePricing(pricing, saved, t);
    var e := NormalizedEntry(pricing, saved, t, k);
    if k !in pricing.Keys + NormalizedKeys {
      assert k !in m;
      assert k !in PriceKeys && k !in PercentKeys && k != ExportKey && k != "incentives";
      assert e == Member(Obj(pricing), k);
    } else if e.Some? {
      assert k in m && m[k] == e.value;
    } else {
      assert k !in m;
    }
  }

  /** Each price takes the figure its text reads as, or the saved figure
    * when the text is unreadable. */
  lemma NormalizedPrice(pricing: Fields, saved: Value, t: IncentiveTexts, k: string)
    requires k in PriceKeys
    ensures var v := ParseDecimal(Member(Obj(pricing), k));
            Member(Obj(NormalizePricing(pricing, saved, t)), k)
            == if v.Fin? then Some(JNum(v.r)) else Member(saved, k)
  {
    NormalizedEntryAt(pricing, saved, t, k);
  }

  /** Each self-consumption share is clamped into [0, 100], with 0 for an
    * unreadable text. */
  lemma NormalizedPercent(pricing: Fields, saved: Value, t: IncentiveTexts, k: string)
    requires k in PercentKeys
    ensures var v := ParseDecimal(Member(Obj(pricing), k));
            && Member(Obj(NormalizePricing(pricing, saved, t)), k) == Some(JNum(ClampPercent(v)))
            && 0.0 <= ClampPercent(v) <= 100.0
            && (v.Fin? && 0.0 <= v.r <= 100.0 ==> ClampPercent(v) == v.r)
  {
    NormalizedEntryAt(pricing, saved, t, k);
    PercentEntry(pricing, saved, t, k);
  }

  lemma PercentEntry(pricing: Fields, saved: Value, t: IncentiveTexts, k: string)
    requires k in PercentKeys
    ensures NormalizedEntry(pricing, saved, t, k) == Some(JNum(ClampPercent(ParseDecimal(Member(Obj(pricing), k)))))
  {
    assert k !in PriceKeys;
  }

  /** The export price falls back to the saved one, or to 0.05 CHF/kWh. */
  lemma NormalizedExport(pricing: Fields, saved: Value, t: IncentiveTexts)
    ensures var v := ParseDecimal(Member(Obj(pricing), ExportKey));
            Member(Obj(NormalizePricing(pricing, saved, t)), ExportKey)
            == if v.Fin? then Some(JNum(v.r)) else Coalesce(Member(saved, ExportKey), Some(JNum(0.05)))
  {
    NormalizedEntryAt(pricing, saved, t, ExportKey);
    KeyNamesDistinct();
  }

  /** The incentives are rebuilt from their three texts. */
  lemma NormalizedIncentives(pricing: Fields, saved: Value, t: IncentiveTexts)
    ensures Member(Obj(NormalizePricing(pricing, saved, t)), "incentives") == Some(JObj(Incentives(t, saved)))
    ensures Incentives(t, saved).Keys == IncentiveKeys
  {
    NormalizedEntryAt(pricing, saved, t, "incentives");
    KeyNamesDistinct();
  }

  /** Every key the normalisation does not write is kept as it is. */
  lemma NormalizedOthersKept(pricing: Fields, saved: Value, t: IncentiveTexts, k: string)
    requires k !in NormalizedKeys
    ensures Member(Obj(NormalizePricing(pricing, saved, t)), k) == Member(Obj(pricing), k)
  {
    NormalizedEntryAt(pricing, saved, t, k);
  }

  /** A pricing group with readable figures everywhere the form edits one. */
  predicate WellFormedPricing(pricing: Fields) {
    && (forall k :: k in PriceKeys + {ExportKey} ==>
          k in pricing && pricing[k].JNum? && Representable(pricing[k].n))
    && (forall k :: k in PercentKeys ==>
          k in pricing && pricing[k].JNum? && Representable(pricing[k].n)
          && 0.0 <= pricing[k].n <= 100.0)
    && "incentives" in pricing && pricing["incentives"].JObj?
    && pricing["incentives"].fields.Keys == IncentiveKeys
    && (forall k :: k in IncentiveKeys ==>
          pricing["incentives"].fields[k].JNum? && Representable(pricing["incentives"].fields[k].n))
  }

  /** Opening the form and saving it without an edit leaves a well-formed
    * pricing group exactly as it was. */
  lemma {:induction false} PricingOpenSave(pricing: Fields)
    requires WellFormedPricing(pricing)
    ensures NormalizePricing(AsInputs(pricing, PricingTextKeys), Obj(pricing),
                             InitialIncentiveTexts(Member(Obj(pricing), "incentives"))) == pricing
  {
    var form := AsInputs(pricing, PricingTextKeys);
    var t := InitialIncentiveTexts(Member(Obj(pricing), "incentives"));
    var norm := NormalizePricing(form, Obj(pricing), t);
    forall k ensures Member(Obj(norm), k) == Member(Obj(pricing), k) {
      KeptOnOpenSave(pricing, k);
    }
    SameMembersSame(norm, pricing);
  }

  lemma SameMembersSame(a: Fields, b: Fields)
    requires forall k :: Member(Obj(a), k) == Member(Obj(b), k)
    ensures a == b
  {
    assert forall k :: k in a <==> Member(Obj(a), k).Some?;
    assert forall k :: k in b <==> Member(Obj(b), k).Some?;
    assert a.Keys == b.Keys;
    forall k | k in a ensures a[k] == b[k] {
      assert Member(Obj(a), k) == Some(a[k]);
    }
  }

  lemma KeptOnOpenSave(pricing: Fields, k: string)
    requires WellFormedPricing(pricing)
    ensures var t := InitialIncentiveTexts(Member(Obj(pricing), "incentives"));
            Member(Obj(NormalizePricing(AsInputs(pricing, PricingTextKeys), Obj(pricing), t)), k)
            == Member(Obj(pricing), k)
  {
    var t := InitialIncentiveTexts(Member(Obj(pricing), "incentives"));
    if k in PricingTextKeys {
      KeptFigure(pricing, t, k);
    } else if k == "incentives" {
      KeptIncentives(pricing, t);
    } else {
      KeptOther(pricing, t, k);
    }
  }

  /** Readable incentives are saved as they were. */
  lemma KeptIncentives(pricing: Fields, t: IncentiveTexts)
    requires "incentives" in pricing && pricing["incentives"].JObj?
    requires pricing["incentives"].fields.Keys == IncentiveKeys
    requires forall k :: k in IncentiveKeys ==>
               pricing["incentives"].fields[k].JNum? && Representable(pricing["incentives"].fields[k].n)
    requires t == InitialIncentiveTexts(Member(Obj(pricing), "incentives"))
    ensures Member(Obj(NormalizePricing(AsInputs(pricing, PricingTextKeys), Obj(pricing), t)), "incentives")
            == Member(Obj(pricing), "incentives")
  {
    NormalizedIncentives(AsInputs(pricing, PricingTextKeys), Obj(pricing), t);
    IncentivesOpenSave(pricing["incentives"].fields, Obj(pricing));
  }

  /** A key the form neither shows as text nor normalises is saved as it was. */
  lemma KeptOther(pricing: Fields, t: IncentiveTexts, k: string)
    requires k !in PricingTextKeys && k != "incentives"
    ensures Member(Obj(NormalizePricing(AsInputs(pricing, PricingTextKeys), Obj(pricing), t)), k)
            == Member(Obj(pricing), k)
  {
    var form := AsInputs(pricing, PricingTextKeys);
    NormalizedOthersKept(form, Obj(pricing), t, k);
    assert Member(Obj(form), k) == Member(Obj(pricing), k);
  }

  /** A price, share or export figure shown in the form is saved as it was. */
  lemma KeptFigure(pricing: Fields, t: IncentiveTexts, k: string)
    requires k in PricingTextKeys && k in pricing && pricing[k].JNum? && Representable(pricing[k].n)
    requires k in PercentKeys ==> 0.0 <= pricing[k].n <= 100.0
    ensures Member(Obj(NormalizePricing(AsInputs(pricing, PricingTextKeys), Obj(pricing), t)), k)
            == Member(Obj(pricing), k)
  {
    var form := AsInputs(pricing, PricingTextKeys);
    FormFigureReads(pricing, k);
    if k in PriceKeys {
      NormalizedPrice(form, Obj(pricing), t, k);
    } else if k in PercentKeys {
      NormalizedPercent(form, Obj(pricing), t, k);
    } else {
      NormalizedExport(form, Obj(pricing), t);
    }
  }

  /** A figure shown in the form reads back as the stored figure. */
  lemma FormFigureReads(pricing: Fields, k: string)
    requires k in PricingTextKeys && k in pricing && pricing[k].JNum? && Representable(pricing[k].n)
    ensures ParseDecimal(Member(Obj(AsInputs(pricing, PricingTextKeys)), k)) == Fin(pricing[k].n)
  {
    assert Member(Obj(AsInputs(pricing, PricingTextKeys)), k) == Some(JStr(InputText(Some(pricing[k]))));
    InputTextReadsBack(pricing[k].n);
  }

  /** Opening the form and saving it keeps incentives that are all readable
    * figures. */
  lemma IncentivesOpenSave(inc: Fields, saved: Value)
    requires inc.Keys == IncentiveKeys
    requires forall k :: k in inc ==> inc[k].JNum? && Representable(inc[k].n)
    ensures Incentives(InitialIncentiveTexts(Some(JObj(inc))), saved) == inc
  {
    var t := InitialIncentiveTexts(Some(JObj(inc)));
    var r := Incentives(t, saved);
    forall k | k in r ensures r[k] == inc[k] {
      IncentiveKept(inc, t, saved, k);
    }
    SameEntriesSame(r, inc);
  }

  lemma SameEntriesSame(a: Fields, b: Fields)
    requires a.Keys == b.Keys
    requires forall k :: k in a ==> a[k] == b[k]
    ensures a == b
  {
  }

  lemma IncentiveKept(inc: Fields, t: IncentiveTexts, saved: Value, k: string)
    requires k in IncentiveKeys && k in inc && inc[k].JNum? && Representable(inc[k].n)
    requires t == InitialIncentiveTexts(Some(JObj(inc)))
    ensures Incentives(t, saved)[k] == inc[k]
  {
    IncentiveTextShown(inc, t, k);
    PrintedIncentiveKept(inc[k].n, IncentiveText(t, k), IncentiveFallback(saved, k, IncentiveDefault(k)));
  }

  lemma PrintedIncentiveKept(n: real, text: string, fallback: Json)
    requires Representable(n) && text == RealToString(n)
    ensures IncentiveValue(text, fallback) == JNum(n)
  {
    ParseDecimalOfNumber(n);
    assert ParseDecimal(Some(JNum(n))) == ParseDecimalString(text);
  }

  lemma IncentiveTextShown(inc: Fields, t: IncentiveTexts, k: string)
    requires k in IncentiveKeys && k in inc && inc[k].JNum?
    requires t == InitialIncentiveTexts(Some(JObj(inc)))
    ensures IncentiveText(t, k) == RealToString(inc[k].n)
  {
    assert IncentiveText(t, k) == FigureText(Some(JObj(inc)), k, IncentiveDefault(k));
  }

  // ---------------------------------------------------------------------------
  // Saving: `normalizeCurve`

  /** The curve's key names that share a length differ in a letter. */
  lemma CurveKeysDistinct()
    ensures "minKW" != "maxKW" && "priceAtMin" != "priceAtMax"
  {
    assert "minKW"[1] != "maxKW"[1];
    assert "priceAtMin"[8] != "priceAtMax"[8];
  }

  const CurveKeys: set<string> := {"minKW", "priceAtMin", "maxKW", "priceAtMax"}

  /** The figure a curve holds under one of its keys. */
  function CurveFigure(c: Pricing.Curve, k: string): real {
    if k == "minKW" then c.minKW
    else if k == "maxKW" then c.maxKW
    else if k == "priceAtMin" then c.priceAtMin
    else c.priceAtMax
  }

  /** `{ minKW, priceAtMin, maxKW, priceAtMax }`: a curve as it is stored. */
  function CurveObject(c: Pricing.Curve): Fields {
    map k | k in CurveKeys :: JNum(CurveFigure(c, k))
  }

  /** The stored curve has the four keys, each holding its figure. */
  lemma CurveObjectFields(c: Pricing.Curve)
    ensures CurveObject(c).Keys == CurveKeys
    ensures forall k :: k in CurveObject(c) ==> CurveObject(c)[k] == JNum(CurveFigure(c, k))
  {
  }

  /** A stored curve with nonzero, printable figures reads back as itself. */
  lemma {:induction false} CurveObjectRead(c: Pricing.Curve)
    requires c.minKW != 0.0 && c.maxKW != 0.0 && c.priceAtMin != 0.0 && c.priceAtMax != 0.0
    requires Representable(c.minKW) && Representable(c.maxKW)
    requires Representable(c.priceAtMin) && Representable(c.priceAtMax)
    ensures Pricing.ReadCurve(Obj(CurveObject(c))) == c
  {
    var m := CurveObject(c);
    CurveObjectFields(c);
    CurveKeysDistinct();
    assert m["minKW"] == JNum(c.minKW) && m["maxKW"] == JNum(c.maxKW);
    assert m["priceAtMin"] == JNum(c.priceAtMin) && m["priceAtMax"] == JNum(c.priceAtMax);
    FigureRead(m, "minKW", 8.0);
    FigureRead(m, "maxKW", 200.0);
    FigureRead(m, "priceAtMin", 2000.0);
    FigureRead(m, "priceAtMax", 1000.0);
  }

  /** `normalizeCurve`'s figures: the kW thresholds read with `parseInt`, the
    * prices with the decimal-comma parse, each defaulted by `||` to 8 kW,
    * 200 kW, 2000 CHF/kW and 1000 CHF/kW. */
  function NormalizedCurve(t: CurveTexts): (c: Pricing.Curve)
    ensures c.minKW == ParseInt(t.minKW).Or(8.0) && c.maxKW == ParseInt(t.maxKW).Or(200.0)
    ensures c.priceAtMin == ParseDecimalString(t.priceAtMin).Or(2000.0)
    ensures c.priceAtMax == ParseDecimalString(t.priceAtMax).Or(1000.0)
    ensures IsInt(c.minKW) && IsInt(c.maxKW)
    ensures c.minKW != 0.0 && c.maxKW != 0.0 && c.priceAtMin != 0.0 && c.priceAtMax != 0.0
  {
    Pricing.Curve(ParseInt(t.minKW).Or(8.0), ParseInt(t.maxKW).Or(200.0),
                  ParseDecimalString(t.priceAtMin).Or(2000.0), ParseDecimalString(t.priceAtMax).Or(1000.0))
  }

  /** `normalizeCurve()`: the curve the form saves into the pricing group. */
  function NormalizeCurve(t: CurveTexts): Fields {
    CurveObject(NormalizedCurve(t))
  }

  /** A nonzero figure stored in a curve is read as it is. */
  lemma FigureRead(fields: Fields, name: string, fallback: real)
    requires name in fields && fields[name].JNum? && fields[name].n != 0.0
    requires Representable(fields[name].n) && fallback != 0.0
    ensures Pricing.CurveField(Obj(fields), name, fallback) == fields[name].n
  {
    assert Member(Obj(fields), name) == Some(fields[name]);
    ParseDecimalOfNumber(fields[name].n);
  }

  /** The curve the form saves is the curve the pricer reads. */
  lemma SavedCurveRead(t: CurveTexts)
    requires Representable(NormalizedCurve(t).priceAtMin)
    requires Representable(NormalizedCurve(t).priceAtMax)
    ensures Pricing.ReadCurve(Obj(NormalizeCurve(t))) == NormalizedCurve(t)
  {
    var c := NormalizedCurve(t);
    IntegersRepresentable(c.minKW.Floor);
    IntegersRepresentable(c.maxKW.Floor);
    CurveObjectRead(c);
  }

  /** A curve with thresholds of at least 1 kW and nonzero prices: the shape
    * the form can hand back. */
  predicate CurveFigures(curve: Fields) {
    && (forall k :: k in CurveKeys ==> k in curve && curve[k].JNum? && Representable(curve[k].n))
    && curve["minKW"].n >= 1.0 && curve["maxKW"].n >= 1.0
    && curve["priceAtMin"].n != 0.0 && curve["priceAtMax"].n != 0.0
  }

  /** Opening the form and saving it keeps the prices and whole thresholds
    * of a curve, and cuts fractional thresholds down to whole kW. */
  lemma {:induction false} CurveOpenSave(curve: Fields)
    requires CurveFigures(curve)
    ensures NormalizedCurve(InitialCurveTexts(Obj(curve)))
            == Pricing.Curve(curve["minKW"].n.Floor as real, curve["maxKW"].n.Floor as real,
                             curve["priceAtMin"].n, curve["priceAtMax"].n)
  {
    var t := InitialCurveTexts(Obj(curve));
    assert t.minKW == RealToString(curve["minKW"].n);
    assert t.maxKW == RealToString(curve["maxKW"].n);
    assert t.priceAtMin == RealToString(curve["priceAtMin"].n);
    assert t.priceAtMax == RealToString(curve["priceAtMax"].n);
    ParseIntOfPrinted(curve["minKW"].n);
    ParseIntOfPrinted(curve["maxKW"].n);
    ParseDecimalOfNumber(curve["priceAtMin"].n);
    ParseDecimalOfNumber(curve["priceAtMax"].n);
  }

  // ---------------------------------------------------------------------------
  // Identifiers the normalisers read

  /** The names the panel's handlers can see that this model reads: the
    * state of lines 713-748 of src/app.jsx and the curve pricing function
    * of line 114. */
  const PanelScope: set<string> :=
    {"local", "pvSizesText", "curveEnabled", "curveMinKW", "setCurveMinKW", "curvePriceAtMin", "curveMaxKW",
     "curvePriceAtMax", "federalIncentive", "cantonalIncentive", "municipalIncentive", "pricePerKWFromCurve"}

  /** None of the four misspelt names is declared; the ones that share a
    * length with a declared name differ from it in the first letter. */
  lemma MisspeltUndeclared()
    ensures "municipalInceptives" !in PanelScope && "curcurveMinKW" !in PanelScope
    ensures "setCurcurveMinKW" !in PanelScope && "pricePerKWFromCurcurve" !in PanelScope
  {
    assert "municipalInceptives"[0] != "pricePerKWFromCurve"[0];
    assert "curcurveMinKW"[0] != "setCurveMinKW"[0];
    assert "setCurcurveMinKW"[0] != "federalIncentive"[0];
  }

  /** `normalizePricing` with the municipal incentive's text read through
    * the identifier `name`. */
  function NormalizePricingReading(name: string, pricing: Fields, saved: Value, t: IncentiveTexts): (r: Result<Fields>)
    ensures r.Success? <==> name in PanelScope
  {
    match Identifier(PanelScope, name, t.municipal)
    case Failure(e) => Failure(e)
    case Success(m) => Success(NormalizePricing(pricing, saved, t.(municipal := m)))
  }

  /** As written, line 767 reads `municipalInceptives`, which nothing
    * declares: every normalisation of the pricing throws. */
  lemma PricingReadThrows(pricing: Fields, saved: Value, t: IncentiveTexts)
    ensures NormalizePricingReading("municipalInceptives", pricing, saved, t)
            == Failure(ReferenceError("municipalInceptives"))
  {
    MisspeltUndeclared();
  }

  /** Read through the state the panel declares, `municipalIncentive`, it
    * is the normalisation `NormalizePricing` states. */
  lemma PricingReadNormalizes(pricing: Fields, saved: Value, t: IncentiveTexts)
    ensures NormalizePricingReading("municipalIncentive", pricing, saved, t)
            == Success(NormalizePricing(pricing, saved, t))
  {
  }

  /** `normalizeCurve` with the minimum threshold's text read through the
    * identifier `name`. */
  function NormalizeCurveReading(name: string, t: CurveTexts): (r: Result<Fields>)
    ensures r.Success? <==> name in PanelScope
  {
    match Identifier(PanelScope, name, t.minKW)
    case Failure(e) => Failure(e)
    case Success(m) => Success(NormalizeCurve(t.(minKW := m)))
  }

  /** As written, line 779 reads `curcurveMinKW`, which nothing declares:
    * every normalisation of the curve throws. */
  lemma CurveReadThrows(t: CurveTexts)
    ensures NormalizeCurveReading("curcurveMinKW", t) == Failure(ReferenceError("curcurveMinKW"))
  {
    MisspeltUndeclared();
  }

  /** Read through the state the panel declares, `curveMinKW`, it is the
    * normalisation `NormalizeCurve` states. */
  lemma CurveReadNormalizes(t: CurveTexts)
    ensures NormalizeCurveReading("curveMinKW", t) == Success(NormalizeCurve(t))
  {
  }
}
