/**
 * The two copies of the service line pricer in src/ai/AIWizard.jsx: the one
 * the preview panel and "add to list" use (`computePreviewFromAnswers`,
 * reading catalog figures with `Number(x ?? 0)`) and the `preview` memo
 * (reading them with the decimal-comma `num`). Both pick a catalog entry by
 * the answers, add up its minute and material figures, price the labour
 * from an hourly rate and add travel, the call-out fee and VAT.
 */
module WizardPreview {
  import opened Wrappers
  import opened JsNumbers
  import opened JsValues
  import opened WizardTree
  import opened WizardAnswers

  /** `{}` */
  const Empty: Value := Obj(map[])

  /** `x?.[v]` with a property name computed from a value. */
  function At(x: Value, v: Value): Value {
    Member(x, PropertyKey(v))
  }

  function Answer(answers: Fields, k: string): Value {
    Member(Obj(answers), k)
  }

  function Text(s: string): Value {
    Some(JStr(s))
  }

  /** Reading a property through `x || {}` reads it from `x`. */
  lemma MemberOfOrEmpty(x: Value, k: string)
    ensures Member(OrElse(x, Empty), k) == Member(x, k)
  {
  }

  // ---------------------------------------------------------------------------
  // The catalog figures a category reads

  /** The catalog entry a category is priced from, selected by its answers. */
  function CatalogNode(key: string, answers: Fields, catalog: Value): Value {
    if key == "luce" then At(Member(catalog, key), Answer(answers, "tipoLuce"))
    else if key == "prese_interruttori" then At(Member(catalog, key), Answer(answers, "tipoPunto"))
    else if key == "wallbox" then At(Member(catalog, key), Answer(answers, "potenza"))
    else if key == "altro" then Member(Member(catalog, key), "custom")
    else At(Member(catalog, key), Answer(answers, "tipo"))
  }

  /** The figures added up for one unit: minutes of team work, and material
    * prices in CHF. */
  datatype Figures = Figures(minutes: seq<Value>, materials: seq<Value>)

  /** Lights add the context add-on to the entry's minutes and to the price
    * of the chosen style; wallboxes add the distance band to the price of
    * the chosen type; every other category reads the entry's minutes and
    * its base material price. */
  function UnitFigures(key: string, node: Value, answers: Fields): Figures {
    if key == "luce" then
      var addon := At(Member(node, "contextAddons"), Answer(answers, "ambiente"));
      Figures([Member(node, "minutesTeamPerUnit"), Member(addon, "extraMinutes")],
              [Member(At(Member(node, "materials"), Answer(answers, "stile")), "unitCHF"),
               Member(addon, "extraCHF")])
    else if key == "wallbox" then
      Figures([Member(node, "minutesTeamPerUnit")],
              [Member(At(Member(node, "materials"), Answer(answers, "tipoWB")), "unitCHF"),
               At(Member(node, "distanceBandCHF"), Answer(answers, "distanza"))])
    else
      Figures([Member(node, "minutesTeamPerUnit")],
              [Member(Member(Member(node, "materials"), "base"), "unitCHF")])
  }

  /** `Number(x ?? 0)` */
  function FigureA(x: Value): Num {
    ToNumber(Coalesce(x, Some(JNum(0.0))))
  }

  /** `num(x)` */
  function FigureB(x: Value): real {
    NumOf(x, 0.0)
  }

  function SumA(xs: seq<Value>): Num {
    if xs == [] then Fin(0.0) else Add(FigureA(xs[0]), SumA(xs[1..]))
  }

  function SumB(xs: seq<Value>): real {
    if xs == [] then 0.0 else FigureB(xs[0]) + SumB(xs[1..])
  }

  lemma SumOfOne(a: Value)
    ensures SumA([a]) == FigureA(a)
    ensures SumB([a]) == FigureB(a)
  {
    assert [a][1..] == [];
  }

  lemma SumOfTwo(a: Value, b: Value)
    ensures SumA([a, b]) == Add(FigureA(a), FigureA(b))
    ensures SumB([a, b]) == FigureB(a) + FigureB(b)
  {
    assert [a, b][1..] == [b];
    SumOfOne(b);
  }

  // ---------------------------------------------------------------------------
  // computePreviewFromAnswers

  /** The settings the first copy reads, each with `Number(x ?? 0)`. */
  datatype RatesA = RatesA(vatPct: Num, hourly: Num, travelPerMin: Num, calloutFee: Num,
                           autoCallout: Value, defaultOneWay: Num)

  function ReadRatesA(settings: Value): RatesA {
    var config := Member(settings, "aiConfig");
    var rates := Member(config, "rates");
    RatesA(FigureA(Member(Member(settings, "pricing"), "vatPercent")),
           FigureA(Member(rates, "hourlyWorker")),
           FigureA(Member(rates, "travelRatePerMinute")),
           FigureA(Member(rates, "calloutFee")),
           Member(config, "autoApplyCallout"),
           FigureA(Member(Member(config, "defaults"), "travelMinutesOneWayLocal")))
  }

  /** The line the first copy computes; NaN spreads through its arithmetic. */
  datatype LineA = LineA(description: string, qta: real, minutesPU: Num, materialsPU: Num,
                         laborPU: Num, netPU: Num, travelCHF: Num, calloutCHF: Num,
                         vatPct: Num, subtotal: Num, total: Num)

  /** `Number(answers?.travelMinutes ?? (defaultOneWay * 2))`: the round
    * trip, by default twice the one-way time. */
  function TravelMinutesA(answers: Fields, r: RatesA): Num {
    var t := Answer(answers, "travelMinutes");
    if IsNullish(t) then Mul(r.defaultOneWay, Fin(2.0)) else ToNumber(t)
  }

  /** `answers?.descrizione?.trim()`, with no text as the empty string. */
  function TrimmedText(v: Value): string {
    if v.Some? && v.value.JStr? then Trim(v.value.s) else ""
  }

  /** The leading word of a simple category's description. */
  function TitleA(key: string): string {
    if key == "telefonia" then "Telefonia"
    else if key == "videosorveglianza" then "Videosorveglianza"
    else if key == "domotica" then "Domotica"
    else "Riparazioni"
  }

  /** The description before the quantity: the category word and the labels
    * of the chosen answers, joined with " · ". */
  function DescriptionA(c: Category, answers: Fields): string {
    if c.key == "luce" then
      JoinParts([Text("Luce"), LabelOf(ChoicesAt(c, 0), Answer(answers, "tipoLuce")),
                 LabelOf(ChoicesAt(c, 1), Answer(answers, "ambiente")),
                 LabelOf(ChoicesAt(c, 2), Answer(answers, "stile"))])
    else if c.key == "prese_interruttori" then
      JoinParts([Text("Punto"), LabelOf(ChoicesAt(c, 0), Answer(answers, "tipoPunto"))])
    else if c.key == "wallbox" then
      JoinParts([Text("Wallbox"), Text(ToJsString(Answer(answers, "potenza")) + " kW"),
                 LabelOf(ChoicesAt(c, 1), Answer(answers, "tipoWB")),
                 Text(ToJsString(Answer(answers, "distanza")) + " m")])
    else if c.key == "altro" then
      var d := TrimmedText(Answer(answers, "descrizione"));
      if d != "" then "Altro · " + d else "Altro (personalizzato)"
    else
      JoinParts([Text(TitleA(c.key)), LabelOf(ChoicesAt(c, 0), Answer(answers, "tipo"))])
  }

  /** Labour, net unit price, travel, call-out, subtotal and VAT for one
    * priced unit. */
  function PricedA(descr: string, qta: real, minutes: Num, materials: Num, r: RatesA,
                   travelMinutes: Num, callout: bool): LineA
  {
    var labor := Mul(Div(minutes, Fin(60.0)), r.hourly);
    var net := Add(labor, materials);
    var travel := Mul(r.travelPerMin, Max(Fin(0.0), travelMinutes));
    var fee := if callout then r.calloutFee else Fin(0.0);
    var sub := Add(Add(Mul(net, Fin(qta)), travel), fee);
    LineA(WithQuantity(descr, qta), qta, minutes, materials, labor, net, travel, fee, r.vatPct,
          sub, Add(sub, Mul(sub, Div(r.vatPct, Fin(100.0)))))
  }

  /** One unit of the selected category: minutes, materials and the
    * description before the quantity. */
  datatype UnitA = UnitA(minutes: Num, materials: Num, descr: string)

  function UnitOfA(c: Category, answers: Fields, catalog: Value): UnitA {
    var f := UnitFigures(c.key, CatalogNode(c.key, answers, catalog), answers);
    UnitA(SumA(f.minutes), SumA(f.materials), DescriptionA(c, answers))
  }

  /** What `computePreviewFromAnswers` returns: nothing without a category or
    * for a category the pricer does not know, else the priced line. */
  function PreviewA(answers: Fields, category: Option<Category>, catalog: Value, settings: Value)
    : Option<LineA>
  {
    if category.None? || category.value.key !in HandledKeys then None
    else
      var u := UnitOfA(category.value, answers, catalog);
      var r := ReadRatesA(settings);
      Some(PricedA(u.descr, Quantity(answers), u.minutes, u.materials, r, TravelMinutesA(answers, r),
                   CalloutApplied(Answer(answers, "applyCallout"), r.autoCallout)))
  }

  /** `computePreviewFromAnswers(answers, category, aiCatalog)` */
  method ComputePreviewFromAnswers(answers: Fields, category: Option<Category>, catalog: Value,
                                   settings: Value) returns (p: Option<LineA>)
    ensures p == PreviewA(answers, category, catalog, settings)
  {
    if category.None? {
      return None;
    }
    var c := category.value;
    var unit := CategoryUnitA(c, answers, catalog);
    if unit.None? {
      return None;
    }
    var line := PriceUnitA(unit.value, answers, settings);
    return Some(line);
  }

  /** The rates `computePreviewFromAnswers` reads and the arithmetic after
    * its `switch`; reading the rates first, as the source does, changes
    * nothing since the reads have no effect. */
  method PriceUnitA(unit: UnitA, answers: Fields, settings: Value) returns (line: LineA)
    ensures var r := ReadRatesA(settings);
            line == PricedA(unit.descr, Quantity(answers), unit.minutes, unit.materials, r,
                            TravelMinutesA(answers, r), CalloutApplied(Answer(answers, "applyCallout"), r.autoCallout))
  {
    var config := Member(settings, "aiConfig");
    var vatPct := ToNumber(Coalesce(Member(Member(settings, "pricing"), "vatPercent"), Some(JNum(0.0))));
    var hourly := ToNumber(Coalesce(Member(Member(config, "rates"), "hourlyWorker"), Some(JNum(0.0))));
    var travelPerMin := ToNumber(Coalesce(Member(Member(config, "rates"), "travelRatePerMinute"), Some(JNum(0.0))));
    var calloutFee := ToNumber(Coalesce(Member(Member(config, "rates"), "calloutFee"), Some(JNum(0.0))));
    var defaultOneWay := ToNumber(Coalesce(Member(Member(config, "defaults"), "travelMinutesOneWayLocal"), Some(JNum(0.0))));
    var rates := RatesA(vatPct, hourly, travelPerMin, calloutFee, Member(config, "autoApplyCallout"), defaultOneWay);
    assert rates == ReadRatesA(settings);
    var applyCallout := CalloutApplied(Answer(answers, "applyCallout"), rates.autoCallout);
    var qta := RMax(1.0, NumOf(Answer(answers, "quantita"), 1.0));
    var travelMinutesTotal := Answer(answers, "travelMinutes");
    var travelTotal := if IsNullish(travelMinutesTotal) then Mul(rates.defaultOneWay, Fin(2.0))
                       else ToNumber(travelMinutesTotal);
    line := LineTotalsA(unit.descr, qta, unit.minutes, unit.materials, rates, travelTotal, applyCallout);
  }

  /** The arithmetic after the `switch`: labour from minutes and the hourly
    * rate, travel, the callout fee, the subtotal, VAT and the total. */
  method LineTotalsA(descr0: string, qta: real, minutesPU: Num, materialsPU: Num, rates: RatesA,
                     travelTotal: Num, applyCallout: bool) returns (line: LineA)
    ensures line == PricedA(descr0, qta, minutesPU, materialsPU, rates, travelTotal, applyCallout)
  {
    var descr := descr0;
    var laborPU := Mul(Div(minutesPU, Fin(60.0)), rates.hourly);
    var netPU := Add(laborPU, materialsPU);
    var travelCHF := Mul(rates.travelPerMin, Max(Fin(0.0), travelTotal));
    var calloutCHF := if applyCallout then rates.calloutFee else Fin(0.0);
    var subTot := Add(Add(Mul(netPU, Fin(qta)), travelCHF), calloutCHF);
    var vat := Mul(subTot, Div(rates.vatPct, Fin(100.0)));
    var tot := Add(subTot, vat);
    if qta > 1.0 {
      descr := descr + " × " + RealToString(qta);
    }
    return LineA(descr, qta, minutesPU, materialsPU, laborPU, netPU, travelCHF, calloutCHF,
                 rates.vatPct, subTot, tot);
  }

  /** The `switch (category.key)` of `computePreviewFromAnswers`: the unit's
    * minutes, materials and description, or nothing for an unknown key. */
  method CategoryUnitA(c: Category, answers: Fields, catalog: Value) returns (u: Option<UnitA>)
    ensures u == if c.key in HandledKeys then Some(UnitOfA(c, answers, catalog)) else None
  {
    var unit;
    if c.key == "luce" {
      unit := LightUnitA(c, answers, catalog);
    } else if c.key == "prese_interruttori" || c.key == "telefonia" || c.key == "videosorveglianza"
              || c.key == "domotica" || c.key == "riparazioni" {
      unit := EntryUnitA(c, answers, catalog);
    } else if c.key == "wallbox" {
      unit := WallboxUnitA(c, answers, catalog);
    } else if c.key == "altro" {
      unit := CustomUnitA(c, answers, catalog);
    } else {
      assert c.key !in HandledKeys;
      return None;
    }
    return Some(unit);
  }

  /** The `luce` case: the entry's minutes and the style's price, each plus
    * the room's add-on. */
  method LightUnitA(c: Category, answers: Fields, catalog: Value) returns (unit: UnitA)
    requires c.key == "luce"
    ensures unit == UnitOfA(c, answers, catalog)
  {
    var tipo := Answer(answers, "tipoLuce");
    var stile := Answer(answers, "stile");
    var ctx := Answer(answers, "ambiente");
    var node := OrElse(At(Member(catalog, "luce"), tipo), Empty);
    var ctxAdd := OrElse(At(Member(node, "contextAddons"), ctx), Empty);
    var matTier := At(Member(node, "materials"), stile);
    var minutesPU := Add(FigureA(Member(node, "minutesTeamPerUnit")), FigureA(Member(ctxAdd, "extraMinutes")));
    var materialsPU := Add(FigureA(Member(matTier, "unitCHF")), FigureA(Member(ctxAdd, "extraCHF")));
    var descr := JoinParts([Text("Luce"), LabelOf(ChoicesAt(c, 0), tipo), LabelOf(ChoicesAt(c, 1), ctx),
                            LabelOf(ChoicesAt(c, 2), stile)]);
    LuceFiguresA(answers, catalog);
    return UnitA(minutesPU, materialsPU, descr);
  }

  /** The `prese_interruttori` case and the four simple ones: the entry
    * chosen by one answer, its minutes and its base material price. */
  method EntryUnitA(c: Category, answers: Fields, catalog: Value) returns (unit: UnitA)
    requires c.key == "prese_interruttori" || c.key == "telefonia" || c.key == "videosorveglianza"
             || c.key == "domotica" || c.key == "riparazioni"
    ensures unit == UnitOfA(c, answers, catalog)
  {
    var minutesPU;
    var materialsPU;
    var descr;
    if c.key == "prese_interruttori" {
      var t := Answer(answers, "tipoPunto");
      var node := OrElse(At(Member(catalog, "prese_interruttori"), t), Empty);
      minutesPU := FigureA(Member(node, "minutesTeamPerUnit"));
      materialsPU := FigureA(Member(Member(Member(node, "materials"), "base"), "unitCHF"));
      descr := JoinParts([Text("Punto"), LabelOf(ChoicesAt(c, 0), t)]);
    } else {
      var t := Answer(answers, "tipo");
      var node := OrElse(At(Member(catalog, c.key), t), Empty);
      minutesPU := FigureA(Member(node, "minutesTeamPerUnit"));
      materialsPU := FigureA(Member(Member(Member(node, "materials"), "base"), "unitCHF"));
      descr := JoinParts([Text(TitleA(c.key)), LabelOf(ChoicesAt(c, 0), t)]);
    }
    SimpleFiguresA(c.key, answers, catalog);
    return UnitA(minutesPU, materialsPU, descr);
  }

  /** The `wallbox` case: the entry by power, the price of the chosen type
    * plus the distance band. */
  method WallboxUnitA(c: Category, answers: Fields, catalog: Value) returns (unit: UnitA)
    requires c.key == "wallbox"
    ensures unit == UnitOfA(c, answers, catalog)
  {
    assert c.key != "luce" && c.key != "prese_interruttori";
    var pwr := Answer(answers, "potenza");
    var kind := Answer(answers, "tipoWB");
    var dist := Answer(answers, "distanza");
    var node := OrElse(At(Member(catalog, "wallbox"), pwr), Empty);
    var minutesPU := FigureA(Member(node, "minutesTeamPerUnit"));
    var mat := FigureA(Member(At(Member(node, "materials"), kind), "unitCHF"));
    var distCHF := FigureA(At(Member(node, "distanceBandCHF"), dist));
    var materialsPU := Add(mat, distCHF);
    var descr := JoinParts([Text("Wallbox"), Text(ToJsString(pwr) + " kW"), LabelOf(ChoicesAt(c, 1), kind),
                            Text(ToJsString(dist) + " m")]);
    WallboxFiguresA(answers, catalog);
    return UnitA(minutesPU, materialsPU, descr);
  }

  /** The `altro` case: the custom entry and the customer's own words. */
  method CustomUnitA(c: Category, answers: Fields, catalog: Value) returns (unit: UnitA)
    requires c.key == "altro"
    ensures unit == UnitOfA(c, answers, catalog)
  {
    assert c.key != "luce" && c.key != "prese_interruttori" && c.key != "wallbox";
    var custom := Member(Member(catalog, "altro"), "custom");
    var minutesPU := FigureA(Member(custom, "minutesTeamPerUnit"));
    var materialsPU := FigureA(Member(Member(Member(custom, "materials"), "base"), "unitCHF"));
    var descUser := TrimmedText(Answer(answers, "descrizione"));
    var descr := if descUser != "" then "Altro · " + descUser else "Altro (personalizzato)";
    SimpleFiguresA(c.key, answers, catalog);
    return UnitA(minutesPU, materialsPU, descr);
  }

  lemma LuceFiguresA(answers: Fields, catalog: Value)
    ensures var node := OrElse(CatalogNode("luce", answers, catalog), Empty);
            var ctxAdd := OrElse(At(Member(node, "contextAddons"), Answer(answers, "ambiente")), Empty);
            var f := UnitFigures("luce", CatalogNode("luce", answers, catalog), answers);
            SumA(f.minutes) == Add(FigureA(Member(node, "minutesTeamPerUnit")), FigureA(Member(ctxAdd, "extraMinutes")))
            && SumA(f.materials) == Add(FigureA(Member(At(Member(node, "materials"), Answer(answers, "stile")), "unitCHF")),
                                        FigureA(Member(ctxAdd, "extraCHF")))
  {
    var n := CatalogNode("luce", answers, catalog);
    MemberOfOrEmpty(n, "contextAddons");
    MemberOfOrEmpty(n, "materials");
    MemberOfOrEmpty(n, "minutesTeamPerUnit");
    var addon := At(Member(n, "contextAddons"), Answer(answers, "ambiente"));
    MemberOfOrEmpty(addon, "extraMinutes");
    MemberOfOrEmpty(addon, "extraCHF");
    var f := UnitFigures("luce", n, answers);
    SumOfTwo(f.minutes[0], f.minutes[1]);
    SumOfTwo(f.materials[0], f.materials[1]);
  }

  lemma WallboxFiguresA(answers: Fields, catalog: Value)
    ensures var node := OrElse(CatalogNode("wallbox", answers, catalog), Empty);
            var f := UnitFigures("wallbox", CatalogNode("wallbox", answers, catalog), answers);
            SumA(f.minutes) == FigureA(Member(node, "minutesTeamPerUnit"))
            && SumA(f.materials) == Add(FigureA(Member(At(Member(node, "materials"), Answer(answers, "tipoWB")), "unitCHF")),
                                        FigureA(At(Member(node, "distanceBandCHF"), Answer(answers, "distanza"))))
  {
    var n := CatalogNode("wallbox", answers, catalog);
    MemberOfOrEmpty(n, "materials");
    MemberOfOrEmpty(n, "minutesTeamPerUnit");
    MemberOfOrEmpty(n, "distanceBandCHF");
    var f := UnitFigures("wallbox", n, answers);
    SumOfOne(f.minutes[0]);
    SumOfTwo(f.materials[0], f.materials[1]);
  }

  lemma SimpleFiguresA(key: string, answers: Fields, catalog: Value)
    requires key != "luce" && key != "wallbox"
    ensures var node := if key == "altro" then CatalogNode(key, answers, catalog)
                        else OrElse(CatalogNode(key, answers, catalog), Empty);
            var f := UnitFigures(key, CatalogNode(key, answers, catalog), answers);
            SumA(f.minutes) == FigureA(Member(node, "minutesTeamPerUnit"))
            && SumA(f.materials) == FigureA(Member(Member(Member(node, "materials"), "base"), "unitCHF"))
  {
    var n := CatalogNode(key, answers, catalog);
    MemberOfOrEmpty(n, "materials");
    MemberOfOrEmpty(n, "minutesTeamPerUnit");
    var f := UnitFigures(key, n, answers);
    SumOfOne(f.minutes[0]);
    SumOfOne(f.materials[0]);
  }

  // ---------------------------------------------------------------------------
  // The preview memo

  /** The rates the memo reads, each with `num(x, 0)`. */
  datatype RatesB = RatesB(hourly: real, travelPerMin: real, calloutFee: real)

  function ReadRatesB(aiConfig: Value): RatesB {
    var rates := Member(aiConfig, "rates");
    RatesB(FigureB(Member(rates, "hourlyWorker")), FigureB(Member(rates, "travelRatePerMinute")),
           FigureB(Member(rates, "calloutFee")))
  }

  /** The line the memo computes: every figure has been read with `num`, so
    * only the VAT rate can still be NaN. */
  datatype LineB = LineB(description: string, qty: real, minutesPerUnit: real, materialsUnit: real,
                         laborPerUnitCHF: real, netPerUnit: real, travelCHF: real, calloutCHF: real,
                         vatPct: Num, subtotal: real, total: Num)

  /** `` `${x.label || fallback}` `` */
  function LabelOr(x: Value, fallback: Value): string {
    ToJsString(OrElse(Member(x, "label"), fallback))
  }

  /** The leading words of a simple category's description in the memo. */
  function TitleB(key: string): string {
    if key == "prese_interruttori" then "Prese/Interruttori"
    else if key == "telefonia" then "Telefonia/Internet"
    else if key == "videosorveglianza" then "Videosorveglianza"
    else if key == "domotica" then "Domotica"
    else "Riparazioni"
  }

  /** The memo's description: catalog labels where the entry has them, the
    * raw answers otherwise; no quantity is appended. */
  function DescriptionB(key: string, cfg: Value, answers: Fields): string {
    if key == "luce" then
      var stile := Answer(answers, "stile");
      "Luce · " + LabelOr(cfg, Answer(answers, "tipoLuce")) + " (" + ToJsString(Answer(answers, "ambiente"))
        + ", " + LabelOr(At(Member(cfg, "materials"), stile), stile) + ")"
    else if key == "wallbox" then
      var kind := Answer(answers, "tipoWB");
      "Wallbox " + ToJsString(Answer(answers, "potenza")) + " kW · "
        + LabelOr(At(Member(cfg, "materials"), kind), kind)
        + " (distanza " + ToJsString(Answer(answers, "distanza")) + " m)"
    else if key == "altro" then
      var d := TrimmedText(Answer(answers, "descrizione"));
      "Altro · " + (if d != "" then d else LabelOr(cfg, Text("Intervento")))
    else if key == "prese_interruttori" then
      TitleB(key) + " · " + LabelOr(cfg, Answer(answers, "tipoPunto"))
    else
      TitleB(key) + " · " + LabelOr(cfg, Answer(answers, "tipo"))
  }

  /** Labour, net unit price, travel (from `num(travelMinutes, 0)`, the
    * round-trip minutes held in state), call-out, subtotal and VAT. */
  function PricedB(descr: string, qty: real, minutes: real, materials: real, r: RatesB,
                   travelRead: real, callout: bool, vatPct: Num): LineB
  {
    var labor := minutes / 60.0 * r.hourly;
    var net := labor + materials;
    var travel := r.travelPerMin * RMax(0.0, travelRead);
    var fee := if callout then r.calloutFee else 0.0;
    var sub := net * qty + travel + fee;
    LineB(descr, qty, minutes, materials, labor, net, travel, fee, vatPct, sub,
          Add(Fin(sub), Mul(Fin(sub), Div(vatPct, Fin(100.0)))))
  }

  datatype UnitB = UnitB(minutes: real, materials: real, descr: string)

  function UnitOfB(key: string, answers: Fields, catalog: Value): UnitB {
    var node := CatalogNode(key, answers, catalog);
    var f := UnitFigures(key, node, answers);
    UnitB(SumB(f.minutes), SumB(f.materials), DescriptionB(key, node, answers))
  }

  /** The memo prices a selected, known category and, except for `altro`,
    * only when the catalog has an entry for the chosen answer. */
  predicate PricedByB(activeCat: Option<string>, answers: Fields, catalog: Value) {
    && activeCat.Some? && activeCat.value in HandledKeys
    && (activeCat.value == "altro" || Truthy(CatalogNode(activeCat.value, answers, catalog)))
  }

  /** What the `preview` memo holds. */
  function PreviewB(activeCat: Option<string>, answers: Fields, catalog: Value, aiConfig: Value,
                    travelMinutes: Num, applyCallout: bool, vatPct: Num): Option<LineB>
  {
    if !PricedByB(activeCat, answers, catalog) then None
    else
      var u := UnitOfB(activeCat.value, answers, catalog);
      Some(PricedB(u.descr, Quantity(answers), u.minutes, u.materials, ReadRatesB(aiConfig),
                   NumOfNumber(travelMinutes, 0.0), applyCallout, vatPct))
  }

  /** `preview` is nothing exactly when the memo does not price the state. */
  lemma PreviewBNone(activeCat: Option<string>, answers: Fields, catalog: Value, aiConfig: Value,
                     travelMinutes: Num, applyCallout: bool, vatPct: Num)
    requires !PricedByB(activeCat, answers, catalog)
    ensures PreviewB(activeCat, answers, catalog, aiConfig, travelMinutes, applyCallout, vatPct) == None
  {
  }

  lemma PreviewBSome(activeCat: Option<string>, answers: Fields, catalog: Value, aiConfig: Value,
                     travelMinutes: Num, applyCallout: bool, vatPct: Num, u: UnitB)
    requires PricedByB(activeCat, answers, catalog) && u == UnitOfB(activeCat.value, answers, catalog)
    ensures PreviewB(activeCat, answers, catalog, aiConfig, travelMinutes, applyCallout, vatPct)
            == Some(PricedB(u.descr, Quantity(answers), u.minutes, u.materials, ReadRatesB(aiConfig),
                            NumOfNumber(travelMinutes, 0.0), applyCallout, vatPct))
  {
  }

  /** The `preview` memo, over the component state it depends on. */
  method PreviewMemo(activeCat: Option<string>, answers: Fields, catalog: Value, aiConfig: Value,
                     travelMinutes: Num, applyCallout: bool, vatPct: Num) returns (p: Option<LineB>)
    ensures p == PreviewB(activeCat, answers, catalog, aiConfig, travelMinutes, applyCallout, vatPct)
  {
    if activeCat.None? || activeCat.value == "" {
      PreviewBNone(activeCat, answers, catalog, aiConfig, travelMinutes, applyCallout, vatPct);
      return None;
    }
    var qty := RMax(1.0, NumOf(Answer(answers, "quantita"), 1.0));
    var hourly := NumOf(Member(Member(aiConfig, "rates"), "hourlyWorker"), 0.0);
    var travelPerMin := NumOf(Member(Member(aiConfig, "rates"), "travelRatePerMinute"), 0.0);
    var calloutFee := NumOf(Member(Member(aiConfig, "rates"), "calloutFee"), 0.0);
    var unit := CategoryUnitB(activeCat.value, answers, catalog);
    if unit.None? {
      PreviewBNone(activeCat, answers, catalog, aiConfig, travelMinutes, applyCallout, vatPct);
      return None;
    }
    PreviewBSome(activeCat, answers, catalog, aiConfig, travelMinutes, applyCallout, vatPct, unit.value);
    var line := PriceUnitB(unit.value, qty, RatesB(hourly, travelPerMin, calloutFee),
                           NumOfNumber(travelMinutes, 0.0), applyCallout, vatPct);
    return Some(line);
  }

  /** The figures of the memo's line, worked out one after the other. */
  method PriceUnitB(unit: UnitB, qty: real, r: RatesB, travelRead: real, applyCallout: bool, vatPct: Num)
    returns (line: LineB)
    ensures line == PricedB(unit.descr, qty, unit.minutes, unit.materials, r, travelRead, applyCallout, vatPct)
  {
    var laborPerUnitCHF := unit.minutes / 60.0 * r.hourly;
    var netPerUnit := laborPerUnitCHF + unit.materials;
    var travelCHF := r.travelPerMin * RMax(0.0, travelRead);
    var calloutCHF := if applyCallout then r.calloutFee else 0.0;
    var subtotal := netPerUnit * qty + travelCHF + calloutCHF;
    var vat := Mul(Fin(subtotal), Div(vatPct, Fin(100.0)));
    var total := Add(Fin(subtotal), vat);
    line := LineB(unit.descr, qty, unit.minutes, unit.materials, laborPerUnitCHF, netPerUnit, travelCHF,
                  calloutCHF, vatPct, subtotal, total);
    ghost var spec := PricedB(unit.descr, qty, unit.minutes, unit.materials, r, travelRead, applyCallout, vatPct);
    assert line.laborPerUnitCHF == spec.laborPerUnitCHF;
    assert line.netPerUnit == spec.netPerUnit;
    assert line.travelCHF == spec.travelCHF;
    assert line.calloutCHF == spec.calloutCHF;
    assert line.subtotal == spec.subtotal;
    assert line.total == spec.total;
  }

  /** The `if (activeCat === …)` chain of the memo: the unit's minutes,
    * materials and description, or nothing when the entry is missing or the
    * category unknown. */
  method CategoryUnitB(key: string, answers: Fields, catalog: Value) returns (u: Option<UnitB>)
    ensures u == if key in HandledKeys && (key == "altro" || Truthy(CatalogNode(key, answers, catalog)))
                 then Some(UnitOfB(key, answers, catalog)) else None
  {
    if key == "luce" {
      u := LightUnitB(answers, catalog);
    } else if key == "prese_interruttori" {
      u := EntryUnitB(key, "tipoPunto", answers, catalog);
    } else if key == "wallbox" {
      u := WallboxUnitB(answers, catalog);
    } else if key == "telefonia" || key == "videosorveglianza" || key == "domotica" || key == "riparazioni" {
      u := EntryUnitB(key, "tipo", answers, catalog);
    } else if key == "altro" {
      u := CustomUnitB(answers, catalog);
    } else {
      assert key !in HandledKeys;
      u := None;
    }
  }

  /** The `luce` branch: entry by light type, price by style, add-on by
    * room. */
  method LightUnitB(answers: Fields, catalog: Value) returns (u: Option<UnitB>)
    ensures u == if Truthy(CatalogNode("luce", answers, catalog))
                 then Some(UnitOfB("luce", answers, catalog)) else None
  {
    var k := Answer(answers, "tipoLuce");
    var stile := Answer(answers, "stile");
    var ctx := Answer(answers, "ambiente");
    var cfg := At(Member(catalog, "luce"), k);
    if !Truthy(cfg) {
      return None;
    }
    var minutesPerUnit := NumOf(Member(cfg, "minutesTeamPerUnit"), 0.0);
    var tierCHF := NumOf(Member(At(Member(cfg, "materials"), stile), "unitCHF"), 0.0);
    var extraMin := NumOf(Member(At(Member(cfg, "contextAddons"), ctx), "extraMinutes"), 0.0);
    var extraCHF := NumOf(Member(At(Member(cfg, "contextAddons"), ctx), "extraCHF"), 0.0);
    minutesPerUnit := minutesPerUnit + extraMin;
    var materialsUnit := tierCHF + extraCHF;
    var desc := "Luce · " + LabelOr(cfg, k) + " (" + ToJsString(ctx) + ", "
                + LabelOr(At(Member(cfg, "materials"), stile), stile) + ")";
    LightUnitOfB(answers, catalog);
    LuceDescriptionB(cfg, answers);
    assert desc == UnitOfB("luce", answers, catalog).descr;
    assert minutesPerUnit == UnitOfB("luce", answers, catalog).minutes;
    assert materialsUnit == UnitOfB("luce", answers, catalog).materials;
    return Some(UnitB(minutesPerUnit, materialsUnit, desc));
  }

  /** The `wallbox` branch: entry by power, price by type plus the distance
    * band. */
  method WallboxUnitB(answers: Fields, catalog: Value) returns (u: Option<UnitB>)
    ensures u == if Truthy(CatalogNode("wallbox", answers, catalog))
                 then Some(UnitOfB("wallbox", answers, catalog)) else None
  {
    var pwr := Answer(answers, "potenza");
    var kind := Answer(answers, "tipoWB");
    var dist := Answer(answers, "distanza");
    var cfg := At(Member(catalog, "wallbox"), pwr);
    if !Truthy(cfg) {
      return None;
    }
    var minutesPerUnit := NumOf(Member(cfg, "minutesTeamPerUnit"), 0.0);
    var baseMat := NumOf(Member(At(Member(cfg, "materials"), kind), "unitCHF"), 0.0);
    var distCHF := NumOf(At(Member(cfg, "distanceBandCHF"), dist), 0.0);
    var materialsUnit := baseMat + distCHF;
    var desc := "Wallbox " + ToJsString(pwr) + " kW · " + LabelOr(At(Member(cfg, "materials"), kind), kind)
                + " (distanza " + ToJsString(dist) + " m)";
    WallboxUnitOfB(answers, catalog, minutesPerUnit, baseMat, distCHF, materialsUnit, desc);
    return Some(UnitB(minutesPerUnit, materialsUnit, desc));
  }

  /** The wallbox branch's figures and description are those of `UnitOfB`. */
  lemma WallboxUnitOfB(answers: Fields, catalog: Value, minutes: real, baseMat: real, distCHF: real,
                       materials: real, desc: string)
    requires var cfg := CatalogNode("wallbox", answers, catalog);
             var kind := Answer(answers, "tipoWB");
             && minutes == NumOf(Member(cfg, "minutesTeamPerUnit"), 0.0)
             && baseMat == NumOf(Member(At(Member(cfg, "materials"), kind), "unitCHF"), 0.0)
             && distCHF == NumOf(At(Member(cfg, "distanceBandCHF"), Answer(answers, "distanza")), 0.0)
             && materials == baseMat + distCHF
             && desc == "Wallbox " + ToJsString(Answer(answers, "potenza")) + " kW · "
                        + LabelOr(At(Member(cfg, "materials"), kind), kind)
                        + " (distanza " + ToJsString(Answer(answers, "distanza")) + " m)"
    ensures UnitOfB("wallbox", answers, catalog) == UnitB(minutes, materials, desc)
  {
    WallboxFiguresB(CatalogNode("wallbox", answers, catalog), answers);
  }

  /** The branches that look one entry up by a single answer (`tipoPunto`
    * for sockets and switches, `tipo` for the other four) and price its
    * base material. */
  method EntryUnitB(key: string, answerKey: string, answers: Fields, catalog: Value) returns (u: Option<UnitB>)
    requires key in HandledKeys && key != "luce" && key != "wallbox" && key != "altro"
    requires answerKey == (if key == "prese_interruttori" then "tipoPunto" else "tipo")
    ensures u == if Truthy(CatalogNode(key, answers, catalog))
                 then Some(UnitOfB(key, answers, catalog)) else None
  {
    var k := Answer(answers, answerKey);
    var cfg := At(Member(catalog, key), k);
    if !Truthy(cfg) {
      return None;
    }
    var minutesPerUnit := NumOf(Member(cfg, "minutesTeamPerUnit"), 0.0);
    var materialsUnit := NumOf(Member(Member(Member(cfg, "materials"), "base"), "unitCHF"), 0.0);
    var desc := TitleB(key) + " · " + LabelOr(cfg, k);
    SimpleFiguresB(key, cfg, answers);
    return Some(UnitB(minutesPerUnit, materialsUnit, desc));
  }

  /** The `altro` branch: the custom entry, always priced, described by the
    * typed text or else the entry's label. */
  method CustomUnitB(answers: Fields, catalog: Value) returns (u: Option<UnitB>)
    ensures u == Some(UnitOfB("altro", answers, catalog))
  {
    var descr := TrimmedText(Answer(answers, "descrizione"));
    var cfg := Member(Member(catalog, "altro"), "custom");
    var minutesPerUnit := NumOf(Member(cfg, "minutesTeamPerUnit"), 0.0);
    var materialsUnit := NumOf(Member(Member(Member(cfg, "materials"), "base"), "unitCHF"), 0.0);
    var desc := "Altro · " + (if descr != "" then descr else LabelOr(cfg, Text("Intervento")));
    SimpleFiguresB("altro", cfg, answers);
    return Some(UnitB(minutesPerUnit, materialsUnit, desc));
  }

  lemma LuceFiguresB(node: Value, answers: Fields)
    ensures var addon := At(Member(node, "contextAddons"), Answer(answers, "ambiente"));
            var f := UnitFigures("luce", node, answers);
            SumB(f.minutes) == NumOf(Member(node, "minutesTeamPerUnit"), 0.0) + NumOf(Member(addon, "extraMinutes"), 0.0)
            && SumB(f.materials) == NumOf(Member(At(Member(node, "materials"), Answer(answers, "stile")), "unitCHF"), 0.0)
                                    + NumOf(Member(addon, "extraCHF"), 0.0)
  {
    var f := UnitFigures("luce", node, answers);
    SumOfTwo(f.minutes[0], f.minutes[1]);
    SumOfTwo(f.materials[0], f.materials[1]);
  }

  lemma LightUnitOfB(answers: Fields, catalog: Value)
    ensures var cfg := At(Member(catalog, "luce"), Answer(answers, "tipoLuce"));
            var addon := At(Member(cfg, "contextAddons"), Answer(answers, "ambiente"));
            UnitOfB("luce", answers, catalog).minutes
            == NumOf(Member(cfg, "minutesTeamPerUnit"), 0.0) + NumOf(Member(addon, "extraMinutes"), 0.0)
    ensures var cfg := At(Member(catalog, "luce"), Answer(answers, "tipoLuce"));
            var addon := At(Member(cfg, "contextAddons"), Answer(answers, "ambiente"));
            UnitOfB("luce", answers, catalog).materials
            == NumOf(Member(At(Member(cfg, "materials"), Answer(answers, "stile")), "unitCHF"), 0.0)
               + NumOf(Member(addon, "extraCHF"), 0.0)
    ensures var cfg := At(Member(catalog, "luce"), Answer(answers, "tipoLuce"));
            UnitOfB("luce", answers, catalog).descr == DescriptionB("luce", cfg, answers)
  {
    var cfg := CatalogNode("luce", answers, catalog);
    LuceFiguresB(cfg, answers);
  }

  lemma LuceDescriptionB(cfg: Value, answers: Fields)
    ensures DescriptionB("luce", cfg, answers)
            == "Luce · " + LabelOr(cfg, Answer(answers, "tipoLuce")) + " (" + ToJsString(Answer(answers, "ambiente"))
               + ", " + LabelOr(At(Member(cfg, "materials"), Answer(answers, "stile")), Answer(answers, "stile")) + ")"
  {
  }

  lemma WallboxFiguresB(node: Value, answers: Fields)
    ensures var f := UnitFigures("wallbox", node, answers);
            SumB(f.minutes) == NumOf(Member(node, "minutesTeamPerUnit"), 0.0)
            && SumB(f.materials) == NumOf(Member(At(Member(node, "materials"), Answer(answers, "tipoWB")), "unitCHF"), 0.0)
                                    + NumOf(At(Member(node, "distanceBandCHF"), Answer(answers, "distanza")), 0.0)
  {
    var f := UnitFigures("wallbox", node, answers);
    SumOfOne(f.minutes[0]);
    SumOfTwo(f.materials[0], f.materials[1]);
  }

  lemma SimpleFiguresB(key: string, node: Value, answers: Fields)
    requires key != "luce" && key != "wallbox"
    ensures SumB(UnitFigures(key, node, answers).minutes) == FigureB(Member(node, "minutesTeamPerUnit"))
    ensures SumB(UnitFigures(key, node, answers).materials)
            == FigureB(Member(Member(Member(node, "materials"), "base"), "unitCHF"))
  {
    var f := UnitFigures(key, node, answers);
    SumOfOne(f.minutes[0]);
    SumOfOne(f.materials[0]);
  }
}
