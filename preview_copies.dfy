/**
 * How the two copies of the service line pricer in src/ai/AIWizard.jsx
 * relate: where the catalog holds numbers they agree on the unit figures,
 * the labour and the net unit price; a decimal comma, a missing catalog
 * entry and the `altro` description are where they part.
 */
module PreviewCopies {
  import opened Wrappers
  import opened JsNumbers
  import opened JsValues
  import opened WizardTree
  import opened WizardAnswers
  import opened WizardPreview

  /** A figure both readings take the same way: absent, `null`, or a number
    * held as one. */
  predicate NumericFigure(x: Value) {
    x.None? || x == Some(JNull) || (x.value.JNum? && Representable(x.value.n))
  }

  predicate NumericFigures(f: Figures) {
    (forall x | x in f.minutes :: NumericFigure(x)) && (forall x | x in f.materials :: NumericFigure(x))
  }

  /** `Number(x ?? 0)` and `num(x)` agree on a numeric figure. */
  lemma {:induction false} FigureCopiesAgree(x: Value)
    requires NumericFigure(x)
    ensures FigureA(x) == Fin(FigureB(x))
  {
    if IsNullish(x) {
      NumOfNothing(x, 0.0);
    } else {
      NumOfStoredNumber(x.value.n, 0.0);
    }
  }

  /** Adding two pairs of agreeing readings keeps them agreeing. */
  lemma AddAgrees(x: Num, h: real, y: Num, k: real, sum: real)
    requires x == Fin(h) && y == Fin(k) && sum == h + k
    ensures Add(x, y) == Fin(sum)
  {
  }

  /** Both readings give the same number. */
  predicate Agrees(x: Value) {
    FigureA(x) == Fin(FigureB(x))
  }

  predicate FiguresAgree(f: Figures) {
    (forall x | x in f.minutes :: Agrees(x)) && (forall x | x in f.materials :: Agrees(x))
  }

  lemma NumericFiguresAgree(f: Figures)
    requires NumericFigures(f)
    ensures FiguresAgree(f)
  {
    forall x | x in f.minutes
      ensures Agrees(x)
    {
      FigureCopiesAgree(x);
    }
    forall x | x in f.materials
      ensures Agrees(x)
    {
      FigureCopiesAgree(x);
    }
  }

  lemma OneAgrees(a: Value)
    requires Agrees(a)
    ensures SumA([a]) == Fin(SumB([a]))
  {
    SumOfOne(a);
  }

  lemma TwoAgree(a: Value, b: Value)
    requires Agrees(a) && Agrees(b)
    ensures SumA([a, b]) == Fin(SumB([a, b]))
  {
    SumOfTwo(a, b);
    AddAgrees(FigureA(a), FigureB(a), FigureA(b), FigureB(b), SumB([a, b]));
  }

  /** The `aiConfig` the memo reads, `settings.aiConfig || {}`. */
  function MemoConfig(settings: Value): Value {
    OrElse(Member(settings, "aiConfig"), WizardPreview.Empty)
  }

  function HourlyFigure(settings: Value): Value {
    Member(Member(Member(settings, "aiConfig"), "rates"), "hourlyWorker")
  }

  /** Both copies read the same entry, so on numeric figures they add up to
    * the same minutes and materials. */
  lemma {:induction false} UnitsAgree(c: Category, answers: Fields, catalog: Value)
    requires FiguresAgree(UnitFigures(c.key, CatalogNode(c.key, answers, catalog), answers))
    ensures UnitOfA(c, answers, catalog).minutes == Fin(UnitOfB(c.key, answers, catalog).minutes)
    ensures UnitOfA(c, answers, catalog).materials == Fin(UnitOfB(c.key, answers, catalog).materials)
  {
    var n := CatalogNode(c.key, answers, catalog);
    var f := UnitFigures(c.key, n, answers);
    if c.key == "luce" {
      TwoAgree(f.minutes[0], f.minutes[1]);
      TwoAgree(f.materials[0], f.materials[1]);
    } else if c.key == "wallbox" {
      OneAgrees(f.minutes[0]);
      TwoAgree(f.materials[0], f.materials[1]);
    } else {
      OneAgrees(f.minutes[0]);
      OneAgrees(f.materials[0]);
    }
  }

  /** `computePreviewFromAnswers` prices a known category from its unit. */
  lemma PreviewASome(answers: Fields, c: Category, catalog: Value, settings: Value, u: UnitA, r: RatesA)
    requires c.key in HandledKeys && u == UnitOfA(c, answers, catalog) && r == ReadRatesA(settings)
    ensures PreviewA(answers, Some(c), catalog, settings)
            == Some(PricedA(u.descr, Quantity(answers), u.minutes, u.materials, r, TravelMinutesA(answers, r),
                            CalloutApplied(Answer(answers, "applyCallout"), r.autoCallout)))
  {
  }

  /** Both copies read the hourly rate at `aiConfig.rates.hourlyWorker`. */
  lemma HourlyAgrees(settings: Value)
    requires NumericFigure(HourlyFigure(settings))
    ensures ReadRatesA(settings).hourly == Fin(ReadRatesB(MemoConfig(settings)).hourly)
  {
    FigureCopiesAgree(HourlyFigure(settings));
    MemberOfOrEmpty(Member(settings, "aiConfig"), "rates");
  }

  /** Agreeing minutes, materials and hourly rate give agreeing labour and
    * net unit price, whatever else each copy reads. */
  lemma PricedAgree(descr: string, qta: real, ma: Num, xa: Num, ra: RatesA, travelA: Num, calloutA: bool,
                    descrB: string, mb: real, xb: real, rb: RatesB, travelRead: real, calloutB: bool, vatPct: Num)
    requires ma == Fin(mb) && xa == Fin(xb) && ra.hourly == Fin(rb.hourly)
    ensures var a := PricedA(descr, qta, ma, xa, ra, travelA, calloutA);
            var b := PricedB(descrB, qta, mb, xb, rb, travelRead, calloutB, vatPct);
            && a.qta == b.qty && a.minutesPU == Fin(b.minutesPerUnit) && a.materialsPU == Fin(b.materialsUnit)
            && a.laborPU == Fin(b.laborPerUnitCHF) && a.netPU == Fin(b.netPerUnit)
  {
    var b := PricedB(descrB, qta, mb, xb, rb, travelRead, calloutB, vatPct);
    LaborAgrees(ma, mb, ra.hourly, rb.hourly, b.laborPerUnitCHF);
    AddAgrees(Mul(Div(ma, Fin(60.0)), ra.hourly), b.laborPerUnitCHF, xa, xb, b.netPerUnit);
  }

  lemma LaborAgrees(m: Num, mr: real, h: Num, hr: real, labor: real)
    requires m == Fin(mr) && h == Fin(hr) && labor == mr / 60.0 * hr
    ensures Mul(Div(m, Fin(60.0)), h) == Fin(labor)
  {
  }

  /** For a category both copies price, with numeric catalog figures and a
    * numeric hourly rate, the line of `computePreviewFromAnswers` and the
    * line of the memo have the same quantity, unit minutes, unit materials,
    * unit labour and net unit price. */
  lemma {:induction false} CopiesAgreeOnNetPerUnit(c: Category, answers: Fields, catalog: Value, settings: Value,
                                                   travelMinutes: Num, applyCallout: bool, vatPct: Num)
    requires PricedByB(Some(c.key), answers, catalog)
    requires NumericFigures(UnitFigures(c.key, CatalogNode(c.key, answers, catalog), answers))
    requires NumericFigure(HourlyFigure(settings))
    ensures PreviewA(answers, Some(c), catalog, settings).Some?
    ensures PreviewB(Some(c.key), answers, catalog, MemoConfig(settings), travelMinutes, applyCallout, vatPct).Some?
    ensures var a := PreviewA(answers, Some(c), catalog, settings).value;
            var b := PreviewB(Some(c.key), answers, catalog, MemoConfig(settings), travelMinutes, applyCallout,
                              vatPct).value;
            && a.qta == b.qty
            && a.minutesPU == Fin(b.minutesPerUnit) && a.materialsPU == Fin(b.materialsUnit)
            && a.laborPU == Fin(b.laborPerUnitCHF) && a.netPU == Fin(b.netPerUnit)
  {
    var ua := UnitOfA(c, answers, catalog);
    var ub := UnitOfB(c.key, answers, catalog);
    var ra := ReadRatesA(settings);
    var rb := ReadRatesB(MemoConfig(settings));
    NumericFiguresAgree(UnitFigures(c.key, CatalogNode(c.key, answers, catalog), answers));
    UnitsAgree(c, answers, catalog);
    HourlyAgrees(settings);
    PreviewASome(answers, c, catalog, settings, ua, ra);
    PreviewBSome(Some(c.key), answers, catalog, MemoConfig(settings), travelMinutes, applyCallout, vatPct, ub);
    PricedAgree(ua.descr, Quantity(answers), ua.minutes, ua.materials, ra, TravelMinutesA(answers, ra),
                CalloutApplied(Answer(answers, "applyCallout"), ra.autoCallout),
                ub.descr, ub.minutes, ub.materials, rb, NumOfNumber(travelMinutes, 0.0), applyCallout, vatPct);
  }

  // ---------------------------------------------------------------------------
  // Where the copies part

  /** A figure typed with a decimal comma: NaN to `Number`, 12.5 to `num`. */
  lemma DecimalCommaFigure()
    ensures FigureA(Text("12,5")) == NaN
    ensures FigureB(Text("12,5")) == 12.5
  {
    DecimalCommaDiverges("12,5");
  }

  /** NaN minutes make the labour, the net unit price, the subtotal and the
    * total NaN. */
  lemma NaNMinutesSpread(descr: string, qta: real, materials: Num, r: RatesA, travelMinutes: Num, callout: bool)
    ensures var a := PricedA(descr, qta, NaN, materials, r, travelMinutes, callout);
            a.minutesPU == NaN && a.netPU == NaN && a.subtotal == NaN && a.total == NaN
  {
  }

  lemma DecimalCommaUnitA(c: Category, answers: Fields, catalog: Value)
    requires c.key != "luce" && c.key != "wallbox"
    requires c.key == "altro" || Truthy(CatalogNode(c.key, answers, catalog))
    requires Member(CatalogNode(c.key, answers, catalog), "minutesTeamPerUnit") == Text("12,5")
    ensures UnitOfA(c, answers, catalog).minutes == NaN
  {
    DecimalCommaFigure();
    SimpleFiguresA(c.key, answers, catalog);
  }

  lemma DecimalCommaUnitB(key: string, answers: Fields, catalog: Value)
    requires key != "luce" && key != "wallbox"
    requires Member(CatalogNode(key, answers, catalog), "minutesTeamPerUnit") == Text("12,5")
    ensures UnitOfB(key, answers, catalog).minutes == 12.5
  {
    DecimalCommaFigure();
    SimpleFiguresB(key, CatalogNode(key, answers, catalog), answers);
  }

  /** An entry whose minutes are written "12,5" makes the whole line of
    * `computePreviewFromAnswers` NaN, while the memo prices 12.5 minutes. */
  lemma {:induction false} DecimalCommaMinutesDiverge(c: Category, answers: Fields, catalog: Value, settings: Value,
                                                      travelMinutes: Num, applyCallout: bool, vatPct: Num)
    requires c.key in HandledKeys && c.key != "luce" && c.key != "wallbox"
    requires c.key == "altro" || Truthy(CatalogNode(c.key, answers, catalog))
    requires Member(CatalogNode(c.key, answers, catalog), "minutesTeamPerUnit") == Text("12,5")
    ensures PreviewA(answers, Some(c), catalog, settings).Some?
    ensures var a := PreviewA(answers, Some(c), catalog, settings).value;
            a.minutesPU == NaN && a.netPU == NaN && a.subtotal == NaN && a.total == NaN
    ensures PreviewB(Some(c.key), answers, catalog, MemoConfig(settings), travelMinutes, applyCallout, vatPct).Some?
    ensures PreviewB(Some(c.key), answers, catalog, MemoConfig(settings), travelMinutes, applyCallout, vatPct)
              .value.minutesPerUnit == 12.5
  {
    var ua := UnitOfA(c, answers, catalog);
    var ub := UnitOfB(c.key, answers, catalog);
    var ra := ReadRatesA(settings);
    DecimalCommaUnitA(c, answers, catalog);
    DecimalCommaUnitB(c.key, answers, catalog);
    PreviewASome(answers, c, catalog, settings, ua, ra);
    PreviewBSome(Some(c.key), answers, catalog, MemoConfig(settings), travelMinutes, applyCallout, vatPct, ub);
    NaNMinutesSpread(ua.descr, Quantity(answers), ua.materials, ra, TravelMinutesA(answers, ra),
                     CalloutApplied(Answer(answers, "applyCallout"), ra.autoCallout));
  }

  /** Without a catalog entry for the chosen answer the memo shows nothing,
    * while `computePreviewFromAnswers` still prices the line, from zero
    * minutes and zero materials. */
  lemma {:induction false} MissingEntryDiverges(c: Category, answers: Fields, catalog: Value, settings: Value,
                                                travelMinutes: Num, applyCallout: bool, vatPct: Num)
    requires c.key in HandledKeys && c.key != "altro"
    requires !Truthy(CatalogNode(c.key, answers, catalog))
    ensures PreviewB(Some(c.key), answers, catalog, MemoConfig(settings), travelMinutes, applyCallout, vatPct) == None
    ensures PreviewA(answers, Some(c), catalog, settings).Some?
    ensures PreviewA(answers, Some(c), catalog, settings).value.minutesPU == Fin(0.0)
    ensures PreviewA(answers, Some(c), catalog, settings).value.materialsPU == Fin(0.0)
  {
    var n := CatalogNode(c.key, answers, catalog);
    assert Member(n, "contextAddons") == None && Member(n, "materials") == None;
    assert Member(n, "minutesTeamPerUnit") == None && Member(n, "distanceBandCHF") == None;
    var f := UnitFigures(c.key, n, answers);
    forall i | 0 <= i < |f.minutes|
      ensures f.minutes[i] == None
    {
    }
    forall i | 0 <= i < |f.materials|
      ensures f.materials[i] == None
    {
    }
    ZeroFigures(f.minutes);
    ZeroFigures(f.materials);
  }

  lemma {:induction false} ZeroFigures(xs: seq<Value>)
    requires forall i :: 0 <= i < |xs| ==> xs[i] == None
    ensures SumA(xs) == Fin(0.0)
    decreases |xs|
  {
    if xs != [] {
      assert forall i :: 0 <= i < |xs[1..]| ==> xs[1..][i] == xs[i + 1];
      ZeroFigures(xs[1..]);
    }
  }

  /** Every category of the question tree is priced by
    * `computePreviewFromAnswers`, and a category it does not know is not. */
  lemma {:induction false} TreeCategoriesPriced(answers: Fields, catalog: Value, settings: Value)
    ensures forall i :: 0 <= i < |Categories| ==> PreviewA(answers, Some(Categories[i]), catalog, settings).Some?
  {
    CategoryKeysAreHandled();
    forall i | 0 <= i < |Categories|
      ensures Categories[i].key in HandledKeys
    {
      assert CategoryKeys(Categories)[i] == Categories[i].key;
    }
  }

  lemma UnknownCategoryUnpriced(c: Category, answers: Fields, catalog: Value, settings: Value)
    requires c.key !in HandledKeys
    ensures PreviewA(answers, Some(c), catalog, settings) == None
  {
  }

  /** For `altro` the memo always prices the line. With a typed description
    * the two copies describe it alike (up to the quantity suffix of the
    * first); without one they fall back to different words. */
  lemma {:induction false} CustomDescriptions(c: Category, answers: Fields, catalog: Value, settings: Value,
                                              travelMinutes: Num, applyCallout: bool, vatPct: Num)
    requires c.key == "altro"
    ensures PreviewA(answers, Some(c), catalog, settings).Some?
    ensures PreviewB(Some(c.key), answers, catalog, MemoConfig(settings), travelMinutes, applyCallout, vatPct).Some?
    ensures var d := TrimmedText(Answer(answers, "descrizione"));
            var a := PreviewA(answers, Some(c), catalog, settings).value.description;
            var b := PreviewB(Some(c.key), answers, catalog, MemoConfig(settings), travelMinutes, applyCallout,
                              vatPct).value.description;
            && (d != "" ==> a == WithQuantity("Altro · " + d, Quantity(answers)) && b == "Altro · " + d)
            && (d == "" ==> a == WithQuantity("Altro (personalizzato)", Quantity(answers))
                            && b == "Altro · " + LabelOr(CatalogNode(c.key, answers, catalog), Text("Intervento")))
  {
    CustomDescriptionA(c, answers, catalog, settings);
    CustomDescriptionB(c.key, answers, catalog, MemoConfig(settings), travelMinutes, applyCallout, vatPct);
  }

  lemma CustomDescriptionA(c: Category, answers: Fields, catalog: Value, settings: Value)
    requires c.key == "altro"
    ensures PreviewA(answers, Some(c), catalog, settings).Some?
    ensures var d := TrimmedText(Answer(answers, "descrizione"));
            PreviewA(answers, Some(c), catalog, settings).value.description
            == WithQuantity(if d != "" then "Altro · " + d else "Altro (personalizzato)", Quantity(answers))
  {
    AltroHandled();
    assert c.key != "luce" && c.key != "prese_interruttori" && c.key != "wallbox";
  }

  lemma CustomDescriptionB(key: string, answers: Fields, catalog: Value, aiConfig: Value,
                           travelMinutes: Num, applyCallout: bool, vatPct: Num)
    requires key == "altro"
    ensures PreviewB(Some(key), answers, catalog, aiConfig, travelMinutes, applyCallout, vatPct).Some?
    ensures var d := TrimmedText(Answer(answers, "descrizione"));
            PreviewB(Some(key), answers, catalog, aiConfig, travelMinutes, applyCallout, vatPct).value.description
            == "Altro · " + (if d != "" then d else LabelOr(CatalogNode(key, answers, catalog), Text("Intervento")))
  {
    AltroHandled();
    assert key != "luce" && key != "wallbox";
  }

  lemma AltroHandled()
    ensures "altro" in HandledKeys
  {
    assert HandledKeys[7] == "altro";
  }
}
