/**
 * The service offer that `generateOffer` in src/ai/AIWizard.jsx builds from
 * the cart: its reference, its lines, its totals and the snapshot of the
 * settings it was priced with.
 */
module WizardOffer {
  import opened Wrappers
  import opened JsNumbers
  import opened JsValues
  import opened WizardCart

  // ---------------------------------------------------------------------------
  // Reference

  /** `String(n).padStart(2, "0")` */
  function Pad2(n: nat): (s: string)
    ensures |NatToString(n)| < 2 ==> s == "0" + NatToString(n)
    ensures |NatToString(n)| >= 2 ==> s == NatToString(n)
  {
    var d := NatToString(n);
    if |d| < 2 then "0" + d else d
  }

  /** A day or month number pads to exactly two digits that read back as it. */
  lemma Pad2Digits(n: nat)
    requires n < 100
    ensures |Pad2(n)| == 2 && AllDigits(Pad2(n))
    ensures DigitsValue(Pad2(n)) == n
  {
    NatToStringDigits(n);
    if n >= 10 {
      NatToStringDigits(n / 10);
      assert NatToString(n / 10) == [DigitChar(n / 10)];
    } else {
      var s := Pad2(n);
      assert s[..|s| - 1] == "0";
      assert DigitsValue("0") == DigitsValue("") * 10 + 0;
    }
  }

  /** `toUpperCase` on the letters of a generated identifier: ASCII letters
    * only. */
  function UpperAscii(c: char): char {
    if 'a' <= c <= 'z' then (c as int - 32) as char else c
  }

  function Upper(s: string): (r: string)
    ensures |r| == |s|
    ensures forall i :: 0 <= i < |s| ==> r[i] == UpperAscii(s[i])
  {
    seq(|s|, i requires 0 <= i < |s| => UpperAscii(s[i]))
  }

  /** `` `SRV-${ymd}-${uid().slice(0,6).toUpperCase()}` ``, where `ymd` is the
    * year, the two-digit month and the two-digit day. */
  function NextRef(year: nat, month: nat, day: nat, uid: string): string {
    "SRV-" + NatToString(year) + Pad2(month) + Pad2(day) + "-" + Upper(uid[..if |uid| < 6 then |uid| else 6])
  }

  /** A four-digit year gives "SRV-", eight date digits that read back as
    * the year, month and day, a dash, and at most six characters of the
    * identifier with no lower-case ASCII letter. */
  lemma {:induction false} NextRefShape(year: nat, month: nat, day: nat, uid: string)
    requires 1000 <= year <= 9999 && 1 <= month <= 12 && 1 <= day <= 31
    ensures var r := NextRef(year, month, day, uid);
            && |r| == 13 + (if |uid| < 6 then |uid| else 6)
            && r[..4] == "SRV-" && r[12] == '-'
            && AllDigits(r[4..8]) && DigitsValue(r[4..8]) == year
            && AllDigits(r[8..10]) && DigitsValue(r[8..10]) == month
            && AllDigits(r[10..12]) && DigitsValue(r[10..12]) == day
            && forall i :: 13 <= i < |r| ==> !('a' <= r[i] <= 'z')
  {
    var r := NextRef(year, month, day, uid);
    YearDigits(year);
    Pad2Digits(month);
    Pad2Digits(day);
    var y := NatToString(year);
    var tail := Upper(uid[..if |uid| < 6 then |uid| else 6]);
    assert r == "SRV-" + y + Pad2(month) + Pad2(day) + "-" + tail;
    assert r[4..8] == y;
    assert r[8..10] == Pad2(month);
    assert r[10..12] == Pad2(day);
    assert r[13..] == tail;
  }

  lemma YearDigits(year: nat)
    requires 1000 <= year <= 9999
    ensures |NatToString(year)| == 4 && AllDigits(NatToString(year)) && DigitsValue(NatToString(year)) == year
  {
    NatToStringDigits(year);
    assert NatToString(year) == NatToString(year / 10) + [DigitChar(year % 10)];
    assert NatToString(year / 10) == NatToString(year / 100) + [DigitChar(year / 10 % 10)];
    assert NatToString(year / 100) == NatToString(year / 1000) + [DigitChar(year / 100 % 10)];
  }

  // ---------------------------------------------------------------------------
  // Lines

  /** One line of the offer. */
  datatype OfferLine = OfferLine(description: string, qty: Num, minutesPerUnit: Num, materialsUnitCHF: Num,
                                 laborPerUnitCHF: Num, unitNetCHF: Num, subtotalCHF: Num, vatCHF: real,
                                 totalCHF: Num)

  /** `items.map(it => ({...}))` as written: the breakdown is read under the
    * names `handleAddItem` uses, `minutesPerUnit`, `materialsUnit` and
    * `laborPerUnitCHF`. */
  function OfferLineAsWritten(it: Item): OfferLine {
    LineFrom(it, MaterialsUnitOf(it), LaborPerUnitCHFOf(it))
  }

  /** The line with the breakdown read under each shape's own names: a
    * listed item carries `materialsPerUnit` and `laborPerUnit`. */
  function OfferLineOf(it: Item): OfferLine {
    if it.Listed? then LineFrom(it, Some(it.materialsPerUnit), Some(it.laborPerUnit))
    else LineFrom(it, MaterialsUnitOf(it), LaborPerUnitCHFOf(it))
  }

  /** Lines 397-407 of src/ai/AIWizard.jsx, with the two breakdown reads as
    * parameters. */
  function LineFrom(it: Item, materials: Option<Num>, labor: Option<Num>): OfferLine {
    var qty := NumberOr(Some(Fin(it.qty)), Fin(1.0));
    var mat := NumberOr(materials, Fin(0.0));
    var lab := NumberOr(labor, Fin(0.0));
    OfferLine(it.description, qty, NumberOr(MinutesPerUnitOf(it), Fin(0.0)), mat, lab,
              NumberOr(Some(it.netPerUnit), Add(mat, lab)),
              NumberOr(SubtotalOf(it), Mul(NumberOr(Some(it.netPerUnit), Fin(0.0)), qty)),
              0.0, NumberOr(TotalOf(it), Fin(0.0)))
  }

  /** As written, every listed item shows zero materials and zero labour in
    * the offer, whatever it carries. */
  lemma ListedBreakdownLost(it: Item)
    requires it.Listed?
    ensures OfferLineAsWritten(it).materialsUnitCHF == Fin(0.0)
    ensures OfferLineAsWritten(it).laborPerUnitCHF == Fin(0.0)
  {
  }

  /** A listed item with 30 CHF of materials and 50 CHF of labour per unit
    * shows 0 and 0 in the offer as written, and 30 and 50 once corrected. */
  lemma ListedBreakdownExample(it: Item)
    requires it.Listed? && it.materialsPerUnit == Fin(30.0) && it.laborPerUnit == Fin(50.0)
    ensures OfferLineAsWritten(it).materialsUnitCHF == Fin(0.0) && OfferLineAsWritten(it).laborPerUnitCHF == Fin(0.0)
    ensures OfferLineOf(it).materialsUnitCHF == Fin(30.0) && OfferLineOf(it).laborPerUnitCHF == Fin(50.0)
  {
    ListedBreakdownLost(it);
    LineKeepsBreakdown(it);
  }

  /** The corrected line keeps the breakdown of either shape (a zero or NaN
    * figure still shows as zero, as `|| 0` makes it), and it differs from
    * the line as written only on listed items. */
  lemma LineKeepsBreakdown(it: Item)
    ensures it.Listed? ==> OfferLineOf(it).materialsUnitCHF == NumberOr(Some(it.materialsPerUnit), Fin(0.0))
    ensures it.Listed? ==> OfferLineOf(it).laborPerUnitCHF == NumberOr(Some(it.laborPerUnit), Fin(0.0))
    ensures it.Added? ==> OfferLineOf(it).materialsUnitCHF == NumberOr(Some(it.materialsUnit), Fin(0.0))
    ensures it.Added? ==> OfferLineOf(it).laborPerUnitCHF == NumberOr(Some(it.laborPerUnitCHF), Fin(0.0))
    ensures it.Added? ==> OfferLineOf(it) == OfferLineAsWritten(it)
  {
  }

  /** What every line promises, whichever breakdown it reads: the quantity
    * is the item's own when it is non-zero and 1 otherwise, the VAT of a
    * line is zero, the unit net price falls back to materials plus labour
    * only when the item's is falsy, the subtotal to net times quantity only
    * when the item has none, and the total to zero. */
  lemma LineFallbacks(it: Item, materials: Option<Num>, labor: Option<Num>)
    ensures var l := LineFrom(it, materials, labor);
            && l.qty == (if it.qty != 0.0 then Fin(it.qty) else Fin(1.0))
            && l.vatCHF == 0.0
            && (it.netPerUnit.Fin? && it.netPerUnit.r != 0.0 ==> l.unitNetCHF == it.netPerUnit)
            && (!(it.netPerUnit.Fin? && it.netPerUnit.r != 0.0) ==>
                  l.unitNetCHF == Add(l.materialsUnitCHF, l.laborPerUnitCHF))
            && (it.Added? ==> l.subtotalCHF == Mul(NumberOr(Some(it.netPerUnit), Fin(0.0)), l.qty)
                              && l.totalCHF == Fin(0.0))
            && (it.Listed? ==> l.subtotalCHF == NumberOr(Some(it.subtotal), Mul(NumberOr(Some(it.netPerUnit), Fin(0.0)), l.qty))
                               && l.totalCHF == NumberOr(Some(it.total), Fin(0.0)))
  {
  }

  /** On a listed item the line as written is the corrected line with the
    * breakdown zeroed: materials and labour read 0, so the unit net price
    * falls back to 0 instead of to their sum. */
  lemma ListedLineAsWritten(it: Item)
    requires it.Listed?
    ensures OfferLineAsWritten(it)
            == OfferLineOf(it).(materialsUnitCHF := Fin(0.0), laborPerUnitCHF := Fin(0.0),
                                unitNetCHF := NumberOr(Some(it.netPerUnit), Fin(0.0)))
  {
    assert Add(Fin(0.0), Fin(0.0)) == Fin(0.0);
  }

  /** No figure of a line, as written or corrected, is NaN: each
    * `Number(x || d)` replaces NaN. */
  lemma LineHasNoNaN(it: Item)
    ensures NoNaN(OfferLineAsWritten(it)) && NoNaN(OfferLineOf(it))
  {
    LineFromHasNoNaN(it, MaterialsUnitOf(it), LaborPerUnitCHFOf(it));
    if it.Listed? {
      LineFromHasNoNaN(it, Some(it.materialsPerUnit), Some(it.laborPerUnit));
    }
  }

  predicate NoNaN(l: OfferLine) {
    l.qty.Fin? && l.minutesPerUnit.Fin? && l.materialsUnitCHF.Fin? && l.laborPerUnitCHF.Fin?
    && l.unitNetCHF.Fin? && l.subtotalCHF.Fin? && l.totalCHF.Fin?
  }

  lemma LineFromHasNoNaN(it: Item, materials: Option<Num>, labor: Option<Num>)
    ensures NoNaN(LineFrom(it, materials, labor))
  {
    var qty := NumberOr(Some(Fin(it.qty)), Fin(1.0));
    var mat := NumberOr(materials, Fin(0.0));
    var lab := NumberOr(labor, Fin(0.0));
    var net := NumberOr(Some(it.netPerUnit), Fin(0.0));
    FinOr(Some(Fin(it.qty)), Fin(1.0));
    FinOr(materials, Fin(0.0));
    FinOr(labor, Fin(0.0));
    FinOr(Some(it.netPerUnit), Fin(0.0));
    FinOr(MinutesPerUnitOf(it), Fin(0.0));
    FinOr(Some(it.netPerUnit), Fin(mat.r + lab.r));
    FinOr(SubtotalOf(it), Fin(net.r * qty.r));
    FinOr(TotalOf(it), Fin(0.0));
  }

  /** `Number(x || d)` is a number whenever the fallback is. */
  lemma FinOr(x: Option<Num>, d: Num)
    requires d.Fin?
    ensures NumberOr(x, d).Fin?
  {
  }

  /** The offer's lines as written, one per cart item. */
  function OfferLines(items: seq<Item>): (ls: seq<OfferLine>)
    ensures |ls| == |items|
    ensures forall i :: 0 <= i < |items| ==> ls[i] == OfferLineAsWritten(items[i])
  {
    seq(|items|, i requires 0 <= i < |items| => OfferLineAsWritten(items[i]))
  }

  /** The offer's lines once the breakdown is read under each shape's names. */
  function IntendedOfferLines(items: seq<Item>): (ls: seq<OfferLine>)
    ensures |ls| == |items|
    ensures forall i :: 0 <= i < |items| ==> ls[i] == OfferLineOf(items[i])
  {
    seq(|items|, i requires 0 <= i < |items| => OfferLineOf(items[i]))
  }

  // ---------------------------------------------------------------------------
  // Totals

  datatype OfferTotals = OfferTotals(itemsSubtotalCHF: Num, travelCHF: Num, calloutCHF: Num, subtotalCHF: Num,
                                     vatPercent: Num, vatCHF: Num, totalCHF: Num)

  /** Lines 425-433 of src/ai/AIWizard.jsx: each of the cart's totals with `Number(x || 0)`; the
    * cart has no `subtotal`, so the subtotal is `net || 0`. */
  function OfferTotalsOf(t: Totals, vatPercent: Num): OfferTotals {
    OfferTotals(NumberOr(Some(t.itemsSubtotal), Fin(0.0)), NumberOr(Some(Fin(t.travel)), Fin(0.0)),
                NumberOr(Some(Fin(t.callout)), Fin(0.0)), NumberOr(Some(t.net), Fin(0.0)), vatPercent,
                NumberOr(Some(t.vat), Fin(0.0)), NumberOr(Some(t.gross), Fin(0.0)))
  }

  /** The offer's totals are the cart's where those are readable, and zero
    * where the cart shows NaN. */
  lemma OfferTotalsReadable(t: Totals, vatPercent: Num)
    ensures var o := OfferTotalsOf(t, vatPercent);
            && o.itemsSubtotalCHF.Fin? && o.subtotalCHF.Fin? && o.vatCHF.Fin? && o.totalCHF.Fin?
            && o.travelCHF == Fin(t.travel) && o.calloutCHF == Fin(t.callout)
            && (t.net.Fin? ==> o.subtotalCHF == t.net) && (t.net.NaN? ==> o.subtotalCHF == Fin(0.0))
            && (t.gross.Fin? ==> o.totalCHF == t.gross) && (t.gross.NaN? ==> o.totalCHF == Fin(0.0))
            && o.vatPercent == vatPercent
  {
  }

  /** `Number(settings?.pricing?.vatPercent ?? 0)`, the rate the offer records. */
  function OfferVatPercent(settings: Value): Num {
    ToNumber(Coalesce(Member(Member(settings, "pricing"), "vatPercent"), Some(JNum(0.0))))
  }

  /** `Number(settings.pricing?.vatPercent || 0)`, the rate the component
    * charges. */
  function ChargedVatPercent(settings: Value): Num {
    ToNumber(OrElse(Member(Member(settings, "pricing"), "vatPercent"), Some(JNum(0.0))))
  }

  /** Reading the rate with `??` or with `||` gives the same number: every
    * falsy value that `??` keeps (`false`, 0, "") is itself read as 0. */
  lemma VatReadingsAgree(settings: Value)
    ensures OfferVatPercent(settings) == ChargedVatPercent(settings)
  {
    var v := Member(Member(settings, "pricing"), "vatPercent");
    if !IsNullish(v) && !Truthy(v) {
      match v.value
      case JBool(_) =>
      case JNum(_) =>
      case JStr(s) => assert StringToNumber(s) == Fin(0.0) by { assert s == ""; TrimEmpty(); }
    }
  }

  // ---------------------------------------------------------------------------
  // The offer

  /** `customer?.x || ""` for the seven customer fields. */
  datatype Customer = Customer(firstName: Value, lastName: Value, email: Value, phone: Value, address: Value,
                               zip: Value, city: Value)

  function CustomerField(customer: Value, key: string): Value {
    OrElse(Member(customer, key), Some(JStr("")))
  }

  function CustomerOf(customer: Value): Customer {
    Customer(CustomerField(customer, "firstName"), CustomerField(customer, "lastName"),
             CustomerField(customer, "email"), CustomerField(customer, "phone"),
             CustomerField(customer, "address"), CustomerField(customer, "zip"), CustomerField(customer, "city"))
  }

  /** Every customer field is filled in: a missing or empty one reads "". */
  lemma CustomerFieldsFilled(customer: Value, key: string)
    ensures Truthy(Member(customer, key)) ==> CustomerField(customer, key) == Member(customer, key)
    ensures !Truthy(Member(customer, key)) ==> CustomerField(customer, key) == Some(JStr(""))
  {
  }

  /** `settings?.x || {}` for the snapshot. */
  function SnapshotOf(settings: Value, key: string): Value {
    OrElse(Member(settings, key), Some(JObj(map[])))
  }

  datatype Offer = Offer(id: string, ref: string, kind: string, createdAt: int, status: string,
                         customer: Customer, items: seq<OfferLine>, totals: OfferTotals, fromAIWizard: bool,
                         company: Value, pricing: Value, aiConfig: Value)

  const EmptyCartMessage: string := "Aggiungi almeno un articolo prima di generare l'offerta."

  /** The offer `generateOffer` saves, with the identifier, the reference
    * and the clock reading given; an empty cart is refused. */
  function BuildOffer(items: seq<Item>, totals: Totals, settings: Value, customer: Value, id: string,
                      ref: string, now: int): (r: Result<Offer>)
    ensures r.Failure? <==> items == []
    ensures r.Failure? ==> r.error == EmptyCartMessage
  {
    if items == [] then Failure(EmptyCartMessage)
    else Success(Draft(OfferLines(items), totals, settings, customer, id, ref, now))
  }

  /** The offer `generateOffer` would save with the breakdown of listed
    * items read under their own names. */
  function BuildOfferIntended(items: seq<Item>, totals: Totals, settings: Value, customer: Value, id: string,
                              ref: string, now: int): (r: Result<Offer>)
    ensures r.Failure? <==> items == []
    ensures r.Failure? ==> r.error == EmptyCartMessage
  {
    if items == [] then Failure(EmptyCartMessage)
    else Success(Draft(IntendedOfferLines(items), totals, settings, customer, id, ref, now))
  }

  /** The offer object of lines 409-442 of src/ai/AIWizard.jsx around the given lines. */
  function Draft(lines: seq<OfferLine>, totals: Totals, settings: Value, customer: Value, id: string,
                 ref: string, now: int): Offer {
    Offer(id, ref, "service", now, "draft", CustomerOf(customer), lines,
          OfferTotalsOf(totals, OfferVatPercent(settings)), true, SnapshotOf(settings, "company"),
          SnapshotOf(settings, "pricing"), SnapshotOf(settings, "aiConfig"))
  }

  /** The saved offer has one line per cart item, in order, and the cart's
    * totals; it is a draft service offer made by the wizard. */
  lemma BuiltOfferContents(items: seq<Item>, totals: Totals, settings: Value, customer: Value, id: string,
                           ref: string, now: int)
    requires items != []
    ensures var r := BuildOffer(items, totals, settings, customer, id, ref, now);
            && r.Success? && |r.value.items| == |items|
            && (forall i :: 0 <= i < |items| ==> r.value.items[i] == OfferLineAsWritten(items[i]))
            && r.value.totals == OfferTotalsOf(totals, OfferVatPercent(settings))
            && r.value.id == id && r.value.ref == ref && r.value.createdAt == now
            && r.value.kind == "service" && r.value.status == "draft" && r.value.fromAIWizard
  {
  }

  /** The offer as written and the corrected one agree everywhere but in the
    * lines of listed items, and there only in materials, labour and the
    * net price that falls back to their sum. */
  lemma {:induction false} IntendedOfferDiffers(items: seq<Item>, totals: Totals, settings: Value, customer: Value,
                                                id: string, ref: string, now: int)
    requires items != []
    ensures var a := BuildOffer(items, totals, settings, customer, id, ref, now);
            var b := BuildOfferIntended(items, totals, settings, customer, id, ref, now);
            && a.Success? && b.Success? && a.value.(items := b.value.items) == b.value
            && |a.value.items| == |b.value.items| == |items|
            && (forall i :: 0 <= i < |items| && items[i].Added? ==> a.value.items[i] == b.value.items[i])
            && (forall i :: 0 <= i < |items| && items[i].Listed? ==>
                  a.value.items[i]
                  == b.value.items[i].(materialsUnitCHF := Fin(0.0), laborPerUnitCHF := Fin(0.0),
                                       unitNetCHF := NumberOr(Some(items[i].netPerUnit), Fin(0.0))))
  {
    forall i | 0 <= i < |items|
      ensures items[i].Added? ==> OfferLineAsWritten(items[i]) == OfferLineOf(items[i])
      ensures items[i].Listed? ==>
                OfferLineAsWritten(items[i])
                == OfferLineOf(items[i]).(materialsUnitCHF := Fin(0.0), laborPerUnitCHF := Fin(0.0),
                                          unitNetCHF := NumberOr(Some(items[i].netPerUnit), Fin(0.0)))
    {
      LineKeepsBreakdown(items[i]);
      if items[i].Listed? {
        ListedLineAsWritten(items[i]);
      }
    }
  }
}
