/**
 * The mini-cart of the service wizard in src/ai/AIWizard.jsx: the two
 * shapes of item it holds, removal by id and by position, and the totals
 * shown under the list.
 */
module WizardCart {
  import opened Wrappers
  import opened JsNumbers
  import opened JsValues
  import opened WizardAnswers
  import opened WizardPreview

  // ---------------------------------------------------------------------------
  // Items

  /** `answers?.travelMinutes ?? (Number(defaults.travelMinutesOneWayLocal ?? 0) * 2)`:
    * the typed round trip, or the default one. */
  datatype TravelNote = TypedTravel(answer: Json) | DefaultTravel(minutes: Num)

  /** What a listed item remembers of the answers that priced it. */
  datatype ItemMeta = ItemMeta(category: Option<string>, answers: Fields, travelMinutesAR: TravelNote,
                               calloutApplied: bool)

  /** An item of the cart. `Listed` is what "Aggiungi alla lista" stores
    * from `computePreviewFromAnswers`; `Added` is what `handleAddItem`
    * stores from the `preview` memo. Every figure is a JavaScript number. */
  datatype Item =
    | Listed(description: string, qty: real, netPerUnit: Num, materialsPerUnit: Num, laborPerUnit: Num,
             subtotal: Num, total: Num, vatPct: Num, meta: ItemMeta)
    | Added(id: string, category: Option<string>, description: string, qty: real, minutesPerUnit: Num,
            materialsUnit: Num, laborPerUnitCHF: Num, netPerUnit: Num)

  /** `it.id`: listed items carry none. */
  function IdOf(it: Item): Option<string> {
    if it.Added? then Some(it.id) else None
  }

  /** `it.minutesPerUnit`, `it.materialsUnit`, `it.laborPerUnitCHF`,
    * `it.subtotal` and `it.total`: each is carried by one shape only and
    * reads `undefined` on the other. */
  function MinutesPerUnitOf(it: Item): Option<Num> {
    if it.Added? then Some(it.minutesPerUnit) else None
  }

  function MaterialsUnitOf(it: Item): Option<Num> {
    if it.Added? then Some(it.materialsUnit) else None
  }

  function LaborPerUnitCHFOf(it: Item): Option<Num> {
    if it.Added? then Some(it.laborPerUnitCHF) else None
  }

  function SubtotalOf(it: Item): Option<Num> {
    if it.Listed? then Some(it.subtotal) else None
  }

  function TotalOf(it: Item): Option<Num> {
    if it.Listed? then Some(it.total) else None
  }

  /** `Number(x || d)` for a property that is a number or `undefined`:
    * `undefined`, 0 and NaN are falsy and give `d`. */
  function NumberOr(x: Option<Num>, d: Num): (n: Num)
    ensures x.Some? && x.value.Fin? && x.value.r != 0.0 ==> n == x.value
    ensures !(x.Some? && x.value.Fin? && x.value.r != 0.0) ==> n == d
  {
    if x.Some? && x.value.Fin? && x.value.r != 0.0 then x.value else d
  }

  /** The item `addCurrentToList` appends for a line of
    * `computePreviewFromAnswers`. */
  function ListedOf(p: LineA, meta: ItemMeta): (it: Item)
    ensures it.Listed? && it.description == p.description && it.qty == p.qta
    ensures it.netPerUnit == p.netPU && it.materialsPerUnit == p.materialsPU && it.laborPerUnit == p.laborPU
    ensures it.subtotal == p.subtotal && it.total == p.total && it.vatPct == p.vatPct && it.meta == meta
  {
    Listed(p.description, p.qta, p.netPU, p.materialsPU, p.laborPU, p.subtotal, p.total, p.vatPct, meta)
  }

  /** The item `handleAddItem` appends for the memo's line. */
  function AddedOf(id: string, activeCat: Option<string>, p: LineB): (it: Item)
    ensures it.Added? && IdOf(it) == Some(id) && it.category == activeCat && it.description == p.description
    ensures it.qty == p.qty && it.minutesPerUnit == Fin(p.minutesPerUnit) && it.materialsUnit == Fin(p.materialsUnit)
    ensures it.laborPerUnitCHF == Fin(p.laborPerUnitCHF) && it.netPerUnit == Fin(p.netPerUnit)
  {
    Added(id, activeCat, p.description, p.qty, Fin(p.minutesPerUnit), Fin(p.materialsUnit),
          Fin(p.laborPerUnitCHF), Fin(p.netPerUnit))
  }

  // ---------------------------------------------------------------------------
  // Removal

  /** `items.filter(i => i.id !== id)` */
  function RemoveById(items: seq<Item>, id: Option<string>): seq<Item>
    decreases |items|
  {
    if items == [] then []
    else if IdOf(items[0]) != id then [items[0]] + RemoveById(items[1..], id)
    else RemoveById(items[1..], id)
  }

  /** Removing by id drops every item with that id and keeps every other
    * item as many times as it was there. */
  lemma {:induction false} RemoveByIdCounts(items: seq<Item>, id: Option<string>, x: Item)
    ensures multiset(RemoveById(items, id))[x] == if IdOf(x) == id then 0 else multiset(items)[x]
    decreases |items|
  {
    if items != [] {
      RemoveByIdCounts(items[1..], id, x);
      assert items == [items[0]] + items[1..];
    }
  }

  /** The items that survive keep their order. */
  lemma {:induction false} RemoveByIdKeepsOrder(items: seq<Item>, id: Option<string>)
    ensures RemoveById(items, id) == KeptById(items, id)
    decreases |items|
  {
    if items != [] {
      RemoveByIdKeepsOrder(items[1..], id);
      KeptByIdCons(items, id);
    }
  }

  /** The same filter read from the end: the kept items of all but the last,
    * then the last one if it is kept. */
  function KeptById(items: seq<Item>, id: Option<string>): seq<Item>
    decreases |items|
  {
    if items == [] then []
    else
      var last := items[|items| - 1];
      KeptById(items[..|items| - 1], id) + (if IdOf(last) != id then [last] else [])
  }

  lemma {:induction false} KeptByIdCons(items: seq<Item>, id: Option<string>)
    requires items != []
    ensures KeptById(items, id) == (if IdOf(items[0]) != id then [items[0]] else []) + KeptById(items[1..], id)
    decreases |items|
  {
    if |items| > 1 {
      var init := items[..|items| - 1];
      KeptByIdCons(init, id);
      assert init[1..] == items[1..][..|items[1..]| - 1];
      assert items[1..][|items[1..]| - 1] == items[|items| - 1];
    } else {
      assert items[..0] == [];
      assert items[1..] == [];
    }
  }

  /** Every listed item reads `it.id` as `undefined`, so the "Rimuovi" button
    * of a listed item, which removes by `it.id`, removes every listed item
    * at once. */
  lemma {:induction false} RemovingAListedItemRemovesAllListed(items: seq<Item>, i: nat)
    requires i < |items| && items[i].Listed?
    ensures forall j :: 0 <= j < |RemoveById(items, IdOf(items[i]))| ==> RemoveById(items, IdOf(items[i]))[j].Added?
  {
    assert IdOf(items[i]) == None;
    var r := RemoveById(items, None);
    forall j | 0 <= j < |r|
      ensures r[j].Added?
    {
      RemoveByIdCounts(items, None, r[j]);
      assert r[j] in multiset(r);
    }
  }

  /** A cart of two listed items: removing the first one empties it. */
  lemma TwoListedItemsBothRemoved(a: Item, b: Item)
    requires a.Listed? && b.Listed?
    ensures RemoveById([a, b], IdOf(a)) == []
  {
    assert IdOf(a) == None && IdOf(b) == None;
    assert [a, b][1..] == [b];
    assert [b][1..] == [];
    assert RemoveById([b], None) == RemoveById([], None);
  }

  /** Removing the item at position `i`, the evident intent of the "Rimuovi"
    * button of the selected-items table: every other item stays, in order.
    * A position past the end removes nothing. */
  function RemoveAt(items: seq<Item>, i: nat): (r: seq<Item>)
    ensures i < |items| ==> |r| == |items| - 1
    ensures i >= |items| ==> r == items
  {
    if i < |items| then items[..i] + items[i + 1..] else items
  }

  /** Exactly the item at `i` goes: the ones before keep their positions and
    * the ones after move up by one. */
  lemma RemoveAtSpec(items: seq<Item>, i: nat)
    requires i < |items|
    ensures forall j :: 0 <= j < i ==> RemoveAt(items, i)[j] == items[j]
    ensures forall j :: i <= j < |items| - 1 ==> RemoveAt(items, i)[j] == items[j + 1]
    ensures multiset(RemoveAt(items, i)) + multiset{items[i]} == multiset(items)
  {
    assert items == items[..i] + [items[i]] + items[i + 1..];
  }

  /** Removing by position removes a single listed item, not all of them. */
  lemma RemoveAtKeepsOtherListed(a: Item, b: Item)
    requires a.Listed? && b.Listed?
    ensures RemoveAt([a, b], 0) == [b]
  {
  }

  /** The names of lines 27-38 and 207-386 of src/ai/AIWizard.jsx that the
    * cart's buttons can call. */
  const WizardScope: set<string> :=
    {"items", "setItems", "addCurrentToList", "handleAddItem", "handleRemoveItem", "handleClearCart",
     "generateOffer"}

  /** The click on "Rimuovi" in the selected-items table, `removeItem(i)`,
    * where the names of `scope` are declared. */
  function RemoveRowIn(scope: set<string>, items: seq<Item>, i: nat): (r: Result<seq<Item>>)
    ensures r.Success? <==> "removeItem" in scope
  {
    Identifier(scope, "removeItem", RemoveAt(items, i))
  }

  /** As written, line 688 calls `removeItem`, which the component does not
    * declare: every click throws and the cart stays as it is. */
  lemma RemoveRowThrows(items: seq<Item>, i: nat)
    ensures RemoveRowIn(WizardScope, items, i) == Failure(ReferenceError("removeItem"))
  {
  }

  /** With `removeItem` declared as removal by position, the click removes
    * the item at `i`. */
  lemma RemoveRowRemoves(items: seq<Item>, i: nat)
    ensures RemoveRowIn(WizardScope + {"removeItem"}, items, i) == Success(RemoveAt(items, i))
  {
  }

  // ---------------------------------------------------------------------------
  // Totals

  /** `i.netPerUnit * i.qty` */
  function LineNet(it: Item): Num {
    Mul(it.netPerUnit, Fin(it.qty))
  }

  /** `items.reduce((sum, i) => sum + i.netPerUnit * i.qty, 0)`, folded from
    * the left as `reduce` does. */
  function ItemsSubtotal(items: seq<Item>): Num
    decreases |items|
  {
    if items == [] then Fin(0.0)
    else Add(ItemsSubtotal(items[..|items| - 1]), LineNet(items[|items| - 1]))
  }

  lemma AddAssoc(a: Num, b: Num, c: Num)
    ensures Add(Add(a, b), c) == Add(a, Add(b, c))
  {
  }

  /** The subtotal of two lists put together is the sum of their subtotals. */
  lemma {:induction false} ItemsSubtotalConcat(xs: seq<Item>, ys: seq<Item>)
    ensures ItemsSubtotal(xs + ys) == Add(ItemsSubtotal(xs), ItemsSubtotal(ys))
    decreases |ys|
  {
    if ys == [] {
      assert xs + ys == xs;
      ZeroRight(ItemsSubtotal(xs));
    } else {
      var init := ys[..|ys| - 1];
      var last := ys[|ys| - 1];
      assert (xs + ys)[..|xs + ys| - 1] == xs + init;
      assert (xs + ys)[|xs + ys| - 1] == last;
      ItemsSubtotalConcat(xs, init);
      AddAssoc(ItemsSubtotal(xs), ItemsSubtotal(init), LineNet(last));
    }
  }

  lemma ZeroRight(a: Num)
    ensures Add(a, Fin(0.0)) == a
  {
  }

  /** One line whose net unit price is NaN makes the whole subtotal NaN. */
  lemma {:induction false} NaNLineSpoilsSubtotal(items: seq<Item>, i: nat)
    requires i < |items| && items[i].netPerUnit.NaN?
    ensures ItemsSubtotal(items).NaN?
    decreases |items|
  {
    if i < |items| - 1 {
      NaNLineSpoilsSubtotal(items[..|items| - 1], i);
    }
  }

  /** The totals under the cart. */
  datatype Totals = Totals(itemsSubtotal: Num, travel: real, callout: real, net: Num, vat: Num, gross: Num)

  /** `itemsSubtotal`, `travelCHF`, `calloutCHF`, `subtotal`, `vat` and
    * `total`, from the rates the memo reads, `num(travelMinutes, 0)` and the
    * call-out switch. */
  function CartTotals(items: seq<Item>, r: RatesB, travelRead: real, applyCallout: bool, vatPct: Num): Totals {
    var sum := ItemsSubtotal(items);
    var travel := r.travelPerMin * RMax(0.0, travelRead);
    var callout := if applyCallout then r.calloutFee else 0.0;
    var net := Add(Add(sum, Fin(travel)), Fin(callout));
    var vat := Mul(net, Div(vatPct, Fin(100.0)));
    Totals(sum, travel, callout, net, vat, Add(net, vat))
  }

  /** Travel and call-out are charged once per cart: more items add only
    * their own lines to the net. */
  lemma MoreItemsAddOnlyTheirLines(xs: seq<Item>, ys: seq<Item>, r: RatesB, travelRead: real,
                                   applyCallout: bool, vatPct: Num)
    ensures var t := CartTotals(xs, r, travelRead, applyCallout, vatPct);
            CartTotals(xs + ys, r, travelRead, applyCallout, vatPct).net
            == Add(Add(Add(t.itemsSubtotal, ItemsSubtotal(ys)), Fin(t.travel)), Fin(t.callout))
    ensures CartTotals(xs + ys, r, travelRead, applyCallout, vatPct).travel
            == CartTotals(xs, r, travelRead, applyCallout, vatPct).travel
    ensures CartTotals(xs + ys, r, travelRead, applyCallout, vatPct).callout
            == CartTotals(xs, r, travelRead, applyCallout, vatPct).callout
  {
    ItemsSubtotalConcat(xs, ys);
  }

  /** An empty cart still shows travel and call-out. */
  lemma EmptyCartTotals(r: RatesB, travelRead: real, applyCallout: bool, vatPct: Num)
    ensures var t := CartTotals([], r, travelRead, applyCallout, vatPct);
            t.itemsSubtotal == Fin(0.0) && t.net == Fin(0.0 + t.travel + t.callout)
  {
  }

  /** With a readable VAT rate the gross is the net with that percentage
    * added; an unreadable rate makes the VAT and the gross NaN. */
  lemma GrossAddsVat(items: seq<Item>, r: RatesB, travelRead: real, applyCallout: bool, vatPct: Num)
    ensures var t := CartTotals(items, r, travelRead, applyCallout, vatPct);
            t.net.Fin? && vatPct.Fin? ==> t.gross == Fin(t.net.r + t.net.r * (vatPct.r / 100.0))
    ensures vatPct.NaN? ==> CartTotals(items, r, travelRead, applyCallout, vatPct).gross.NaN?
  {
  }

  /** A cart holding only the item `handleAddItem` made from the memo's line
    * has the line's subtotal as its net: the two computations agree. */
  lemma {:induction false} SingleAddedItemMatchesPreview(id: string, activeCat: Option<string>, descr: string,
                                                        qty: real, minutes: real, materials: real, r: RatesB,
                                                        travelRead: real, applyCallout: bool, vatPct: Num)
    ensures var p := PricedB(descr, qty, minutes, materials, r, travelRead, applyCallout, vatPct);
            CartTotals([AddedOf(id, activeCat, p)], r, travelRead, applyCallout, vatPct).net == Fin(p.subtotal)
  {
    var p := PricedB(descr, qty, minutes, materials, r, travelRead, applyCallout, vatPct);
    var it := AddedOf(id, activeCat, p);
    assert [it][..0] == [] && [it][0] == it;
    assert p.qty == qty && LineNet(it) == Mul(Fin(p.netPerUnit), Fin(qty));
    assert ItemsSubtotal([it]) == Add(ItemsSubtotal([]), LineNet(it));
    var t := CartTotals([it], r, travelRead, applyCallout, vatPct);
    assert t.itemsSubtotal == Add(Fin(0.0), Mul(Fin(p.netPerUnit), Fin(qty)));
    assert t.travel == p.travelCHF && t.callout == p.calloutCHF;
    LineAgrees(p.netPerUnit, qty, t.travel, t.callout, p.subtotal);
  }

  lemma LineAgrees(net: real, qty: real, travel: real, fee: real, sub: real)
    requires sub == net * qty + travel + fee
    ensures Add(Add(Add(Fin(0.0), Mul(Fin(net), Fin(qty))), Fin(travel)), Fin(fee)) == Fin(sub)
  {
  }
}
