/**
 * The state of the service wizard of src/ai/AIWizard.jsx as an object: the
 * selected category, the answers, the cart, the round-trip travel minutes,
 * the call-out switch and the customer. The input handlers, the two ways
 * of adding to the cart, removal, clearing and `generateOffer` change or
 * read that state.
 */
module WizardSession {
  import opened Wrappers
  import opened JsNumbers
  import opened JsValues
  import opened WizardTree
  import opened WizardAnswers
  import opened WizardPreview
  import opened WizardCart
  import opened WizardOffer

  // ---------------------------------------------------------------------------
  // What the component reads from its settings

  /** `settings.aiConfig || {}` */
  function ConfigOf(settings: Value): Value {
    OrElse(Member(settings, "aiConfig"), Some(JObj(map[])))
  }

  /** `settings?.aiCatalog ?? {}` */
  function CatalogOf(settings: Value): Value {
    Coalesce(Member(settings, "aiCatalog"), Some(JObj(map[])))
  }

  /** `Number(aiConfig?.defaults?.travelMinutesOneWayLocal || 0) * 2` */
  function InitialTravel(settings: Value): Num {
    Mul(ToNumber(OrElse(Member(Member(ConfigOf(settings), "defaults"), "travelMinutesOneWayLocal"),
                        Some(JNum(0.0)))), Fin(2.0))
  }

  /** `categories.find(c => c.key === activeCat) || null` */
  function CategoryOf(activeCat: Option<string>): Option<Category> {
    if activeCat.None? then None else FindCategory(Categories, activeCat.value)
  }

  /** The `meta` of an item `addCurrentToList` stores. */
  function MetaOf(settings: Value, category: Option<Category>, answers: Fields): ItemMeta {
    var typed := Answer(answers, "travelMinutes");
    var config := Member(settings, "aiConfig");
    ItemMeta(if category.Some? then Some(category.value.key) else None, answers,
             if IsNullish(typed) then
               DefaultTravel(Mul(ToNumber(Coalesce(Member(Member(config, "defaults"), "travelMinutesOneWayLocal"),
                                                   Some(JNum(0.0)))), Fin(2.0)))
             else TypedTravel(typed.value),
             CalloutApplied(Answer(answers, "applyCallout"), Member(config, "autoApplyCallout")))
  }

  // ---------------------------------------------------------------------------
  // Typed numbers

  /** The characters `replace(/[^0-9]/g, "")` keeps. */
  const DigitChars: set<char> := {'0', '1', '2', '3', '4', '5', '6', '7', '8', '9'}

  /** What a numeric input stores: the digits typed, in order. */
  function TypedDigits(text: string): (ds: string)
    ensures AllDigits(ds)
  {
    KeepOnly(text, DigitChars)
  }

  /** `Number(String(text).replace(/[^0-9]/g, "")) || 0` */
  function TravelTyped(text: string): Num {
    NumberOr(Some(StringToNumber(TypedDigits(text))), Fin(0.0))
  }

  /** Digits read as their value under `Number`, and the empty string as 0. */
  lemma DigitsRead(ds: string)
    requires AllDigits(ds)
    ensures StringToNumber(ds) == Fin(DigitsValue(ds) as real)
    ensures ParseDecimalString(ds) == if ds == [] then NaN else Fin(DigitsValue(ds) as real)
  {
    if ds == [] {
      TrimEmpty();
      EmptyUnreadable();
    } else {
      ParsePlain(ds, "", ds);
      FirstCommaToDotSpec(ds, 0);
    }
  }

  /** The travel field always holds a whole number of minutes, never
    * negative and never NaN: the value of the digits typed, 0 without any. */
  lemma TravelTypedIsWholeMinutes(text: string)
    ensures TravelTyped(text) == Fin(DigitsValue(TypedDigits(text)) as real)
    ensures TravelTyped(text).r >= 0.0 && TravelTyped(text).r == TravelTyped(text).r.Floor as real
  {
    DigitsRead(TypedDigits(text));
  }

  /** A numeric answer reads back under `num` as the digits typed, and the
    * fallback when none are typed. */
  lemma TypedNumberReads(text: string, d: real)
    ensures var ds := TypedDigits(text);
            && (ds != [] ==> NumOf(Some(JStr(ds)), d) == DigitsValue(ds) as real)
            && (ds == [] ==> NumOf(Some(JStr(ds)), d) == d)
  {
    var ds := TypedDigits(text);
    DigitsRead(ds);
    assert ToJsString(Some(JStr(ds))) == ds;
  }

  /** A number step is answered exactly when some digit was typed. */
  lemma TypedNumberAnswers(text: string, caption: string)
    ensures StepAnswered(QuantityStep(caption), Some(JStr(TypedDigits(text)))) <==> TypedDigits(text) != []
  {
    var ds := TypedDigits(text);
    assert ToJsString(Some(JStr(ds))) == ds;
    if ds == [] {
      TrimEmpty();
    } else {
      assert NoSpace(ds) by {
        forall i | 0 <= i < |ds| ensures !IsSpace(ds[i]) {
          assert IsDigit(ds[i]);
        }
      }
      TrimNoSpace(ds);
    }
  }

  /** The quantity answer `handleAddItem` leaves behind reads as one unit,
    * and it leaves every category that ends with a quantity step
    * incomplete. */
  lemma QuantityClearedToOne(c: Category, answers: Fields)
    requires EndsWithQuantity(c)
    ensures Quantity(answers[Quantita := JStr("")]) == 1.0
    ensures !AllAnswered(Some(c), answers[Quantita := JStr("")])
  {
    EmptyUnreadable();
    var a := answers[Quantita := JStr("")];
    assert ToJsString(Answer(a, Quantita)) == "";
    var i := |c.steps| - 1;
    assert c.steps[i] == QuantityStep(c.steps[i].caption);
    TrimEmpty();
    assert !StepAnswered(c.steps[i], Answer(a, c.steps[i].key));
  }

  /** Selecting a category starts it with no answer, so the preview of
    * `computePreviewFromAnswers` waits until every step is answered again. */
  lemma FreshCategoryIncomplete(c: Category)
    requires |c.steps| > 0
    ensures !AllAnswered(Some(c), map[])
  {
    MissingAnswerBlocks(c, map[], 0);
  }

  /** What `handleAddItem` appends for the memo's line: one item, or
    * nothing without a preview. */
  function AddedLine(id: string, activeCat: Option<string>, p: Option<LineB>): seq<Item> {
    if p.None? then [] else [AddedOf(id, activeCat, p.value)]
  }

  /** The answers after `handleAddItem`: the quantity cleared, unless there
    * was no preview. */
  function AnswersAfterAdd(answers: Fields, p: Option<LineB>): (r: Fields)
    ensures p.Some? ==> r.Keys == answers.Keys + {Quantita} && r[Quantita] == JStr("")
    ensures p.Some? ==> forall k :: k in answers && k != Quantita ==> r[k] == answers[k]
    ensures p.None? ==> r == answers
  {
    if p.None? then answers else answers[Quantita := JStr("")]
  }

  // ---------------------------------------------------------------------------
  // The component

  class Wizard {
    const settings: Value
    var activeCat: Option<string>
    var answers: Fields
    var items: seq<Item>
    var travelMinutes: Num
    var applyCallout: bool
    var customer: Value

    /** The initial state: no category, no answers, an empty cart, the
      * default round trip and the administrator's call-out default. */
    constructor(s: Value)
      ensures settings == s && activeCat == None && answers == map[] && items == []
      ensures travelMinutes == InitialTravel(s)
      ensures applyCallout == Truthy(Member(ConfigOf(s), "autoApplyCallout"))
      ensures customer == Obj(map[])
    {
      settings := s;
      activeCat := None;
      answers := map[];
      items := [];
      travelMinutes := InitialTravel(s);
      applyCallout := Truthy(Member(ConfigOf(s), "autoApplyCallout"));
      customer := Obj(map[]);
    }

    /** A category button: select it and forget the previous answers. */
    method SelectCategory(key: string)
      modifies this`activeCat, this`answers
      ensures activeCat == Some(key) && answers == map[]
    {
      activeCat := Some(key);
      answers := map[];
    }

    /** The back button: no category; the answers stay. */
    method LeaveCategory()
      modifies this`activeCat
      ensures activeCat == None
    {
      activeCat := None;
    }

    /** A choice button records the choice's key. */
    method Choose(stepKey: string, choiceKey: string)
      modifies this`answers
      ensures answers == old(answers)[stepKey := JStr(choiceKey)]
    {
      answers := answers[stepKey := JStr(choiceKey)];
    }

    /** A number field records the digits typed. */
    method TypeNumber(stepKey: string, text: string)
      modifies this`answers
      ensures answers == old(answers)[stepKey := JStr(TypedDigits(text))]
    {
      answers := answers[stepKey := JStr(KeepOnly(text, DigitChars))];
    }

    /** A text field records the text as typed. */
    method TypeText(stepKey: string, text: string)
      modifies this`answers
      ensures answers == old(answers)[stepKey := JStr(text)]
    {
      answers := answers[stepKey := JStr(text)];
    }

    /** The call-out checkbox. */
    method SetApplyCallout(checked: bool)
      modifies this`applyCallout
      ensures applyCallout == checked
    {
      applyCallout := checked;
    }

    /** The travel field. */
    method TypeTravel(text: string)
      modifies this`travelMinutes
      ensures travelMinutes == TravelTyped(text)
      ensures travelMinutes.Fin? && travelMinutes.r >= 0.0
    {
      var ds := KeepOnly(text, DigitChars);
      var n := StringToNumber(ds);
      travelMinutes := if n.Fin? && n.r != 0.0 then n else Fin(0.0);
      TravelTypedIsWholeMinutes(text);
    }

    /** `addCurrentToList`: append the line `computePreviewFromAnswers`
      * prices, if any, with what priced it. */
    method AddCurrentToList()
      modifies this`items
      ensures var p := PreviewA(answers, CategoryOf(activeCat), CatalogOf(settings), settings);
              items == old(items) + (if p.Some? then [ListedOf(p.value, MetaOf(settings, CategoryOf(activeCat), answers))]
                                     else [])
    {
      var category := CategoryOf(activeCat);
      var p := ComputePreviewFromAnswers(answers, category, CatalogOf(settings), settings);
      if p.None? {
        return;
      }
      items := items + [ListedOf(p.value, MetaOf(settings, category, answers))];
    }

    /** `handleAddItem`: append the memo's line under the identifier given,
      * and clear the quantity; nothing happens without a preview. */
    method HandleAddItem(id: string)
      modifies this`items, this`answers
      ensures var p := PreviewB(activeCat, old(answers), CatalogOf(settings), ConfigOf(settings), travelMinutes,
                                applyCallout, ChargedVatPercent(settings));
              items == old(items) + AddedLine(id, activeCat, p) && answers == AnswersAfterAdd(old(answers), p)
    {
      var p := PreviewMemo(activeCat, answers, CatalogOf(settings), ConfigOf(settings), travelMinutes, applyCallout,
                           ChargedVatPercent(settings));
      Append(id, p);
    }

    /** The updates `handleAddItem` makes once the memo has been read. */
    method Append(id: string, p: Option<LineB>)
      modifies this`items, this`answers
      ensures items == old(items) + AddedLine(id, activeCat, p) && answers == AnswersAfterAdd(old(answers), p)
    {
      if p.None? {
        return;
      }
      items := items + [AddedOf(id, activeCat, p.value)];
      answers := answers[Quantita := JStr("")];
    }

    /** `handleRemoveItem(id)`, which the cart's buttons call with
      * `it.id`. */
    method HandleRemoveItem(id: Option<string>)
      modifies this`items
      ensures items == RemoveById(old(items), id)
    {
      items := RemoveById(items, id);
    }

    /** The list's "Rimuovi" button for the item at position `i`. */
    method RemoveItemAt(i: nat)
      modifies this`items
      ensures items == RemoveAt(old(items), i)
    {
      items := RemoveAt(items, i);
    }

    /** `handleClearCart` and "Svuota lista". */
    method HandleClearCart()
      modifies this`items
      ensures items == []
    {
      items := [];
    }

    /** The totals under the cart. */
    function CurrentTotals(): Totals
      reads this
    {
      CartTotals(items, ReadRatesB(ConfigOf(settings)), NumOfNumber(travelMinutes, 0.0), applyCallout,
                 ChargedVatPercent(settings))
    }

    /** `generateOffer` with the identifier, the date, the random part of
      * the reference and the clock given: the offer it would save, or the
      * refusal of an empty cart. */
    method GenerateOffer(id: string, year: nat, month: nat, day: nat, refId: string, now: int)
      returns (r: Result<Offer>)
      ensures r == BuildOffer(items, CurrentTotals(), settings, customer, id, NextRef(year, month, day, refId), now)
      ensures r.Failure? <==> items == []
    {
      if items == [] {
        return Failure(EmptyCartMessage);
      }
      var ref := NextRef(year, month, day, refId);
      r := BuildOffer(items, CurrentTotals(), settings, customer, id, ref, now);
    }
  }
}
