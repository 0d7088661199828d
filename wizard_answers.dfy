/**
 * How the service wizard of src/ai/AIWizard.jsx reads the answers given to
 * the question tree: the comma-tolerant number reading `num`, the choice
 * labels, the completeness check that gates the preview, the call-out
 * switch and the quantity.
 */
module WizardAnswers {
  import opened Wrappers
  import opened JsNumbers
  import opened JsValues
  import opened WizardTree

  type Fields = map<string, Json>

  // ---------------------------------------------------------------------------
  // Reading numbers

  /** `num(v, d)`: the decimal-comma parse of `String(v)`, or `d` when it
    * gives NaN. */
  function NumOf(v: Value, d: real): real {
    ParseDecimal(v).OrIfNaN(d)
  }

  /** `num` falls back exactly when the text is unreadable: a readable zero
    * is kept, unlike with `||`. */
  lemma NumFallsBackOnlyOnNaN(v: Value, d: real)
    ensures NumOf(v, d) == d <== ParseDecimal(v).NaN?
    ensures ParseDecimal(v).Fin? ==> NumOf(v, d) == ParseDecimal(v).r
    ensures ParseDecimal(v) == Fin(0.0) ==> NumOf(v, d) == 0.0
  {
  }

  /** A stored number reads back as itself. */
  lemma {:induction false} NumOfStoredNumber(x: real, d: real)
    requires Representable(x)
    ensures NumOf(Some(JNum(x)), d) == x
  {
    ParseDecimalOfNumber(x);
  }

  /** A missing value, or `null`, takes the fallback. */
  lemma {:induction false} NumOfNothing(v: Value, d: real)
    requires IsNullish(v)
    ensures NumOf(v, d) == d
  {
    UndefinedUnreadable();
  }

  /** `num(n, d)` for a number held in component state: `String(n)` is read
    * back, and NaN prints as "NaN". */
  function NumOfNumber(n: Num, d: real): real {
    ParseDecimalString(NumToString(n)).OrIfNaN(d)
  }

  /** A number in state reads back as itself, and NaN as the fallback. */
  lemma {:induction false} NumOfNumberRule(n: Num, d: real)
    requires n.Fin? ==> Representable(n.r)
    ensures NumOfNumber(n, d) == n.OrIfNaN(d)
  {
    if n.Fin? {
      ParseDecimalOfNumber(n.r);
      assert ToJsString(Some(JNum(n.r))) == NumToString(n);
    } else {
      LetterStartUnreadable("NaN");
    }
  }

  /** `Math.max(1, num(answers.quantita, 1))` */
  function Quantity(answers: Fields): (q: real)
    ensures q >= 1.0
  {
    RMax(1.0, NumOf(Member(Obj(answers), Quantita), 1.0))
  }

  /** The quantity is the typed count when it is at least one, and one when
    * the answer is missing, unreadable or smaller. */
  lemma QuantityRule(answers: Fields)
    ensures ParseDecimal(Member(Obj(answers), Quantita)).Fin? &&
            ParseDecimal(Member(Obj(answers), Quantita)).r >= 1.0 ==>
              Quantity(answers) == ParseDecimal(Member(Obj(answers), Quantita)).r
    ensures !(ParseDecimal(Member(Obj(answers), Quantita)).Fin? &&
              ParseDecimal(Member(Obj(answers), Quantita)).r >= 1.0) ==>
              Quantity(answers) == 1.0
  {
  }

  // ---------------------------------------------------------------------------
  // Labels and descriptions

  /** `labelOf(choices, key)`: the label of the first choice whose key is
    * strictly equal to `key`, else `key` itself. */
  function LabelOf(choices: seq<Choice>, key: Value): (shown: Value)
    decreases |choices|
  {
    if choices == [] then key
    else if key == Some(JStr(choices[0].key)) then Some(JStr(choices[0].caption))
    else LabelOf(choices[1..], key)
  }

  /** A key that is one of the choices gets that choice's label; any other
    * answer is shown as it is. */
  lemma {:induction false} LabelOfChoice(choices: seq<Choice>, i: nat)
    requires i < |choices| && DistinctChoiceKeys(choices)
    ensures LabelOf(choices, Some(JStr(choices[i].key))) == Some(JStr(choices[i].caption))
    decreases i
  {
    if i > 0 {
      assert choices[0].key != choices[i].key;
      assert choices[1..][i - 1] == choices[i];
      LabelOfChoice(choices[1..], i - 1);
    }
  }

  lemma {:induction false} LabelOfOther(choices: seq<Choice>, key: Value)
    requires forall i :: 0 <= i < |choices| ==> key != Some(JStr(choices[i].key))
    ensures LabelOf(choices, key) == key
    decreases |choices|
  {
    if choices != [] {
      assert forall i :: 0 <= i < |choices[1..]| ==> choices[1..][i] == choices[i + 1];
      LabelOfOther(choices[1..], key);
    }
  }

  /** `category.steps?.[i]?.choices`, defaulting to none. */
  function ChoicesAt(c: Category, i: nat): seq<Choice> {
    if i < |c.steps| then StepChoices(c.steps[i]) else []
  }

  /** The truthy parts, each written as `String` writes it. */
  function Shown(parts: seq<Value>): (r: seq<string>)
    ensures |r| <= |parts|
  {
    if parts == [] then []
    else if Truthy(parts[0]) then [ToJsString(parts[0])] + Shown(parts[1..])
    else Shown(parts[1..])
  }

  /** `parts.filter(Boolean).join(" · ")` */
  function JoinParts(parts: seq<Value>): string {
    Join(Shown(parts), " · ")
  }

  /** Falsy parts (a missing answer, an empty label) are dropped rather than
    * shown as "undefined" or leaving an empty slot. */
  lemma {:induction false} FalsyPartsDropped(parts: seq<Value>, i: nat)
    requires i < |parts| && !Truthy(parts[i])
    ensures Shown(parts) == Shown(parts[..i]) + Shown(parts[i + 1..])
    decreases i
  {
    if i == 0 {
      assert parts[..0] == [];
      assert parts[1..] == parts[i + 1..];
    } else {
      assert parts[1..][..i - 1] == parts[1..i];
      assert parts[1..][i..] == parts[i + 1..];
      FalsyPartsDropped(parts[1..], i - 1);
      assert parts[..i] == [parts[0]] + parts[1..i];
      ShownCons(parts[0], parts[1..i]);
    }
  }

  lemma ShownCons(p: Value, rest: seq<Value>)
    ensures Shown([p] + rest) == Shown([p]) + Shown(rest)
  {
    assert ([p] + rest)[1..] == rest;
  }

  /** `` `${descr} × ${qta}` `` when more than one unit is asked for. */
  function WithQuantity(descr: string, qty: real): (r: string)
    ensures qty > 1.0 ==> r == descr + " × " + RealToString(qty)
    ensures qty <= 1.0 ==> r == descr
  {
    if qty > 1.0 then descr + " × " + RealToString(qty) else descr
  }

  // ---------------------------------------------------------------------------
  // Completeness

  /** Whether one step has an answer: a number step needs a value that is
    * not blank, a text step non-blank text, a choice step a truthy key. */
  predicate StepAnswered(s: Step, v: Value) {
    match s.kind
    case NumberStep => !IsNullish(v) && Trim(ToJsString(v)) != ""
    case TextStep => Trim(ToJsString(OrElse(v, Some(JStr(""))))) != ""
    case ChoiceStep(_) => Truthy(v)
  }

  /** Every step of the selected category has an answer. */
  predicate AllAnswered(category: Option<Category>, answers: Fields) {
    category.Some? &&
    forall i :: 0 <= i < |category.value.steps| ==>
      StepAnswered(category.value.steps[i], Member(Obj(answers), category.value.steps[i].key))
  }

  /** `allStepsAnswered` */
  method AllStepsAnswered(category: Option<Category>, answers: Fields) returns (done: bool)
    ensures done <==> AllAnswered(category, answers)
  {
    if category.None? {
      return false;
    }
    var steps := category.value.steps;
    var i := 0;
    while i < |steps|
      invariant 0 <= i <= |steps|
      invariant forall j :: 0 <= j < i ==> StepAnswered(steps[j], Member(Obj(answers), steps[j].key))
    {
      var s := steps[i];
      var v := Member(Obj(answers), s.key);
      match s.kind {
        case NumberStep =>
          if v.None? || v == Some(JNull) || Trim(ToJsString(v)) == "" {
            return false;
          }
        case TextStep =>
          if Trim(ToJsString(OrElse(v, Some(JStr(""))))) == "" {
            return false;
          }
        case ChoiceStep(_) =>
          if !Truthy(v) {
            return false;
          }
      }
      i := i + 1;
    }
    return true;
  }

  /** A number step answered with zero counts as answered, while a choice
    * step answered with the empty key does not. */
  lemma ZeroCountsAsAnswered(caption: string)
    ensures StepAnswered(QuantityStep(caption), Some(JNum(0.0)))
    ensures StepAnswered(QuantityStep(caption), Some(JStr("0")))
    ensures !StepAnswered(Step("tipo", caption, ChoiceStep([])), Some(JStr("")))
  {
    ZeroPrints();
    ZeroNotBlank();
  }

  lemma ZeroNotBlank()
    ensures Trim("0") == "0"
  {
    TrimNoSpace("0");
  }

  /** White space alone does not answer a number step. */
  lemma BlankNotAnswered(caption: string)
    ensures !StepAnswered(QuantityStep(caption), Some(JStr(" ")))
  {
    assert TrimStart(" ") == TrimStart("");
  }

  /** Once any step lacks an answer the category is incomplete. */
  lemma {:induction false} MissingAnswerBlocks(c: Category, answers: Fields, i: nat)
    requires i < |c.steps| && c.steps[i].key !in answers
    ensures !AllAnswered(Some(c), answers)
  {
    assert Member(Obj(answers), c.steps[i].key) == None;
    assert !StepAnswered(c.steps[i], None) by {
      match c.steps[i].kind
      case NumberStep =>
      case TextStep => assert ToJsString(Some(JStr(""))) == "";
      case ChoiceStep(_) =>
    }
  }

  // ---------------------------------------------------------------------------
  // Call-out

  /** `(answers?.applyCallout ?? false) || (!!autoApplyCallout &&
    * answers?.applyCallout == null)`, as the condition that selects the fee. */
  predicate CalloutApplied(explicit: Value, auto: Value) {
    Truthy(OrElse(Coalesce(explicit, Some(JBool(false))), Some(JBool(Truthy(auto) && IsNullish(explicit)))))
  }

  /** The call-out is a three-way switch: an explicit answer decides, and
    * without one the administrator's default does. */
  lemma CalloutTriState(explicit: Value, auto: Value)
    ensures explicit == Some(JBool(true)) ==> CalloutApplied(explicit, auto)
    ensures explicit == Some(JBool(false)) ==> !CalloutApplied(explicit, auto)
    ensures IsNullish(explicit) ==> (CalloutApplied(explicit, auto) <==> Truthy(auto))
    ensures !IsNullish(explicit) ==> (CalloutApplied(explicit, auto) <==> Truthy(explicit))
  {
  }
}
