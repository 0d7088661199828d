/**
 * The questionnaire the service wizard walks (src/ai/wizardTree.js): eight
 * work categories, each a list of steps, each step a single choice, a number
 * or a free text.
 */
module WizardTree {
  import opened Wrappers

  datatype Choice = Choice(key: string, caption: string)

  /** A step with a `choices` list, or one whose `type` is "number" or "text". */
  datatype StepKind = ChoiceStep(choices: seq<Choice>) | NumberStep | TextStep

  datatype Step = Step(key: string, caption: string, kind: StepKind)

  datatype Category = Category(key: string, caption: string, steps: seq<Step>)

  /** `step?.choices ?? []` as `labelOf` receives it. */
  function StepChoices(s: Step): seq<Choice> {
    if s.kind.ChoiceStep? then s.kind.choices else []
  }

  const Quantita: string := "quantita"

  function QuantityStep(caption: string): Step {
    Step(Quantita, caption, NumberStep)
  }

  const Luce: Category := Category("luce", "Luce", [
    Step("tipoLuce", "Che tipo di luce?", ChoiceStep([
      Choice("parete", "Lampada a parete"),
      Choice("plafone", "Lampada a plafone"),
      Choice("pavimento", "Lampada a pavimento"),
      Choice("strisce_led", "Strisce LED"),
      Choice("binari", "Binari elettrificati"),
      Choice("lampioni", "Lampioni esterni")])),
    Step("ambiente", "Ambiente?", ChoiceStep([
      Choice("interno", "Interno"),
      Choice("esterno", "Esterno")])),
    Step("stile", "Stile/Classe prodotto?", ChoiceStep([
      Choice("semplice", "Semplice"),
      Choice("moderna", "Moderna"),
      Choice("design", "Design")])),
    QuantityStep("Quante unità?")])

  const PreseInterruttori: Category := Category("prese_interruttori", "Prese / Interruttori", [
    Step("tipoPunto", "Cosa serve?", ChoiceStep([
      Choice("presa_schuko", "Presa Schuko"),
      Choice("interruttore", "Interruttore"),
      Choice("dimmer", "Dimmer luce")])),
    QuantityStep("Quante unità?")])

  const Wallbox: Category := Category("wallbox", "Wallbox", [
    Step("potenza", "Potenza wallbox?", ChoiceStep([
      Choice("11", "11 kW"),
      Choice("22", "22 kW")])),
    Step("tipoWB", "Tipo punto di ricarica?", ChoiceStep([
      Choice("presa", "Presa semplice"),
      Choice("standard", "Wallbox standard"),
      Choice("smart", "Wallbox smart")])),
    Step("distanza", "Distanza dal quadro (stimata)", ChoiceStep([
      Choice("0-5", "0–5 m"),
      Choice("5-10", "5–10 m"),
      Choice("10-25", "10–25 m"),
      Choice("25-50", "25–50 m")])),
    QuantityStep("Quanti punti?")])

  const Telefonia: Category := Category("telefonia", "Telefonia / Internet", [
    Step("tipo", "Cosa serve?", ChoiceStep([
      Choice("presa_rj45", "Presa dati RJ45"),
      Choice("access_point", "Access Point")])),
    QuantityStep("Quante unità?")])

  const Videosorveglianza: Category := Category("videosorveglianza", "Videosorveglianza / Sicurezza", [
    Step("tipo", "Cosa serve?", ChoiceStep([
      Choice("telecamera", "Telecamera"),
      Choice("videocitofono", "Videocitofono")])),
    QuantityStep("Quante unità?")])

  const Domotica: Category := Category("domotica", "Domotica", [
    Step("tipo", "Cosa serve?", ChoiceStep([
      Choice("modulo_rele", "Modulo relè smart"),
      Choice("hub_domotico", "Hub domotico")])),
    QuantityStep("Quante unità?")])

  const Riparazioni: Category := Category("riparazioni", "Riparazioni", [
    Step("tipo", "Area intervento?", ChoiceStep([
      Choice("corto_circuito", "Ricerca guasto/CC"),
      Choice("ripristino_linea", "Ripristino linea")])),
    QuantityStep("Numero attività")])

  const Altro: Category := Category("altro", "Altro", [
    Step("descrizione", "Descrivi la richiesta", TextStep),
    QuantityStep("Quante unità?")])

  /** `WIZARD_TREE.categories` */
  const Categories: seq<Category> :=
    [Luce, PreseInterruttori, Wallbox, Telefonia, Videosorveglianza, Domotica, Riparazioni, Altro]

  /** The category keys the pricing switch handles, in tree order. */
  const HandledKeys: seq<string> :=
    ["luce", "prese_interruttori", "wallbox", "telefonia", "videosorveglianza",
     "domotica", "riparazioni", "altro"]

  function CategoryKeys(cs: seq<Category>): (ks: seq<string>)
    ensures |ks| == |cs|
    ensures forall i :: 0 <= i < |cs| ==> ks[i] == cs[i].key
  {
    if cs == [] then [] else [cs[0].key] + CategoryKeys(cs[1..])
  }

  /** `categories.find(c => c.key === key)` */
  function FindCategory(cs: seq<Category>, key: string): (r: Option<Category>)
    ensures r.Some? <==> exists i :: 0 <= i < |cs| && cs[i].key == key
    ensures r.Some? ==> r.value in cs && r.value.key == key
    ensures r.Some? ==> exists i :: 0 <= i < |cs| && cs[i] == r.value
                          && forall j :: 0 <= j < i ==> cs[j].key != key
  {
    if cs == [] then None
    else if cs[0].key == key then Some(cs[0])
    else
      var r := FindCategory(cs[1..], key);
      assert forall i :: 1 <= i < |cs| ==> cs[i] == cs[1..][i - 1];
      if r.Some? then
        ghost var i :| 0 <= i < |cs[1..]| && cs[1..][i] == r.value
                       && forall j :: 0 <= j < i ==> cs[1..][j].key != key;
        assert cs[i + 1] == r.value;
        assert forall j :: 0 <= j < i + 1 ==> cs[j].key != key by {
          forall j | 0 <= j < i + 1 ensures cs[j].key != key {
            if j > 0 { assert cs[j] == cs[1..][j - 1]; }
          }
        }
        r
      else
        assert !exists i :: 0 <= i < |cs| && cs[i].key == key by {
          forall i | 0 <= i < |cs| ensures cs[i].key != key {
            if i > 0 { assert cs[i] == cs[1..][i - 1]; }
          }
        }
        None
  }

  predicate DistinctChoiceKeys(cs: seq<Choice>) {
    forall i, j :: 0 <= i < j < |cs| ==> cs[i].key != cs[j].key
  }

  predicate EndsWithQuantity(c: Category) {
    |c.steps| > 0 && c.steps[|c.steps| - 1] == Step(Quantita, c.steps[|c.steps| - 1].caption, NumberStep)
  }

  predicate HasTextStep(c: Category) {
    exists i :: 0 <= i < |c.steps| && c.steps[i].kind.TextStep?
  }

  /** Every category ends with a numeric `quantita` step. */
  lemma EveryCategoryEndsWithQuantity()
    ensures forall c :: c in Categories ==> EndsWithQuantity(c)
  {
  }

  /** The tree holds exactly the eight categories the pricing code handles,
    * each once. */
  lemma CategoryKeysAreHandled()
    ensures CategoryKeys(Categories) == HandledKeys
    ensures forall i, j :: 0 <= i < j < |HandledKeys| ==> HandledKeys[i] != HandledKeys[j]
  {
    HandledKeysDistinct();
  }

  /** The handled keys all have different lengths, so no two are equal. */
  lemma HandledKeysDistinct()
    ensures forall i, j :: 0 <= i < j < |HandledKeys| ==> HandledKeys[i] != HandledKeys[j]
  {
    var lengths := [4, 18, 7, 9, 17, 8, 11, 5];
    assert forall i :: 0 <= i < |HandledKeys| ==> |HandledKeys[i]| == lengths[i];
    forall i, j | 0 <= i < j < |HandledKeys| ensures HandledKeys[i] != HandledKeys[j] {
      assert lengths[i] != lengths[j];
    }
  }

  /** The step positions the description builder relies on. */
  lemma StepPositions()
    ensures Luce.steps[0].key == "tipoLuce" && Luce.steps[1].key == "ambiente"
         && Luce.steps[2].key == "stile"
    ensures Wallbox.steps[1].key == "tipoWB"
    ensures forall c :: c in Categories && c != Luce && c != Altro && c != Wallbox ==>
              c.steps[0].kind.ChoiceStep?
  {
  }

  /** Within every step, choice keys are distinct, so a first-match label
    * lookup finds the only match. */
  lemma ChoiceKeysDistinct()
    ensures forall c, s :: c in Categories && s in c.steps ==> DistinctChoiceKeys(StepChoices(s))
  {
    forall c, s | c in Categories && s in c.steps ensures DistinctChoiceKeys(StepChoices(s)) {
      assert c in Categories[..4] || c in Categories[4..];
      if c in Categories[..4] {
        FirstChoiceKeysDistinct(c, s);
      } else {
        LastChoiceKeysDistinct(c, s);
      }
    }
  }

  lemma FirstChoiceKeysDistinct(c: Category, s: Step)
    requires c in Categories[..4] && s in c.steps
    ensures DistinctChoiceKeys(StepChoices(s))
  {
    assert c == Luce || c == PreseInterruttori || c == Wallbox || c == Telefonia;
  }

  lemma LastChoiceKeysDistinct(c: Category, s: Step)
    requires c in Categories[4..] && s in c.steps
    ensures DistinctChoiceKeys(StepChoices(s))
  {
    assert c == Videosorveglianza || c == Domotica || c == Riparazioni || c == Altro;
  }

  /** Only the `altro` category asks for free text. */
  lemma OnlyAltroHasText()
    ensures forall c :: c in Categories ==> (HasTextStep(c) <==> c.key == "altro")
  {
    assert Altro.steps[0].kind.TextStep?;
  }
}
