/**
 * The admin panel of src/app.jsx as a stateful object: it keeps a working
 * copy of the settings with the numeric figures as text, the text of the
 * size list, the curve switch and the curve and incentive texts in fields of
 * their own; typing, leaving a field and `update` change that state, and
 * saving turns it back into settings.
 */
module Admin {
  import opened Wrappers
  import opened JsNumbers
  import opened JsValues
  import opened SettingsDefaults
  import opened Settings
  import opened AdminForm
  import opened PvSizesText
  import CatalogEditor
  import Pricing

  // ---------------------------------------------------------------------------
  // `update(path, value)`

  /** The segments `update` uses: `const [a, b, c] = path.split(".")` keeps
    * the first three. */
  function Head3(segs: seq<string>): (h: seq<string>)
    requires |segs| >= 1
    ensures 1 <= |h| <= 3 && |h| <= |segs| && h == segs[..|h|]
    ensures |segs| <= 3 ==> h == segs
  {
    if |segs| <= 3 then segs else segs[..3]
  }

  /** The working copy after `update`: the value goes under the last of the
    * (at most three) segments. A write below a missing key or below a value
    * that is not an object throws, which leaves the state as it was; this
    * is `None`. */
  function UpdateAt(local: Fields, segs: seq<string>, v: Json): Option<Fields>
    requires |segs| >= 1
  {
    var a := segs[0];
    if |segs| == 1 then Some(local[a := v])
    else if !(a in local && local[a].JObj?) then None
    else
      var group := local[a].fields;
      var b := segs[1];
      if |segs| == 2 then Some(local[a := JObj(group[b := v])])
      else if !(b in group && group[b].JObj?) then None
      else Some(local[a := JObj(group[b := JObj(group[b].fields[segs[2] := v])])])
  }

  /** The objects a write along `segs` passes through. */
  predicate ObjectsAlong(local: Fields, segs: seq<string>)
    requires |segs| >= 1
  {
    && (|segs| >= 2 ==> segs[0] in local && local[segs[0]].JObj?)
    && (|segs| >= 3 ==> segs[0] in local && local[segs[0]].JObj?
                        && segs[1] in local[segs[0]].fields && local[segs[0]].fields[segs[1]].JObj?)
  }

  /** `update` succeeds exactly when every object it writes into is there. */
  lemma UpdateSucceeds(local: Fields, segs: seq<string>, v: Json)
    requires |segs| >= 1
    ensures UpdateAt(local, segs, v).Some? <==> ObjectsAlong(local, segs)
  {
  }

  /** Where it succeeds, `update` is the catalog editor's path write on the
    * first three segments; unlike that write it never creates an object. */
  lemma {:induction false} UpdateIsPathWrite(local: Fields, segs: seq<string>, v: Json)
    requires |segs| >= 1 && ObjectsAlong(local, segs)
    ensures UpdateAt(local, segs, v) == Some(CatalogEditor.SetPath(local, Head3(segs), v))
  {
    var h := Head3(segs);
    if |h| >= 2 {
      var group := local[segs[0]].fields;
      assert CatalogEditor.ChildFields(local, h[0]) == group;
      if |h| == 3 {
        var inner := group[segs[1]].fields;
        assert CatalogEditor.ChildFields(group, h[1]) == inner;
        assert h[1..][1..] == [segs[2]];
        assert CatalogEditor.SetPath(inner, [segs[2]], v) == inner[segs[2] := v];
        assert CatalogEditor.SetPath(group, h[1..], v) == group[segs[1] := JObj(inner[segs[2] := v])];
      } else {
        assert h[1..] == [segs[1]];
        assert CatalogEditor.SetPath(group, h[1..], v) == group[segs[1] := v];
      }
    }
  }

  /** After `update`, the value reads back at the path, and every other
    * top-level key keeps its value. */
  lemma UpdateReadBack(local: Fields, segs: seq<string>, v: Json)
    requires |segs| >= 1 && UpdateAt(local, segs, v).Some?
    ensures Path(Obj(UpdateAt(local, segs, v).value), Head3(segs)) == Some(v)
    ensures UpdateAt(local, segs, v).value.Keys == local.Keys + {segs[0]}
    ensures forall k :: k in local && k != segs[0] ==> UpdateAt(local, segs, v).value[k] == local[k]
  {
    UpdateSucceeds(local, segs, v);
    UpdateIsPathWrite(local, segs, v);
    CatalogEditor.GetAfterSet(local, Head3(segs), v);
    CatalogEditor.OtherKeysUnchanged(local, Head3(segs), v);
  }

  /** A field written inside a settings group (`"company.name"`,
    * `"locked.pricing"`) always succeeds on complete settings and keeps them
    * complete. */
  lemma GroupFieldUpdate(local: Fields, g: string, k: string, v: Json)
    requires Complete(local) && g in Groups
    ensures UpdateAt(local, [g, k], v).Some?
    ensures Complete(UpdateAt(local, [g, k], v).value)
  {
    assert HasGroup(local, g);
    var r := UpdateAt(local, [g, k], v).value;
    forall h | h in Groups ensures HasGroup(r, h) {
      assert HasGroup(local, h);
    }
  }

  // ---------------------------------------------------------------------------
  // The figures of a settings group edited as text

  /** `{ ...l, [group]: { ...l[group], [k]: text } }` */
  function WithFigureText(local: Fields, group: string, k: string, text: string): Fields {
    local[group := JObj(FieldsOrEmpty(Member(Obj(local), group))[k := JStr(text)])]
  }

  /** The text is in its field; the group's other fields, when it is an
    * object, and every other top-level key keep their values. */
  lemma FigureTextWritten(local: Fields, group: string, k: string, text: string)
    ensures var r := WithFigureText(local, group, k, text);
            && r.Keys == local.Keys + {group}
            && Member(Member(Obj(r), group), k) == Some(JStr(text))
            && (forall h :: h != k ==> Member(Member(Obj(r), group), h) == Member(Member(Obj(local), group), h))
            && (forall h :: h in local && h != group ==> r[h] == local[h])
  {
  }

  /** What the field bound to `local[group][k]` shows. */
  function FigureTextOf(local: Fields, group: string, k: string): string {
    InputText(Member(Member(Obj(local), group), k))
  }

  /** Leaving a price or environment field: a readable text is rewritten as
    * its number, an unreadable one stays as it is. */
  function BlurredFigures(local: Fields, group: string, k: string): Fields {
    var v := ParseDecimalString(FigureTextOf(local, group, k));
    if v.NaN? then local else WithFigureText(local, group, k, RealToString(v.r))
  }

  /** Leaving a figure field never changes what saving reads from it. */
  lemma BlurredFigureReads(local: Fields, group: string, k: string)
    requires var v := ParseDecimalString(FigureTextOf(local, group, k)); v.Fin? ==> Representable(v.r)
    ensures ParseDecimal(Member(Member(Obj(BlurredFigures(local, group, k)), group), k))
            == ParseDecimalString(FigureTextOf(local, group, k))
  {
    var v := ParseDecimalString(FigureTextOf(local, group, k));
    if v.Fin? {
      FigureTextWritten(local, group, k, RealToString(v.r));
      InputTextReadsBack(v.r);
    } else {
      assert BlurredFigures(local, group, k) == local;
      ShownTextReads(Member(Member(Obj(local), group), k));
    }
  }

  /** A field reads as the number its shown text reads as; `undefined` and
    * `null` show as the empty text and are both unreadable. */
  lemma ShownTextReads(v: Value)
    ensures ParseDecimal(v) == ParseDecimalString(InputText(v))
  {
    if IsNullish(v) {
      UndefinedUnreadable();
      EmptyUnreadable();
    }
  }

  // ---------------------------------------------------------------------------
  // Curve and incentive texts

  /** The curve text under one of the curve's keys. */
  function CurveText(t: CurveTexts, k: string): string {
    if k == "minKW" then t.minKW
    else if k == "maxKW" then t.maxKW
    else if k == "priceAtMin" then t.priceAtMin
    else t.priceAtMax
  }

  function WithCurveText(t: CurveTexts, k: string, s: string): (r: CurveTexts)
    requires k in CurveKeys
    ensures CurveText(r, k) == s
    ensures forall h :: h in CurveKeys && h != k ==> CurveText(r, h) == CurveText(t, h)
  {
    CurveKeysDistinct();
    if k == "minKW" then t.(minKW := s)
    else if k == "maxKW" then t.(maxKW := s)
    else if k == "priceAtMin" then t.(priceAtMin := s)
    else t.(priceAtMax := s)
  }

  /** The kW thresholds take digits only and are read with `parseInt`. */
  predicate WholeKW(k: string) {
    k == "minKW" || k == "maxKW"
  }

  /** Typing into a curve field. */
  function TypedCurve(current: string, k: string, typed: string): string {
    if WholeKW(k) then TypedInteger(current, typed) else TypedDecimal(current, typed)
  }

  /** Leaving a curve field. */
  function BlurredCurve(text: string, k: string): string {
    if WholeKW(k) then BlurInteger(text) else BlurDecimal(text)
  }

  function WithIncentiveText(t: IncentiveTexts, k: string, s: string): (r: IncentiveTexts)
    requires k in IncentiveKeys
    ensures IncentiveText(r, k) == s
    ensures forall h :: h in IncentiveKeys && h != k ==> IncentiveText(r, h) == IncentiveText(t, h)
  {
    if k == "federalCHFPerKW" then t.(federal := s)
    else if k == "cantonalCHFPerKW" then t.(cantonal := s)
    else t.(municipal := s)
  }

  // ---------------------------------------------------------------------------
  // Saving

  /** The pricing group saving writes: the normalised figures, then the curve
    * switch and the normalised curve. */
  function SavedPricing(local: Fields, enabled: bool, curve: CurveTexts, inc: IncentiveTexts,
                        settings: Fields): Fields
  {
    NormalizePricing(FieldsOrEmpty(Member(Obj(local), "pricing")), Member(Obj(settings), "pricing"), inc)
      ["curvePricingEnabled" := JBool(enabled)]["curve" := JObj(NormalizeCurve(curve))]
  }

  /** The settings the save button stores: the working copy with the sizes
    * read from their text and the pricing group normalised. `settings` are
    * the settings the panel was opened with, whose prices are the fallbacks. */
  function Saved(local: Fields, sizesText: string, enabled: bool, curve: CurveTexts,
                 inc: IncentiveTexts, settings: Fields): Fields
  {
    local["pvSizesKW" := SizesJson(SizesOfText(sizesText))]
         ["pricing" := JObj(SavedPricing(local, enabled, curve, inc, settings))]
  }

  /** Saving stores the sizes the text reads as, all positive. */
  lemma SavedSizes(local: Fields, sizesText: string, enabled: bool, curve: CurveTexts,
                   inc: IncentiveTexts, settings: Fields)
    ensures var s := Saved(local, sizesText, enabled, curve, inc, settings);
            && s["pvSizesKW"] == SizesJson(SizesOfText(sizesText))
            && forall i :: 0 <= i < |SizesOfText(sizesText)| ==> SizesOfText(sizesText)[i] > 0.0
  {
  }

  /** Saving stores the curve switch and the normalised curve, which the
    * pricer reads as the normalised curve figures (`SavedCurveRead`). */
  lemma SavedCurve(local: Fields, sizesText: string, enabled: bool, curve: CurveTexts,
                   inc: IncentiveTexts, settings: Fields)
    ensures var s := Saved(local, sizesText, enabled, curve, inc, settings);
            && Member(Member(Obj(s), "pricing"), "curvePricingEnabled") == Some(JBool(enabled))
            && Member(Member(Obj(s), "pricing"), "curve") == Obj(NormalizeCurve(curve))
  {
    SavedPricingAt(local, sizesText, enabled, curve, inc, settings);
    SavedCurveAt(local, enabled, curve, inc, settings);
    SavedSwitchAt(local, enabled, curve, inc, settings);
  }

  lemma SavedPricingAt(local: Fields, sizesText: string, enabled: bool, curve: CurveTexts,
                       inc: IncentiveTexts, settings: Fields)
    ensures Member(Obj(Saved(local, sizesText, enabled, curve, inc, settings)), "pricing")
            == Obj(SavedPricing(local, enabled, curve, inc, settings))
  {
  }

  lemma SavedCurveAt(local: Fields, enabled: bool, curve: CurveTexts, inc: IncentiveTexts, settings: Fields)
    ensures Member(Obj(SavedPricing(local, enabled, curve, inc, settings)), "curve") == Obj(NormalizeCurve(curve))
  {
  }

  lemma SavedSwitchAt(local: Fields, enabled: bool, curve: CurveTexts, inc: IncentiveTexts, settings: Fields)
    ensures Member(Obj(SavedPricing(local, enabled, curve, inc, settings)), "curvePricingEnabled")
            == Some(JBool(enabled))
  {
  }

  /** The pricing keys that exist whatever the panel holds. */
  lemma DefaultPricingKeys()
    ensures DefaultPricing.Keys == NormalizedKeys + {"curvePricingEnabled", "curve"}
  {
  }

  /** Saving keeps every key of the pricing group, provided each price has
    * a figure to fall back on. */
  lemma SavedPricingKeys(pricing: Fields, saved: Value, inc: IncentiveTexts)
    requires forall k :: k in PriceKeys ==> Member(saved, k).Some?
    ensures pricing.Keys + NormalizedKeys <= NormalizePricing(pricing, saved, inc).Keys
  {
    forall k | k in pricing.Keys + NormalizedKeys ensures k in NormalizePricing(pricing, saved, inc) {
      EntryPresent(pricing, saved, inc, k);
      NormalizedEntryAt(pricing, saved, inc, k);
    }
  }

  lemma EntryPresent(pricing: Fields, saved: Value, inc: IncentiveTexts, k: string)
    requires k in pricing.Keys + NormalizedKeys
    requires k in PriceKeys ==> Member(saved, k).Some?
    ensures NormalizedEntry(pricing, saved, inc, k).Some?
  {
    if k !in NormalizedKeys {
      assert k in pricing;
    }
  }

  /** The saved pricing group holds every key of the shipped one. */
  lemma SavedPricingComplete(local: Fields, enabled: bool, curve: CurveTexts, inc: IncentiveTexts,
                             settings: Fields)
    requires HasGroup(settings, "pricing")
    ensures DefaultPricing.Keys <= SavedPricing(local, enabled, curve, inc, settings).Keys
  {
    var saved := Member(Obj(settings), "pricing");
    DefaultPricingKeys();
    forall k | k in PriceKeys ensures Member(saved, k).Some? {
      assert k in DefaultPricing.Keys;
    }
    SavedPricingKeys(FieldsOrEmpty(Member(Obj(local), "pricing")), saved, inc);
  }

  /** Saving leaves every top-level key but the sizes and the pricing alone. */
  lemma SavedOthersKept(local: Fields, sizesText: string, enabled: bool, curve: CurveTexts,
                        inc: IncentiveTexts, settings: Fields, k: string)
    requires k in local && k != "pricing" && k != "pvSizesKW"
    ensures Saved(local, sizesText, enabled, curve, inc, settings)[k] == local[k]
  {
  }

  /** Saving complete settings gives complete settings, provided the
    * settings the panel was opened with have a complete pricing group. */
  lemma {:induction false} SavedComplete(local: Fields, sizesText: string, enabled: bool,
                                         curve: CurveTexts, inc: IncentiveTexts, settings: Fields)
    requires Complete(local) && HasGroup(settings, "pricing")
    ensures Complete(Saved(local, sizesText, enabled, curve, inc, settings))
  {
    var s := Saved(local, sizesText, enabled, curve, inc, settings);
    forall g | g in Groups ensures HasGroup(s, g) {
      SavedGroup(local, sizesText, enabled, curve, inc, settings, g);
    }
    SavedSizesUsable(local, sizesText, enabled, curve, inc, settings);
  }

  lemma SavedSizesUsable(local: Fields, sizesText: string, enabled: bool, curve: CurveTexts,
                         inc: IncentiveTexts, settings: Fields)
    ensures var s := Saved(local, sizesText, enabled, curve, inc, settings);
            "pvSizesKW" in s && Truthy(Some(s["pvSizesKW"]))
  {
    SavedSizes(local, sizesText, enabled, curve, inc, settings);
  }

  lemma SavedGroup(local: Fields, sizesText: string, enabled: bool, curve: CurveTexts,
                   inc: IncentiveTexts, settings: Fields, g: string)
    requires Complete(local) && HasGroup(settings, "pricing") && g in Groups
    ensures HasGroup(Saved(local, sizesText, enabled, curve, inc, settings), g)
  {
    if g == "pricing" {
      SavedPricingAt(local, sizesText, enabled, curve, inc, settings);
      SavedPricingComplete(local, enabled, curve, inc, settings);
    } else {
      assert HasGroup(local, g);
      SavedOthersKept(local, sizesText, enabled, curve, inc, settings, g);
    }
  }

  /** What the panel saves from complete settings loads back unchanged. */
  lemma SavedReloads(local: Fields, sizesText: string, enabled: bool, curve: CurveTexts,
                     inc: IncentiveTexts, settings: Fields)
    requires Complete(local) && HasGroup(settings, "pricing")
    ensures var s := Saved(local, sizesText, enabled, curve, inc, settings);
            LoadSettings(Parsed(JObj(s))) == s
  {
    SavedComplete(local, sizesText, enabled, curve, inc, settings);
    LoadAfterSave(Saved(local, sizesText, enabled, curve, inc, settings));
  }

  // ---------------------------------------------------------------------------
  // The panel

  /** The working copy the panel opens with: the settings with the pricing
    * and environment figures turned into text. */
  function InitialLocal(settings: Fields): Fields
    requires "pricing" in settings && settings["pricing"].JObj?
    requires "environment" in settings && settings["environment"].JObj?
  {
    settings["pricing" := JObj(AsInputs(settings["pricing"].fields, PricingTextKeys))]
            ["environment" := JObj(AsInputs(settings["environment"].fields, EnvironmentTextKeys))]
  }

  /** The working copy has the keys of the settings; only the pricing and
    * environment groups differ, and only in their figures. */
  lemma InitialLocalShape(settings: Fields)
    requires "pricing" in settings && settings["pricing"].JObj?
    requires "environment" in settings && settings["environment"].JObj?
    ensures var local := InitialLocal(settings);
            && local.Keys == settings.Keys
            && local["pricing"] == JObj(AsInputs(settings["pricing"].fields, PricingTextKeys))
            && local["environment"] == JObj(AsInputs(settings["environment"].fields, EnvironmentTextKeys))
            && forall k :: k in settings && k != "pricing" && k != "environment" ==> local[k] == settings[k]
  {
  }

  class AdminPanel {
    /** The settings the panel edits; saving replaces them. */
    var settings: Fields
    /** The working copy bound to the form. */
    var local: Fields
    var pvSizesText: string
    var curveEnabled: bool
    var curve: CurveTexts
    var incentives: IncentiveTexts

    constructor(s: Fields)
      requires "pricing" in s && s["pricing"].JObj?
      requires "environment" in s && s["environment"].JObj?
      ensures settings == s && local == InitialLocal(s)
      ensures pvSizesText == InitialText(Member(Obj(s), "pvSizesKW"))
      ensures curveEnabled == Truthy(Member(Member(Obj(s), "pricing"), "curvePricingEnabled"))
      ensures curve == InitialCurveTexts(Member(Member(Obj(s), "pricing"), "curve"))
      ensures incentives == InitialIncentiveTexts(Member(Member(Obj(s), "pricing"), "incentives"))
    {
      settings := s;
      local := InitialLocal(s);
      pvSizesText := InitialText(Member(Obj(s), "pvSizesKW"));
      curveEnabled := Truthy(Member(Member(Obj(s), "pricing"), "curvePricingEnabled"));
      curve := InitialCurveTexts(Member(Member(Obj(s), "pricing"), "curve"));
      incentives := InitialIncentiveTexts(Member(Member(Obj(s), "pricing"), "incentives"));
    }

    /** `update(path, value)`; `ok` is false where the write would throw. */
    method Update(path: string, value: Json) returns (ok: bool)
      modifies this`local
      ensures var r := UpdateAt(old(local), Split(path, '.'), value);
              ok == r.Some? && local == if r.Some? then r.value else old(local)
    {
      var segs := Split(path, '.');
      var next := local;
      var a := segs[0];
      if |segs| == 1 {
        next := next[a := value];
      } else if a in next && next[a].JObj? {
        var group := next[a].fields;
        if |segs| == 2 {
          next := next[a := JObj(group[segs[1] := value])];
        } else if segs[1] in group && group[segs[1]].JObj? {
          var inner := group[segs[1]].fields;
          next := next[a := JObj(group[segs[1] := JObj(inner[segs[2] := value])])];
        } else {
          return false;
        }
      } else {
        return false;
      }
      local := next;
      ok := true;
    }

    /** Typing into a price, share or environment field: `[0-9.,]` only. */
    method TypeFigure(group: string, k: string, typed: string)
      modifies this`local
      ensures local == if DecimalText(typed) then WithFigureText(old(local), group, k, typed) else old(local)
    {
      if DecimalText(typed) {
        local := WithFigureText(local, group, k, typed);
      }
    }

    /** Leaving a price or environment field. */
    method BlurFigure(group: string, k: string)
      modifies this`local
      ensures local == BlurredFigures(old(local), group, k)
    {
      var v := ParseDecimalString(FigureTextOf(local, group, k));
      if v.Fin? {
        local := WithFigureText(local, group, k, RealToString(v.r));
      }
    }

    /** Leaving a self-consumption field, whose shipped share is `d`
      * (75 with a heat pump, 65 without). */
    method BlurShare(k: string, d: real)
      modifies this`local
      ensures local == WithFigureText(old(local), "pricing", k, BlurPercent(FigureTextOf(old(local), "pricing", k), d))
    {
      local := WithFigureText(local, "pricing", k, BlurPercent(FigureTextOf(local, "pricing", k), d));
    }

    /** Typing into the size list: `[0-9.,;\s]` only. */
    method TypePvSizes(typed: string)
      modifies this`pvSizesText
      ensures pvSizesText == TypedText(old(pvSizesText), typed)
    {
      pvSizesText := TypedText(pvSizesText, typed);
    }

    /** Leaving the size list: the sizes go into the working copy and the
      * text is rewritten from them. */
    method BlurPvSizes()
      modifies this`local, this`pvSizesText
      ensures local == old(local)["pvSizesKW" := SizesJson(SizesOfText(old(pvSizesText)))]
      ensures pvSizesText == SizesText(SizesOfText(old(pvSizesText)))
    {
      var arr := SizesOfText(pvSizesText);
      local := local["pvSizesKW" := SizesJson(arr)];
      pvSizesText := SizesText(arr);
    }

    method SetCurveEnabled(enabled: bool)
      modifies this`curveEnabled
      ensures curveEnabled == enabled
    {
      curveEnabled := enabled;
    }

    /** Typing into a curve field: digits only for the kW thresholds,
      * `[0-9.,]` for the prices. */
    method TypeCurve(k: string, typed: string)
      requires k in CurveKeys
      modifies this`curve
      ensures curve == WithCurveText(old(curve), k, TypedCurve(CurveText(old(curve), k), k, typed))
    {
      curve := WithCurveText(curve, k, TypedCurve(CurveText(curve, k), k, typed));
    }

    method BlurCurve(k: string)
      requires k in CurveKeys
      modifies this`curve
      ensures curve == WithCurveText(old(curve), k, BlurredCurve(CurveText(old(curve), k), k))
    {
      curve := WithCurveText(curve, k, BlurredCurve(CurveText(curve, k), k));
    }

    method TypeIncentive(k: string, typed: string)
      requires k in IncentiveKeys
      modifies this`incentives
      ensures incentives == WithIncentiveText(old(incentives), k, TypedDecimal(IncentiveText(old(incentives), k), typed))
    {
      incentives := WithIncentiveText(incentives, k, TypedDecimal(IncentiveText(incentives, k), typed));
    }

    method BlurIncentive(k: string)
      requires k in IncentiveKeys
      modifies this`incentives
      ensures incentives == WithIncentiveText(old(incentives), k, BlurDecimal(IncentiveText(old(incentives), k)))
    {
      incentives := WithIncentiveText(incentives, k, BlurDecimal(IncentiveText(incentives, k)));
    }

    /** The save button: the settings become what the panel holds, read back
      * from its texts; `saved` is what goes to storage. */
    method Save() returns (saved: Fields)
      modifies this`settings
      ensures saved == Saved(local, pvSizesText, curveEnabled, curve, incentives, old(settings))
      ensures settings == saved
    {
      var arr := SizesOfText(pvSizesText);
      var norm := local["pvSizesKW" := SizesJson(arr)];
      assert Member(Obj(norm), "pricing") == Member(Obj(local), "pricing");
      var pricing := NormalizePricing(FieldsOrEmpty(Member(Obj(norm), "pricing")),
                                      Member(Obj(settings), "pricing"), incentives);
      pricing := pricing["curvePricingEnabled" := JBool(curveEnabled)];
      pricing := pricing["curve" := JObj(NormalizeCurve(curve))];
      norm := norm["pricing" := JObj(pricing)];
      settings := norm;
      saved := norm;
    }

    /** "Annulla modifiche": the working copy becomes what storage loads,
      * figures included as they are stored. */
    method Cancel(stored: Stored)
      modifies this`local
      ensures local == LoadSettings(stored)
    {
      local := LoadSettings(stored);
    }

    /** "Ripristina predefiniti": the settings, and storage, go back to the
      * defaults; the working copy is left as it is. */
    method RestoreDefaults() returns (saved: Fields)
      modifies this`settings
      ensures settings == DefaultSettings && saved == DefaultSettings
    {
      settings := DefaultSettings;
      saved := DefaultSettings;
    }
  }

  // ---------------------------------------------------------------------------
  // Identifiers the panel reads

  /** The save button with the municipal incentive read through `incName`
    * and the minimum threshold through `curveName`: the first of the two
    * normalisations to throw ends the save before anything is stored. */
  function SaveReading(incName: string, curveName: string, local: Fields, sizesText: string, enabled: bool,
                       curve: CurveTexts, inc: IncentiveTexts, settings: Fields): (r: Result<Fields>)
    ensures r.Success? <==> incName in PanelScope && curveName in PanelScope
  {
    match NormalizePricingReading(incName, FieldsOrEmpty(Member(Obj(local), "pricing")),
                                  Member(Obj(settings), "pricing"), inc)
    case Failure(e) => Failure(e)
    case Success(_) =>
      match NormalizeCurveReading(curveName, curve)
      case Failure(e) => Failure(e)
      case Success(_) => Success(Saved(local, sizesText, enabled, curve, inc, settings))
  }

  /** As written (lines 1300 and 767), every press of the save button throws
    * inside `normalizePricing`, so neither the settings nor storage change. */
  lemma SaveThrows(local: Fields, sizesText: string, enabled: bool, curve: CurveTexts, inc: IncentiveTexts,
                   settings: Fields)
    ensures SaveReading("municipalInceptives", "curcurveMinKW", local, sizesText, enabled, curve, inc, settings)
            == Failure(ReferenceError("municipalInceptives"))
  {
    PricingReadThrows(FieldsOrEmpty(Member(Obj(local), "pricing")), Member(Obj(settings), "pricing"), inc);
  }

  /** With the two names the panel declares, saving stores what `Saved`
    * states. */
  lemma SaveReadingSaves(local: Fields, sizesText: string, enabled: bool, curve: CurveTexts, inc: IncentiveTexts,
                         settings: Fields)
    ensures SaveReading("municipalIncentive", "curveMinKW", local, sizesText, enabled, curve, inc, settings)
            == Success(Saved(local, sizesText, enabled, curve, inc, settings))
  {
    PricingReadNormalizes(FieldsOrEmpty(Member(Obj(local), "pricing")), Member(Obj(settings), "pricing"), inc);
    CurveReadNormalizes(curve);
  }

  /** Leaving the minimum-threshold field, with its texts written back
    * through the setter `setter`. */
  function BlurMinKWCalling(setter: string, t: CurveTexts): (r: Result<CurveTexts>)
    ensures r.Success? <==> setter in PanelScope
  {
    Identifier(PanelScope, setter, WithCurveText(t, "minKW", BlurredCurve(t.minKW, "minKW")))
  }

  /** As written, line 1029 calls `setCurcurveMinKW`, which nothing declares:
    * leaving the field throws and its text stays as typed. */
  lemma BlurMinKWThrows(t: CurveTexts)
    ensures BlurMinKWCalling("setCurcurveMinKW", t) == Failure(ReferenceError("setCurcurveMinKW"))
  {
    MisspeltUndeclared();
  }

  /** Through the setter the panel declares, `setCurveMinKW`, leaving the
    * field rewrites the text as `AdminPanel.BlurCurve("minKW")` does. */
  lemma BlurMinKWRewrites(t: CurveTexts)
    ensures BlurMinKWCalling("setCurveMinKW", t)
            == Success(WithCurveText(t, "minKW", BlurredCurve(CurveText(t, "minKW"), "minKW")))
  {
  }

  /** The texts of the curve fields as the object the preview prices from. */
  function CurveTextObject(t: CurveTexts): Value {
    Some(JObj(map["minKW" := JStr(t.minKW), "priceAtMin" := JStr(t.priceAtMin),
                  "maxKW" := JStr(t.maxKW), "priceAtMax" := JStr(t.priceAtMax)]))
  }

  /** The preview under the curve fields, with the 50 kW price computed by
    * the function named `name`: the prices per kW at 8, 50 and 200 kW. */
  function CurvePreviewCalling(name: string, t: CurveTexts): (r: Result<seq<Num>>)
    ensures r.Success? <==> name in PanelScope
  {
    var c := CurveTextObject(t);
    match Identifier(PanelScope, name, Pricing.PricePerKWFromCurve(Some(JNum(50.0)), c))
    case Failure(e) => Failure(e)
    case Success(p50) =>
      Success([Pricing.PricePerKWFromCurve(Some(JNum(8.0)), c), p50,
               Pricing.PricePerKWFromCurve(Some(JNum(200.0)), c)])
  }

  /** As written, line 1082 calls `pricePerKWFromCurcurve`, which nothing
    * declares: every render of the panel throws, whatever the curve. */
  lemma CurvePreviewThrows(t: CurveTexts)
    ensures CurvePreviewCalling("pricePerKWFromCurcurve", t) == Failure(ReferenceError("pricePerKWFromCurcurve"))
  {
    MisspeltUndeclared();
  }

  /** Through `pricePerKWFromCurve` the preview shows, at each of the three
    * sizes, the curve price of the texts as typed. */
  lemma CurvePreviewPrices(t: CurveTexts)
    ensures var r := CurvePreviewCalling("pricePerKWFromCurve", t);
            var c := Pricing.ReadCurve(CurveTextObject(t));
            r == Success([Pricing.CurvePrice(8.0, c), Pricing.CurvePrice(50.0, c), Pricing.CurvePrice(200.0, c)])
  {
    PreviewPriceAt(t, 8);
    PreviewPriceAt(t, 50);
    PreviewPriceAt(t, 200);
  }

  lemma PreviewPriceAt(t: CurveTexts, kw: int)
    ensures Pricing.PricePerKWFromCurve(Some(JNum(kw as real)), CurveTextObject(t))
            == Pricing.CurvePrice(kw as real, Pricing.ReadCurve(CurveTextObject(t)))
  {
    Pricing.ParseDecimalOfInteger(kw);
  }
}
