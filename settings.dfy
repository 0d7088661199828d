module SettingsDefaults {
  import opened JsValues
  import opened Wrappers
  import opened JsNumbers
  import Pricing

  type Fields = map<string, Json>

  const DefaultCompany: Fields :=
    map["name" := JStr("Edil Repairs Sagl"), "logoText" := JStr("FV+"),
        "address" := JStr("Via Sole 1, 6900 Lugano"), "phone" := JStr("+41 00 000 00 00"),
        "email" := JStr("info@edil-repairs.ch")]

  const DefaultIncentives: Fields :=
    map["federalCHFPerKW" := JNum(360.0), "cantonalCHFPerKW" := JNum(180.0),
        "municipalCHFPerKW" := JNum(10.0)]

  const DefaultPricing: Fields :=
    map["energyPriceCHFPerKWh" := JNum(0.28), "maintenancePricePerPanelCHF" := JNum(35.0),
        "vatPercent" := JNum(8.1), "systemPricePerKWCHF" := JNum(1800.0),
        "curvePricingEnabled" := JBool(true), "curve" := JObj(Pricing.DefaultCurve),
        "incentives" := JObj(DefaultIncentives),
        "selfConsumptionPctWithHeatPump" := JNum(75.0),
        "selfConsumptionPctWithoutHeatPump" := JNum(65.0),
        "exportPriceCHFPerKWh" := JNum(0.05)]

  const DefaultEnvironment: Fields :=
    map["co2GridKgPerKWh" := JNum(0.12), "co2PerTreeKgPerYear" := JNum(21.0)]

  const DefaultPvSizes: seq<Json> :=
    [JNum(8.0), JNum(10.0), JNum(12.0), JNum(16.0), JNum(25.0), JNum(33.0)]

  /** Postal code to town, used to prefill the customer's town. */
  const DefaultCapToCity: Fields :=
    map["6500" := JStr("Bellinzona"), "6600" := JStr("Locarno"), "6616" := JStr("Losone"),
        "6900" := JStr("Lugano"), "1200" := JStr("Genève"), "1010" := JStr("Lausanne"),
        "8000" := JStr("Zürich"), "3000" := JStr("Bern"), "4051" := JStr("Basel")]

  const DefaultLocked: Fields :=
    map["company" := JBool(false), "pricing" := JBool(false), "curve" := JBool(false),
        "incentives" := JBool(false), "energy" := JBool(false)]

  const DefaultSettings: Fields :=
    map["company" := JObj(DefaultCompany), "pricing" := JObj(DefaultPricing),
        "environment" := JObj(DefaultEnvironment), "pvSizesKW" := JArr(DefaultPvSizes),
        "capToCity" := JObj(DefaultCapToCity), "locked" := JObj(DefaultLocked)]

  /** `OfferSummary` on a snapshot with no environment group reads the
    * default group: 0.12 kg of CO2 per kWh and 21 kg per tree. */
  lemma SummaryWithDefaultEnvironment(e: Pricing.Estimate)
    ensures var s := Pricing.OfferSummary(e, None, Some(JObj(DefaultEnvironment)));
            s.co2Saved == Fin(e.prod * 0.12) && s.equivalentTrees == Fin(e.prod * 0.12 / 21.0)
  {
  }

  /** The environment group the admin panel saves holds its figures as the
    * text the form showed; `*` and `/` convert that text back, so the
    * summary comes out the same as with the numbers. */
  lemma SummaryWithTextEnvironment(e: Pricing.Estimate)
    ensures var env := map["co2GridKgPerKWh" := JStr("0.12"), "co2PerTreeKgPerYear" := JStr("21")];
            var s := Pricing.OfferSummary(e, Some(JObj(env)), Some(JObj(DefaultEnvironment)));
            s.co2Saved == Fin(e.prod * 0.12) && s.equivalentTrees == Fin(e.prod * 0.12 / 21.0)
  {
    var g, t := "co2GridKgPerKWh", "co2PerTreeKgPerYear";
    assert g != t by { assert |g| != |t|; }
    var env := map[g := JStr("0.12"), t := JStr("21")];
    GridFigureRead(env);
    TreeFigureRead(env);
    SummaryOfFigures(e, Some(JObj(env)), Some(JObj(DefaultEnvironment)));
  }

  /** An environment group whose two figures read as 0.12 and 21 gives the
    * same summary as the default group. */
  lemma SummaryOfFigures(e: Pricing.Estimate, env: Value, defaultEnv: Value)
    requires Truthy(env)
    requires ToNumber(OrElse(Member(env, "co2GridKgPerKWh"), Some(JNum(0.12)))) == Fin(0.12)
    requires ToNumber(OrElse(Member(env, "co2PerTreeKgPerYear"), Some(JNum(21.0)))) == Fin(21.0)
    ensures var s := Pricing.OfferSummary(e, env, defaultEnv);
            s.co2Saved == Fin(e.prod * 0.12) && s.equivalentTrees == Fin(e.prod * 0.12 / 21.0)
  {
  }

  /** A saved CO2 text "0.12" is read by the summary as 0.12. */
  lemma GridFigureRead(env: Fields)
    requires "co2GridKgPerKWh" in env && env["co2GridKgPerKWh"] == JStr("0.12")
    ensures ToNumber(OrElse(Member(Some(JObj(env)), "co2GridKgPerKWh"), Some(JNum(0.12)))) == Fin(0.12)
  {
    assert "0.12" != "" by { assert |"0.12"| == 4; }
    assert ToNumber(Some(JStr("0.12"))) == Fin(0.12) by { GridTextReads(); }
  }

  /** A saved tree text "21" is read by the summary as 21. */
  lemma TreeFigureRead(env: Fields)
    requires "co2PerTreeKgPerYear" in env && env["co2PerTreeKgPerYear"] == JStr("21")
    ensures ToNumber(OrElse(Member(Some(JObj(env)), "co2PerTreeKgPerYear"), Some(JNum(21.0)))) == Fin(21.0)
  {
    assert "21" != "" by { assert |"21"| == 2; }
    assert ToNumber(Some(JStr("21"))) == Fin(21.0) by { TreeTextReads(); }
  }

  lemma GridTextReads()
    ensures StringToNumber("0.12") == Fin(0.12)
  {
    assert "0" + "." + "12" == "0.12";
    ParsePlain("0", "12", "0.12");
    assert DigitsValue("0") == 0 by { assert "0"[..0] == []; }
    assert FracValue("12") == 0.12 by { assert "12"[1..] == "2"; assert "2"[1..] == []; }
  }

  lemma TreeTextReads()
    ensures StringToNumber("21") == Fin(21.0)
  {
    ParsePlain("21", "", "21");
    assert DigitsValue("21") == 21 by { assert "21"[..1] == "2"; assert "2"[..0] == []; }
  }

}

/**
 * The admin-editable settings of src/app.jsx: the defaults the app ships
 * with and the merge `loadSettings` applies to what is stored. A stored
 * settings object is spread over the defaults, and each settings group
 * (company, pricing, environment, city names, locks) is spread over its own
 * default group, so keys missing from storage come from the defaults while
 * stored keys win.
 */
module Settings {
  import opened Wrappers
  import opened JsValues
  import opened SettingsDefaults

  /** What the settings slot of the browser storage holds: nothing (or the
    * empty string), text that is not JSON, or a parsed JSON value. */
  datatype Stored = Absent | Unparsable | Parsed(json: Json)

  /** The settings groups, each merged key by key with its defaults. */
  const Groups: set<string> := {"company", "pricing", "environment", "capToCity", "locked"}

  function DefaultGroup(g: string): Fields {
    if g == "company" then DefaultCompany
    else if g == "pricing" then DefaultPricing
    else if g == "environment" then DefaultEnvironment
    else if g == "capToCity" then DefaultCapToCity
    else if g == "locked" then DefaultLocked
    else map[]
  }

  /** `{ ...defaults, ...(parsed[g] || {}) }` */
  function MergeGroup(parsed: Fields, g: string): (r: Fields)
    ensures r.Keys == DefaultGroup(g).Keys + FieldsOrEmpty(OrElse(Member(Obj(parsed), g), Obj(map[]))).Keys
  {
    DefaultGroup(g) + FieldsOrEmpty(OrElse(Member(Obj(parsed), g), Obj(map[])))
  }

  /** `parsed.pvSizesKW || defaults.pvSizesKW` */
  function MergeSizes(parsed: Fields): Json {
    if "pvSizesKW" in parsed && Truthy(Some(parsed["pvSizesKW"])) then parsed["pvSizesKW"]
    else JArr(DefaultPvSizes)
  }

  /** `{ ...defaults, ...parsed, company: …, pricing: …, environment: …,
    * capToCity: …, pvSizesKW: …, locked: … }` for a parsed, non-null stored
    * value: the keys of both, with the groups and the size list rebuilt. */
  function Merge(parsed: Fields): (r: Fields)
    ensures r.Keys == TopKeys + parsed.Keys
  {
    map k | k in TopKeys + parsed.Keys ::
      if k in Groups then JObj(MergeGroup(parsed, k))
      else if k == "pvSizesKW" then MergeSizes(parsed)
      else parsed[k]
  }

  /** The top-level keys of the defaults. */
  const TopKeys: set<string> := Groups + {"pvSizesKW"}

  lemma DefaultTopKeys()
    ensures DefaultSettings.Keys == TopKeys
  {
  }

  /** A settings group is there, is an object, and has every default key. */
  predicate HasGroup(s: Fields, g: string) {
    g in s && s[g].JObj? && DefaultGroup(g).Keys <= s[g].fields.Keys
  }

  /** Settings with every group complete and a usable size list: the shape
    * the rest of the app reads. */
  predicate Complete(s: Fields) {
    && (forall g :: g in Groups ==> HasGroup(s, g))
    && "pvSizesKW" in s && Truthy(Some(s["pvSizesKW"]))
  }

  /** `loadSettings()`: the defaults when nothing usable is stored (no text,
    * text that is not JSON, or `null`, whose property read throws);
    * otherwise the merge. */
  function LoadSettings(stored: Stored): (s: Fields)
    ensures stored.Absent? || stored.Unparsable? || stored == Parsed(JNull) ==> s == DefaultSettings
    ensures stored.Parsed? && stored.json != JNull ==> s == Merge(FieldsOrEmpty(Some(stored.json)))
  {
    match stored
    case Parsed(j) => if j == JNull then DefaultSettings else Merge(FieldsOrEmpty(Some(j)))
    case _ => DefaultSettings
  }

  /** Whatever is stored, every settings group comes out as an object with
    * all its default keys, and the size list is there. */
  lemma {:induction false} LoadedComplete(stored: Stored)
    ensures Complete(LoadSettings(stored))
    ensures DefaultSettings.Keys <= LoadSettings(stored).Keys
  {
    DefaultTopKeys();
    if LoadSettings(stored) == DefaultSettings {
      DefaultsComplete();
    } else {
      var parsed := FieldsOrEmpty(Some(stored.json));
      MergeComplete(parsed);
    }
  }

  lemma {:induction false} MergeComplete(parsed: Fields)
    ensures Complete(Merge(parsed))
  {
    var r := Merge(parsed);
    forall g | g in Groups ensures HasGroup(r, g) {
      assert r[g] == JObj(MergeGroup(parsed, g));
    }
    assert r["pvSizesKW"] == MergeSizes(parsed);
  }

  lemma DefaultsComplete()
    ensures Complete(DefaultSettings)
  {
    forall g | g in Groups ensures HasGroup(DefaultSettings, g) {
      assert DefaultSettings[g] == JObj(DefaultGroup(g));
    }
  }

  /** Inside a stored group, a stored key wins and a key missing from
    * storage takes its default. The merge is shallow: a stored
    * `pricing.curve` replaces the default curve as a whole. */
  lemma GroupKeysMerged(parsed: Fields, g: string, k: string)
    requires g in Groups && g in parsed && parsed[g].JObj?
    ensures Merge(parsed)[g] == JObj(DefaultGroup(g) + parsed[g].fields)
    ensures k in parsed[g].fields ==> Merge(parsed)[g].fields[k] == parsed[g].fields[k]
    ensures k !in parsed[g].fields && k in DefaultGroup(g) ==>
              Merge(parsed)[g].fields[k] == DefaultGroup(g)[k]
  {
    assert Merge(parsed)[g] == JObj(MergeGroup(parsed, g));
    assert FieldsOrEmpty(OrElse(Member(Obj(parsed), g), Obj(map[]))) == parsed[g].fields;
  }

  /** A group that is missing or stored as a falsy value comes out as its
    * defaults. */
  lemma FalsyGroupDefaults(parsed: Fields, g: string)
    requires g in Groups && !Truthy(Member(Obj(parsed), g))
    ensures Merge(parsed)[g] == JObj(DefaultGroup(g))
  {
    assert Merge(parsed)[g] == JObj(MergeGroup(parsed, g));
    assert FieldsOrEmpty(OrElse(Member(Obj(parsed), g), Obj(map[]))) == map[];
    NoFieldsAdded(DefaultGroup(g));
  }

  lemma NoFieldsAdded(m: Fields)
    ensures m + map[] == m
  {
  }

  /** Outside the groups and the size list, a stored top-level key keeps its
    * value. */
  lemma TopLevelKept(parsed: Fields, k: string)
    requires k in parsed && k !in TopKeys
    ensures Merge(parsed)[k] == parsed[k]
  {
  }

  /** The size list: the stored one when truthy (an empty array is truthy,
    * so an emptied list stays empty), the default sizes otherwise. */
  lemma PvSizesRule(parsed: Fields)
    ensures Truthy(Member(Obj(parsed), "pvSizesKW")) ==> Merge(parsed)["pvSizesKW"] == parsed["pvSizesKW"]
    ensures !Truthy(Member(Obj(parsed), "pvSizesKW")) ==> Merge(parsed)["pvSizesKW"] == JArr(DefaultPvSizes)
  {
    SizesNotAGroup();
    assert Merge(parsed)["pvSizesKW"] == MergeSizes(parsed);
  }

  /** The size list is not one of the groups (it shares its length with
    * `capToCity` only, and differs from it in the first letter). */
  lemma SizesNotAGroup()
    ensures "pvSizesKW" !in Groups
  {
    assert "pvSizesKW"[0] != "capToCity"[0];
  }

  /** A group already complete comes out of the merge unchanged. */
  lemma CompleteGroupKept(parsed: Fields, g: string)
    requires g in Groups && HasGroup(parsed, g)
    ensures Merge(parsed)[g] == parsed[g]
  {
    var r := MergeGroup(parsed, g);
    assert Truthy(Member(Obj(parsed), g));
    assert r.Keys == parsed[g].fields.Keys;
    forall k | k in r ensures r[k] == parsed[g].fields[k] {
      GroupKeysMerged(parsed, g, k);
    }
    assert r == parsed[g].fields;
    assert Merge(parsed)[g] == JObj(r);
  }

  /** Saving settings and loading them again gives them back exactly when
    * they are complete. */
  lemma {:induction false} LoadAfterSave(s: Fields)
    ensures LoadSettings(Parsed(JObj(s))) == s <==> Complete(s)
  {
    assert LoadSettings(Parsed(JObj(s))) == Merge(s);
    if Complete(s) {
      CompleteMergeFixed(s);
    } else {
      MergeComplete(s);
    }
  }

  lemma {:induction false} CompleteMergeFixed(s: Fields)
    requires Complete(s)
    ensures Merge(s) == s
  {
    var r := Merge(s);
    assert TopKeys <= s.Keys by {
      forall g | g in Groups ensures g in s {
        assert HasGroup(s, g);
      }
    }
    assert r.Keys == s.Keys;
    forall k | k in r ensures r[k] == s[k] {
      if k in Groups {
        CompleteGroupKept(s, k);
      } else if k == "pvSizesKW" {
        PvSizesRule(s);
      } else {
        TopLevelKept(s, k);
      }
    }
  }

  /** Reloading what was loaded changes nothing. */
  lemma LoadIdempotent(stored: Stored)
    ensures LoadSettings(Parsed(JObj(LoadSettings(stored)))) == LoadSettings(stored)
  {
    LoadedComplete(stored);
    LoadAfterSave(LoadSettings(stored));
  }

  /** The shipped defaults survive a save and a load unchanged. */
  lemma DefaultsRoundTrip()
    ensures LoadSettings(Parsed(JObj(DefaultSettings))) == DefaultSettings
  {
    DefaultsComplete();
    LoadAfterSave(DefaultSettings);
  }
}
