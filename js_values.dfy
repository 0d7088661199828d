/**
 * The JavaScript values the quote engine reads from settings, the catalog and
 * the wizard answers, and the conversions it applies to them: `String(v)`,
 * `Number(v)`, truthiness, `??`, `||` and optional-chaining property reads.
 */
module JsValues {
  import opened Wrappers
  import opened JsNumbers

  /** A JSON-shaped value. Settings and catalogs are loaded from JSON, so
    * numbers here are always finite. */
  datatype Json =
    | JNull
    | JBool(b: bool)
    | JNum(n: real)
    | JStr(s: string)
    | JArr(items: seq<Json>)
    | JObj(fields: map<string, Json>)

  /** A value as read from a property: `None` is `undefined`. */
  type Value = Option<Json>

  predicate IsNullish(v: Value) {
    v.None? || v == Some(JNull)
  }

  /** JavaScript truthiness. */
  predicate Truthy(v: Value) {
    match v
    case None => false
    case Some(j) =>
      match j
      case JNull => false
      case JBool(b) => b
      case JNum(n) => n != 0.0
      case JStr(s) => s != ""
      case JArr(_) => true
      case JObj(_) => true
  }

  /** `v ?? d` */
  function Coalesce(v: Value, d: Value): Value {
    if IsNullish(v) then d else v
  }

  /** `v || d` */
  function OrElse(v: Value, d: Value): Value {
    if Truthy(v) then v else d
  }

  /** `v?.[key]`: only objects have the properties the engine reads; on any
    * other value, and for a missing key, the read gives `undefined`. */
  function Member(v: Value, key: string): (r: Value)
    ensures r.Some? ==> v.Some? && v.value.JObj? && key in v.value.fields
  {
    match v
    case Some(JObj(fields)) => if key in fields then Some(fields[key]) else None
    case _ => None
  }

  /** `v?.[k0]?.[k1]…` */
  function Path(v: Value, keys: seq<string>): Value
    decreases |keys|
  {
    if keys == [] then v else Path(Member(v, keys[0]), keys[1..])
  }

  /** An object literal, as a value. */
  function Obj(fields: map<string, Json>): Value {
    Some(JObj(fields))
  }

  /** `x || {}`: the fields of the value when it is an object; any other
    * truthy value has no fields the engine reads, and a falsy one becomes
    * the empty object. */
  function FieldsOrEmpty(v: Value): map<string, Json> {
    match v
    case Some(JObj(fields)) => fields
    case _ => map[]
  }

  function Join(parts: seq<string>, sep: string): string {
    if parts == [] then ""
    else if |parts| == 1 then parts[0]
    else parts[0] + sep + Join(parts[1..], sep)
  }

  /** `s.split(sep)` for a one-character separator: the pieces between
    * separators, so there is always at least one. */
  function Split(s: string, sep: char): (parts: seq<string>)
    ensures |parts| >= 1
    ensures forall i, j :: 0 <= i < |parts| && 0 <= j < |parts[i]| ==> parts[i][j] != sep
    decreases |s|
  {
    if s == [] then [""]
    else
      var rest := Split(s[1..], sep);
      if s[0] == sep then [""] + rest
      else
        assert forall j :: 0 < j < |[s[0]] + rest[0]| ==> ([s[0]] + rest[0])[j] == rest[0][j - 1];
        [[s[0]] + rest[0]] + rest[1..]
  }

  /** Joining the pieces with the separator gives the string back. */
  lemma {:induction false} JoinSplit(s: string, sep: char)
    ensures Join(Split(s, sep), [sep]) == s
    decreases |s|
  {
    if s != [] {
      var rest := Split(s[1..], sep);
      JoinSplit(s[1..], sep);
      if s[0] == sep {
        assert Split(s, sep) == [""] + rest;
        assert ([""] + rest)[1..] == rest;
      } else {
        var parts := [[s[0]] + rest[0]] + rest[1..];
        assert Split(s, sep) == parts;
        if |rest| == 1 {
          assert Join(rest, [sep]) == rest[0];
        } else {
          assert parts[1..] == rest[1..];
          assert Join(rest, [sep]) == rest[0] + [sep] + Join(rest[1..], [sep]);
        }
      }
    }
  }

  /** Splitting a join of separator-free pieces gives the pieces back. */
  lemma {:induction false} SplitJoin(parts: seq<string>, sep: char)
    requires |parts| >= 1
    requires forall i, j :: 0 <= i < |parts| && 0 <= j < |parts[i]| ==> parts[i][j] != sep
    ensures Split(Join(parts, [sep]), sep) == parts
    decreases |parts|
  {
    var p := parts[0];
    if |parts| == 1 {
      SplitNoSeparator(p, sep);
    } else {
      var tail := parts[1..];
      assert forall i :: 0 <= i < |tail| ==> tail[i] == parts[i + 1];
      SplitJoin(tail, sep);
      SplitAtFirst(p, Join(tail, [sep]), sep);
      assert [p] + tail == parts;
    }
  }

  /** A piece without the separator splits into itself. */
  lemma {:induction false} SplitNoSeparator(p: string, sep: char)
    requires forall j :: 0 <= j < |p| ==> p[j] != sep
    ensures Split(p, sep) == [p]
    decreases |p|
  {
    if p != [] {
      SplitNoSeparator(p[1..], sep);
      assert [p[0]] + p[1..] == p;
    }
  }

  /** The separator after a separator-free piece ends the first piece. */
  lemma {:induction false} SplitAtFirst(p: string, x: string, sep: char)
    requires forall j :: 0 <= j < |p| ==> p[j] != sep
    ensures Split(p + [sep] + x, sep) == [p] + Split(x, sep)
    decreases |p|
  {
    var s := p + [sep] + x;
    if p == [] {
      assert s == [sep] + x && s[1..] == x;
    } else {
      assert s[0] == p[0] && s[1..] == p[1..] + [sep] + x;
      SplitAtFirst(p[1..], x, sep);
      assert [p[0]] + p[1..] == p;
    }
  }

  /** `s.replace(/[^…]/g, "")`: keeps the characters of the class, in order. */
  function KeepOnly(s: string, allowed: set<char>): (r: string)
    ensures |r| <= |s|
    ensures forall i :: 0 <= i < |r| ==> r[i] in allowed
    ensures (forall i :: 0 <= i < |s| ==> s[i] in allowed) ==> r == s
  {
    if s == [] then []
    else if s[0] in allowed then [s[0]] + KeepOnly(s[1..], allowed)
    else KeepOnly(s[1..], allowed)
  }

  /** Keeping characters twice is keeping them once. */
  lemma KeepOnlyIdempotent(s: string, allowed: set<char>)
    ensures KeepOnly(KeepOnly(s, allowed), allowed) == KeepOnly(s, allowed)
  {
  }

  /** No allowed character is lost: the kept characters are exactly the
    * allowed ones of the input, counted with multiplicity. */
  lemma {:induction false} KeepOnlyCounts(s: string, allowed: set<char>, c: char)
    requires c in allowed
    ensures multiset(KeepOnly(s, allowed))[c] == multiset(s)[c]
  {
    if s != [] {
      KeepOnlyCounts(s[1..], allowed, c);
      assert s == [s[0]] + s[1..];
    }
  }

  /** `String(v)` */
  function ToJsString(v: Value): string {
    match v
    case None => "undefined"
    case Some(j) => JsonToString(j)
  }

  function JsonToString(j: Json): string {
    match j
    case JNull => "null"
    case JBool(b) => if b then "true" else "false"
    case JNum(n) => RealToString(n)
    case JStr(s) => s
    case JArr(items) =>
      // `Array.prototype.join(",")` writes null elements as empty strings.
      Join(seq(|items|, i requires 0 <= i < |items| =>
        if items[i] == JNull then "" else JsonToString(items[i])), ",")
    case JObj(_) => "[object Object]"
  }

  /** A property name computed from a value, as in `obj[v]`. */
  function PropertyKey(v: Value): string {
    ToJsString(v)
  }

  /** `Number(v)` */
  function ToNumber(v: Value): Num {
    match v
    case None => NaN
    case Some(j) =>
      match j
      case JNull => Fin(0.0)
      case JBool(b) => Fin(if b then 1.0 else 0.0)
      case JNum(n) => Fin(n)
      case JStr(s) => StringToNumber(s)
      case JArr(_) => StringToNumber(JsonToString(j))
      case JObj(_) => NaN
  }

  /** `parseFloat(String(v).replace(",", "."))`: the engine's reading of a
    * value that may hold a decimal comma. */
  function ParseDecimal(v: Value): Num {
    ParseDecimalString(ToJsString(v))
  }

  /** `undefined` and `null` are unreadable to the decimal-comma parse. */
  lemma UndefinedUnreadable()
    ensures ParseDecimal(None) == NaN
    ensures ParseDecimal(Some(JNull)) == NaN
  {
    LetterStartUnreadable("undefined");
    LetterStartUnreadable("null");
  }

  /** `typeof v === "string"` */
  predicate IsString(v: Value) {
    v.Some? && v.value.JStr?
  }

  /** Printed numbers contain no comma, so the comma rewrite leaves them
    * alone and the comma-tolerant parse reads every representable number
    * back exactly. */
  lemma {:induction false} ParseDecimalOfNumber(n: real)
    requires Representable(n)
    ensures ParseDecimal(Some(JNum(n))) == Fin(n)
  {
    var s := RealToString(n);
    NumberToStringRoundTrip(n);
    PrintedHasNoComma(n);
    FirstCommaToDotSpec(s, 0);
  }

  lemma PrintedHasNoComma(n: real)
    requires Representable(n)
    ensures forall j :: 0 <= j < |RealToString(n)| ==> RealToString(n)[j] != ','
  {
    var a := Abs(n);
    assert Representable(a) by {
      assert Abs(a) == a;
    }
    var u := UnsignedToString(a);
    UnsignedParts(a);
    var ds := NatToString(a.Floor);
    var fs := FractionString(a);
    forall j | 0 <= j < |u|
      ensures u[j] != ','
    {
      if fs == [] {
        assert u == ds;
      } else {
        assert u == ds + "." + fs;
        if j < |ds| {
          assert u[j] == ds[j];
        } else if j > |ds| {
          assert u[j] == fs[j - |ds| - 1];
        }
      }
    }
    if n < 0.0 {
      assert RealToString(n) == "-" + u;
    } else {
      assert RealToString(n) == u;
    }
  }

  /** The two number readings the engine mixes agree on numbers and on
    * comma-free text that `Number` accepts, and differ on a decimal comma. */
  lemma ParseDecimalAgreesWithNumber(s: string)
    requires NoSpace(s) && s != []
    requires forall j :: 0 <= j < |s| ==> s[j] != ','
    requires StringToNumber(s).Fin?
    ensures ParseDecimal(Some(JStr(s))) == ToNumber(Some(JStr(s)))
  {
    FirstCommaToDotSpec(s, 0);
    NumberAgreesWithParseFloat(s);
  }

  /** `"12,5"` reads as 12.5 through the comma rewrite and as NaN through
    * `Number`. */
  lemma DecimalCommaDiverges(s: string)
    requires s == "12,5"
    ensures ParseDecimal(Some(JStr(s))) == Fin(12.5)
    ensures ToNumber(Some(JStr(s))) == NaN
  {
    DecimalCommaReads();
    DecimalCommaRejected(s);
  }

  lemma DecimalCommaRejected(s: string)
    requires s == "12,5"
    ensures ToNumber(Some(JStr(s))) == NaN
  {
    assert ToNumber(Some(JStr(s))) == StringToNumber(s);
    NumberRejectsTrailingText();
  }

  lemma DecimalCommaReads()
    ensures ParseDecimalString("12,5") == Fin(12.5)
  {
    CommaRewriteExample();
    PlainTwelveAndAHalf();
  }

  lemma PlainTwelveAndAHalf()
    ensures ParseFloat("12.5") == Fin(12.5)
  {
    assert DigitsValue("12") == 12 by {
      assert "12"[..1] == "1";
    }
    assert FracValue("5") == 0.5;
    ParsePlain("12", "5", "12.5");
  }

  lemma CommaRewriteExample()
    ensures FirstCommaToDot("12,5") == "12.5"
  {
    assert "12,5"[1..] == "2,5";
    assert "2,5"[1..] == ",5";
  }

  /** The message of the `ReferenceError` an undeclared identifier throws. */
  function ReferenceError(name: string): string {
    name + " is not defined"
  }

  /** Evaluating the identifier `name` where the names of `scope` are
    * declared: a declared name gives its binding, any other throws. */
  function Identifier<T>(scope: set<string>, name: string, binding: T): (r: Result<T>)
    ensures r.Success? <==> name in scope
    ensures r.Success? ==> r.value == binding
    ensures r.Failure? ==> r.error == ReferenceError(name)
  {
    if name in scope then Success(binding) else Failure(ReferenceError(name))
  }
}
