/**
 * JavaScript numbers as the quote engine uses them: NaN or a finite value,
 * the three string-to-number conversions it relies on (`parseFloat`,
 * `Number(string)`, `parseInt`), the conversion back (`String(n)`), and the
 * first-comma-to-dot rewrite it applies before parsing user input.
 */
module JsNumbers {
  import opened Wrappers

  /** A JavaScript number. Infinities never reach a quote, so a division by
    * zero is folded into `NaN`. */
  datatype Num = NaN | Fin(r: real) {

    /** `isNaN(n) ? d : n` */
    function OrIfNaN(d: real): real {
      if NaN? then d else r
    }

    /** `n || d`: NaN and zero are both falsy. */
    function Or(d: real): real {
      if NaN? || r == 0.0 then d else r
    }

    /** `n || d` where `d` is itself a number expression. */
    function OrNum(d: Num): Num {
      if NaN? || r == 0.0 then d else this
    }
  }

  function Add(a: Num, b: Num): Num {
    if a.Fin? && b.Fin? then Fin(a.r + b.r) else NaN
  }

  function Sub(a: Num, b: Num): Num {
    if a.Fin? && b.Fin? then Fin(a.r - b.r) else NaN
  }

  function Mul(a: Num, b: Num): Num {
    if a.Fin? && b.Fin? then Fin(a.r * b.r) else NaN
  }

  function Div(a: Num, b: Num): Num {
    if a.Fin? && b.Fin? && b.r != 0.0 then Fin(a.r / b.r) else NaN
  }

  /** `Math.max(a, b)`: NaN wins. */
  function Max(a: Num, b: Num): Num {
    if a.Fin? && b.Fin? then Fin(if a.r < b.r then b.r else a.r) else NaN
  }

  /** `Math.min(a, b)`: NaN wins. */
  function Min(a: Num, b: Num): Num {
    if a.Fin? && b.Fin? then Fin(if a.r < b.r then a.r else b.r) else NaN
  }

  function RMax(a: real, b: real): real { if a < b then b else a }

  function RMin(a: real, b: real): real { if a < b then a else b }

  // ---------------------------------------------------------------------------
  // Characters and trimming

  predicate IsDigit(c: char) { '0' <= c <= '9' }

  /** The white space that `trim` and the number parsers skip. */
  predicate IsSpace(c: char) {
    c == ' ' || c == '\t' || c == '\n' || c == '\r' || c == '\U{000B}' || c == '\U{000C}' || c == '\U{00A0}'
  }

  predicate AllDigits(s: string) {
    forall i :: 0 <= i < |s| ==> IsDigit(s[i])
  }

  predicate NoSpace(s: string) {
    forall i :: 0 <= i < |s| ==> !IsSpace(s[i])
  }

  function DigitValue(c: char): nat
    requires IsDigit(c)
  {
    c as int - '0' as int
  }

  function DigitChar(d: nat): char
    requires d < 10
  {
    ('0' as int + d) as char
  }

  function TrimStart(s: string): (t: string)
    ensures |t| <= |s|
    ensures t == [] || !IsSpace(t[0])
  {
    if |s| > 0 && IsSpace(s[0]) then TrimStart(s[1..]) else s
  }

  /** What `TrimStart` leaves is a suffix of its input. */
  lemma {:induction false} TrimStartSuffix(s: string)
    ensures TrimStart(s) == s[|s| - |TrimStart(s)|..]
  {
    if |s| > 0 && IsSpace(s[0]) {
      TrimStartSuffix(s[1..]);
    }
  }

  function TrimEnd(s: string): (t: string)
    ensures |t| <= |s| && t == s[..|t|]
    ensures t == [] || !IsSpace(t[|t| - 1])
  {
    if |s| > 0 && IsSpace(s[|s| - 1]) then TrimEnd(s[..|s| - 1]) else s
  }

  /** `s.trim()` */
  function Trim(s: string): string {
    TrimEnd(TrimStart(s))
  }

  /** A string without white space is its own trim. */
  lemma TrimNoSpace(s: string)
    requires NoSpace(s)
    ensures TrimStart(s) == s && Trim(s) == s
  {
  }

  /** The empty string trims to itself. */
  lemma TrimEmpty()
    ensures Trim("") == ""
  {
    assert TrimStart("") == "";
  }

  /** The number of leading decimal digits of `s`. */
  function LeadingDigits(s: string): (n: nat)
    ensures n <= |s|
    ensures AllDigits(s[..n])
    ensures n < |s| ==> !IsDigit(s[n])
  {
    if |s| > 0 && IsDigit(s[0]) then 1 + LeadingDigits(s[1..]) else 0
  }

  /** The value of a digit string, read most significant digit first. */
  function DigitsValue(s: string): nat
    requires AllDigits(s)
  {
    if s == [] then 0 else DigitsValue(s[..|s| - 1]) * 10 + DigitValue(s[|s| - 1])
  }

  /** The value of the digits after a decimal point. */
  function FracValue(s: string): real
    requires AllDigits(s)
  {
    if s == [] then 0.0 else (DigitValue(s[0]) as real + FracValue(s[1..])) / 10.0
  }

  // ---------------------------------------------------------------------------
  // Parsing

  /** A decimal literal found at the start of a string: its value and how many
    * characters it spans. */
  datatype Literal = Literal(value: real, length: nat)

  /** Length of the optional sign at the start of `s`. */
  function SignLength(s: string): nat {
    if |s| > 0 && (s[0] == '-' || s[0] == '+') then 1 else 0
  }

  /** The longest prefix of `s` made of digits, optionally followed by '.'
    * and digits, with at least one digit in all. */
  function ScanUnsigned(s: string): (r: Option<Literal>)
    ensures r.Some? ==> 0 < r.value.length <= |s|
  {
    var ni := LeadingDigits(s);
    if ni < |s| && s[ni] == '.' then
      var nf := LeadingDigits(s[ni + 1..]);
      if ni == 0 && nf == 0 then None
      else Some(Literal(DigitsValue(s[..ni]) as real + FracValue(s[ni + 1..][..nf]), ni + 1 + nf))
    else if ni == 0 then None
    else Some(Literal(DigitsValue(s[..ni]) as real, ni))
  }

  /** The longest prefix of `s` that is a decimal literal: an optional sign
    * and an unsigned literal. Exponents and `Infinity` are not part of the
    * model. */
  function ScanLiteral(s: string): (r: Option<Literal>)
    ensures r.Some? ==> 0 < r.value.length <= |s|
  {
    var k := SignLength(s);
    match ScanUnsigned(s[k..])
    case None => None
    case Some(lit) => Some(Literal(if k == 1 && s[0] == '-' then -lit.value else lit.value, k + lit.length))
  }

  /** `parseFloat(s)`: leading white space is skipped and the longest literal
    * prefix is read; no literal at all gives NaN. */
  function ParseFloat(s: string): (n: Num)
    ensures n.Fin? <==> ScanLiteral(TrimStart(s)).Some?
  {
    match ScanLiteral(TrimStart(s))
    case None => NaN
    case Some(lit) => Fin(lit.value)
  }

  /** `Number(s)` for a string: the trimmed string must be one literal as a
    * whole, and the empty string is zero. */
  function StringToNumber(s: string): (n: Num)
    ensures Trim(s) == "" ==> n == Fin(0.0)
  {
    var t := Trim(s);
    if t == "" then Fin(0.0)
    else match ScanLiteral(t)
      case Some(lit) => if lit.length == |t| then Fin(lit.value) else NaN
      case None => NaN
  }

  /** `parseInt(s)` read in base 10: leading white space, an optional sign,
    * then the leading digits; no digit gives NaN. */
  function ParseInt(s: string): (n: Num)
    ensures n.Fin? ==> n.r == n.r.Floor as real
  {
    var t := TrimStart(s);
    var signLen := if |t| > 0 && (t[0] == '-' || t[0] == '+') then 1 else 0;
    var body := t[signLen..];
    var n := LeadingDigits(body);
    if n == 0 then NaN
    else
      var v: int := DigitsValue(body[..n]);
      var r: int := if signLen == 1 && t[0] == '-' then -v else v;
      assert (r as real).Floor == r;
      Fin(r as real)
  }

  /** Where the two conversions meet: on a string without white space that
    * `Number` accepts, `parseFloat` reads the same value. */
  lemma NumberAgreesWithParseFloat(s: string)
    requires NoSpace(s) && s != []
    requires StringToNumber(s).Fin?
    ensures ParseFloat(s) == StringToNumber(s)
  {
    TrimNoSpace(s);
  }

  /** `parseFloat` ignores what follows the literal, `Number` does not. */
  lemma NumberRejectsTrailingText()
    ensures ParseFloat("12,5") == Fin(12.0)
    ensures StringToNumber("12,5") == NaN
    ensures StringToNumber("") == Fin(0.0) && ParseFloat("") == NaN
  {
    var s := "12,5";
    assert TrimStart(s) == s && Trim(s) == s;
    assert SignLength(s) == 0 && s[0..] == s;
    assert s[..2] == "12" && s[2] == ',';
    LeadingDigitsExactly(s, 2);
    assert DigitsValue("12") == 12 by {
      assert "12"[..1] == "1";
    }
  }

  /** The comma-tolerant parse reads nothing in the empty string. */
  lemma EmptyUnreadable()
    ensures ParseDecimalString("") == NaN
  {
    NumberRejectsTrailingText();
    assert FirstCommaToDot("") == "";
  }

  // ---------------------------------------------------------------------------
  // Replacing the decimal comma

  /** `s.replace(",", ".")`: only the first comma becomes a dot. */
  function FirstCommaToDot(s: string): (r: string)
    ensures |r| == |s|
  {
    if s == [] then []
    else if s[0] == ',' then "." + s[1..]
    else [s[0]] + FirstCommaToDot(s[1..])
  }

  /** The replacement changes exactly the first comma and nothing else. */
  lemma {:induction false} FirstCommaToDotSpec(s: string, i: nat)
    requires i <= |s|
    requires forall j :: 0 <= j < i ==> s[j] != ','
    ensures i < |s| && s[i] == ',' ==>
      FirstCommaToDot(s) == s[..i] + "." + s[i + 1..]
    ensures (forall j :: i <= j < |s| ==> s[j] != ',') ==> FirstCommaToDot(s) == s
  {
    if s == [] {
    } else if s[0] == ',' {
      assert i == 0;
    } else {
      if i == 0 {
        if forall j :: 0 <= j < |s| ==> s[j] != ',' {
          FirstCommaToDotTail(s);
        }
      } else {
        FirstCommaToDotSpec(s[1..], i - 1);
        if i < |s| && s[i] == ',' {
          calc {
            FirstCommaToDot(s);
            [s[0]] + FirstCommaToDot(s[1..]);
            [s[0]] + (s[1..][..i - 1] + "." + s[1..][i..]);
            { assert [s[0]] + s[1..][..i - 1] == s[..i];
              assert s[1..][i..] == s[i + 1..]; }
            s[..i] + "." + s[i + 1..];
          }
        }
        if forall j :: i <= j < |s| ==> s[j] != ',' {
          assert forall j :: i - 1 <= j < |s[1..]| ==> s[1..][j] != ',';
          assert FirstCommaToDot(s[1..]) == s[1..];
          assert [s[0]] + s[1..] == s;
        }
      }
    }
  }

  lemma {:induction false} FirstCommaToDotTail(s: string)
    requires forall j :: 0 <= j < |s| ==> s[j] != ','
    ensures FirstCommaToDot(s) == s
  {
    if s != [] {
      FirstCommaToDotTail(s[1..]);
      assert [s[0]] + s[1..] == s;
    }
  }

  /** Applying the replacement twice changes the second comma too. */
  lemma FirstCommaToDotOnlyOnce()
    ensures FirstCommaToDot("1,2,3") == "1.2,3"
  {
    assert "1,2,3"[1..] == ",2,3";
    assert ",2,3"[1..] == "2,3";
  }

  /** `parseFloat(String(x).replace(",", "."))`, the engine's reading of a
    * decimal typed with either separator. */
  function ParseDecimalString(s: string): Num {
    ParseFloat(FirstCommaToDot(s))
  }

  /** A string whose first character can neither be skipped nor start a
    * literal holds no number. */
  lemma NoLiteralStart(s: string)
    requires |s| > 0 && !IsSpace(s[0]) && !IsDigit(s[0])
    requires s[0] != '.' && s[0] != '-' && s[0] != '+'
    ensures ParseFloat(s) == NaN
  {
    assert TrimStart(s) == s;
    assert SignLength(s) == 0 && s[0..] == s;
    assert LeadingDigits(s) == 0;
  }

  /** Text that starts with a letter holds no number: `undefined`, `null`,
    * `NaN` and `[object Object]` all read as NaN. */
  lemma LetterStartUnreadable(s: string)
    requires |s| > 0 && ('a' <= s[0] <= 'z' || 'A' <= s[0] <= 'Z' || s[0] == '[')
    ensures ParseDecimalString(s) == NaN && ParseFloat(s) == NaN
  {
    NoLiteralStart(s);
    var t := FirstCommaToDot(s);
    assert t == [s[0]] + FirstCommaToDot(s[1..]);
    NoLiteralStart(t);
  }

  // ---------------------------------------------------------------------------
  // Printing

  /** Number of fractional digits `String(n)` writes out in this model. */
  const FractionDigits: nat := 20

  predicate IsInt(x: real) { x == x.Floor as real }

  function Abs(x: real): real { if x < 0.0 then -x else x }

  /** The fraction `f` has at most `k` decimal digits. */
  predicate EndsWithin(f: real, k: nat)
    requires 0.0 <= f < 1.0
    decreases k
  {
    f == 0.0 || (k > 0 && EndsWithin(f * 10.0 - (f * 10.0).Floor as real, k - 1))
  }

  /** What is left of `x` after its integer part. */
  function Fraction(x: real): (f: real)
    ensures 0.0 <= f < 1.0
  {
    x - x.Floor as real
  }

  /** A value whose decimal expansion ends within `FractionDigits` digits. */
  predicate Representable(x: real) {
    EndsWithin(Fraction(Abs(x)), FractionDigits)
  }

  function NatToString(n: nat): (s: string)
    ensures |s| >= 1
  {
    if n < 10 then [DigitChar(n)] else NatToString(n / 10) + [DigitChar(n % 10)]
  }

  /** Up to `k` digits of the fraction `f`, stopping as soon as it is used up. */
  function FracToString(f: real, k: nat): string
    requires 0.0 <= f < 1.0
    decreases k
  {
    if k == 0 || f == 0.0 then ""
    else
      var d := (f * 10.0).Floor;
      [DigitChar(d)] + FracToString(f * 10.0 - d as real, k - 1)
  }

  /** The fractional digits `String(x)` writes after the point, if any. */
  function FractionString(x: real): string {
    FracToString(Fraction(x), FractionDigits)
  }

  function UnsignedToString(x: real): string
    requires x >= 0.0
  {
    var ds := NatToString(x.Floor);
    var fs := FractionString(x);
    if fs == [] then ds else ds + "." + fs
  }

  /** `String(n)` for a finite number, in plain decimal notation. */
  function RealToString(x: real): string {
    if x < 0.0 then "-" + UnsignedToString(-x) else UnsignedToString(x)
  }

  /** `String(n)` */
  function NumToString(n: Num): string {
    match n
    case NaN => "NaN"
    case Fin(x) => RealToString(x)
  }

  lemma {:induction false} NatToStringDigits(n: nat)
    ensures AllDigits(NatToString(n))
    ensures IsDigit(NatToString(n)[0])
    ensures DigitsValue(NatToString(n)) == n
  {
    if n >= 10 {
      NatToStringDigits(n / 10);
      var s := NatToString(n);
      assert s[..|s| - 1] == NatToString(n / 10);
      assert s[0] == NatToString(n / 10)[0];
    }
  }

  lemma {:induction false} FracToStringDigits(f: real, k: nat)
    requires 0.0 <= f < 1.0 && EndsWithin(f, k)
    ensures AllDigits(FracToString(f, k))
    ensures FracValue(FracToString(f, k)) == f
    decreases k
  {
    if f != 0.0 {
      var d := (f * 10.0).Floor;
      var g := f * 10.0 - d as real;
      FracToStringDigits(g, k - 1);
      var rest := FracToString(g, k - 1);
      var s := [DigitChar(d)] + rest;
      assert s == FracToString(f, k);
      assert s[0] == DigitChar(d) && s[1..] == rest;
      assert DigitValue(s[0]) == d;
    }
  }

  /** Digits, optionally followed by a point and more digits, scan as one
    * literal with the expected value. */
  lemma ScanPlain(ds: string, frac: string, s: string)
    requires |ds| > 0 && AllDigits(ds) && AllDigits(frac)
    requires s == if frac == [] then ds else ds + "." + frac
    ensures ScanUnsigned(s) == Some(Literal(DigitsValue(ds) as real + FracValue(frac), |s|))
  {
    if frac == [] {
      ScanInteger(ds);
    } else {
      ScanDecimal(ds, frac, s);
    }
  }

  lemma ScanInteger(ds: string)
    requires |ds| > 0 && AllDigits(ds)
    ensures ScanUnsigned(ds) == Some(Literal(DigitsValue(ds) as real + FracValue(""), |ds|))
  {
    assert ds[..|ds|] == ds;
    LeadingDigitsExactly(ds, |ds|);
  }

  lemma ScanDecimal(ds: string, frac: string, s: string)
    requires |ds| > 0 && AllDigits(ds) && AllDigits(frac) && frac != []
    requires s == ds + "." + frac
    ensures ScanUnsigned(s) == Some(Literal(DigitsValue(ds) as real + FracValue(frac), |s|))
  {
    DecimalParts(ds, frac, s);
    ScanDecimalAt(s, |ds|);
  }

  /** Digits up to position `n`, a point there, digits after it. */
  lemma ScanDecimalAt(s: string, n: nat)
    requires 0 < n < |s| - 1 && AllDigits(s[..n]) && s[n] == '.' && AllDigits(s[n + 1..])
    ensures ScanUnsigned(s) == Some(Literal(DigitsValue(s[..n]) as real + FracValue(s[n + 1..]), |s|))
  {
    LeadingDigitsExactly(s, n);
    var frac := s[n + 1..];
    LeadingDigitsExactly(frac, |frac|);
    assert frac[..|frac|] == frac;
  }

  /** Where the integer digits, the point and the fraction sit in `s`. */
  lemma DecimalParts(ds: string, frac: string, s: string)
    requires s == ds + "." + frac
    ensures s[..|ds|] == ds && s[|ds|] == '.' && s[|ds| + 1..] == frac
  {
  }

  /** `LeadingDigits` is characterised by its postcondition. */
  lemma LeadingDigitsExactly(s: string, n: nat)
    requires n <= |s| && AllDigits(s[..n])
    requires n < |s| ==> !IsDigit(s[n])
    ensures LeadingDigits(s) == n
    decreases n
  {
    if n > 0 {
      assert s[1..][..n - 1] == s[..n][1..];
      LeadingDigitsExactly(s[1..], n - 1);
    }
  }

  /** Plain decimal text holds only digits and the point. */
  lemma PlainChars(ds: string, frac: string, s: string)
    requires AllDigits(ds) && AllDigits(frac)
    requires s == if frac == [] then ds else ds + "." + frac
    ensures forall j :: 0 <= j < |s| ==> IsDigit(s[j]) || s[j] == '.'
  {
    forall j | 0 <= j < |s|
      ensures IsDigit(s[j]) || s[j] == '.'
    {
      if j < |ds| {
        assert s[j] == ds[j];
      } else if j > |ds| {
        assert s[j] == frac[j - |ds| - 1];
      }
    }
  }

  lemma PlainNoSpace(ds: string, frac: string, s: string)
    requires AllDigits(ds) && AllDigits(frac)
    requires s == if frac == [] then ds else ds + "." + frac
    ensures NoSpace(s)
  {
    PlainChars(ds, frac, s);
  }

  lemma UnsignedParts(x: real)
    requires x >= 0.0 && Representable(x)
    ensures AllDigits(NatToString(x.Floor)) && IsDigit(NatToString(x.Floor)[0])
    ensures AllDigits(FractionString(x))
    ensures DigitsValue(NatToString(x.Floor)) as real + FracValue(FractionString(x)) == x
  {
    NatToStringDigits(x.Floor);
    assert Abs(x) == x;
    FracToStringDigits(Fraction(x), FractionDigits);
  }

  lemma {:induction false} UnsignedRoundTrip(x: real)
    requires x >= 0.0 && Representable(x)
    ensures ScanUnsigned(UnsignedToString(x)) == Some(Literal(x, |UnsignedToString(x)|))
    ensures IsDigit(UnsignedToString(x)[0])
    ensures NoSpace(UnsignedToString(x))
  {
    var ds := NatToString(x.Floor);
    var fs := FractionString(x);
    var s := UnsignedToString(x);
    UnsignedParts(x);
    ScanPlain(ds, fs, s);
    PlainNoSpace(ds, fs, s);
    assert s[0] == ds[0];
  }

  /** A string without white space that is one literal as a whole reads the
    * same under `parseFloat` and `Number`. */
  lemma WholeLiteral(s: string, v: real)
    requires NoSpace(s) && s != []
    requires ScanLiteral(s) == Some(Literal(v, |s|))
    ensures ParseFloat(s) == Fin(v) && StringToNumber(s) == Fin(v)
  {
    TrimNoSpace(s);
  }

  /** Plain decimal text reads as its value under both conversions. */
  lemma ParsePlain(ds: string, frac: string, s: string)
    requires |ds| > 0 && AllDigits(ds) && AllDigits(frac)
    requires s == if frac == [] then ds else ds + "." + frac
    ensures ParseFloat(s) == Fin(DigitsValue(ds) as real + FracValue(frac))
    ensures StringToNumber(s) == Fin(DigitsValue(ds) as real + FracValue(frac))
  {
    ScanPlain(ds, frac, s);
    PlainNoSpace(ds, frac, s);
    assert s[0] == ds[0];
    UnsignedStart(s);
    WholeLiteral(s, DigitsValue(ds) as real + FracValue(frac));
  }

  /** Text that starts with a digit has no sign to skip. */
  lemma UnsignedStart(s: string)
    requires |s| > 0 && IsDigit(s[0])
    ensures ScanLiteral(s) == ScanUnsigned(s)
  {
    assert SignLength(s) == 0 && s[0..] == s;
  }

  /** `parseFloat(String(x))` and `Number(String(x))` give `x` back for every
    * value whose decimal expansion fits the digits `String` writes. */
  lemma {:induction false} NumberToStringRoundTrip(x: real)
    requires Representable(x)
    ensures ParseFloat(RealToString(x)) == Fin(x)
    ensures StringToNumber(RealToString(x)) == Fin(x)
    ensures NoSpace(RealToString(x))
  {
    var s := RealToString(x);
    if x < 0.0 {
      assert Abs(-x) == Abs(x);
      UnsignedRoundTrip(-x);
      var u := UnsignedToString(-x);
      assert s == "-" + u;
      assert s[1..] == u;
      assert SignLength(s) == 1;
      assert forall j :: 1 <= j < |s| ==> s[j] == u[j - 1];
    } else {
      assert Abs(x) == x;
      UnsignedRoundTrip(x);
      assert SignLength(s) == 0;
      assert s[0..] == s;
    }
    WholeLiteral(s, x);
  }

  /** `parseInt(String(x))` reads the integer part of a non-negative number:
    * the digits stop at the decimal point. */
  lemma {:induction false} ParseIntOfPrinted(x: real)
    requires x >= 0.0 && Representable(x)
    ensures ParseInt(RealToString(x)) == Fin(x.Floor as real)
  {
    UnsignedParts(x);
    NatToStringDigits(x.Floor);
    ParseIntOfPlain(NatToString(x.Floor), FractionString(x), RealToString(x));
  }

  lemma ParseIntOfPlain(ds: string, frac: string, s: string)
    requires |ds| > 0 && AllDigits(ds) && AllDigits(frac)
    requires s == if frac == [] then ds else ds + "." + frac
    ensures ParseInt(s) == Fin(DigitsValue(ds) as real)
  {
    assert s[0] == ds[0];
    assert TrimStart(s) == s;
    assert s[0..] == s;
    assert s[..|ds|] == ds;
    LeadingDigitsExactly(s, |ds|);
  }

  /** Every integer prints and parses back. */
  lemma IntegersRepresentable(n: int)
    ensures Representable(n as real)
  {
    assert Abs(n as real) == (if n < 0 then -n else n) as real;
  }

  /** Zero prints as "0". */
  lemma ZeroPrints()
    ensures RealToString(0.0) == "0"
  {
    assert FractionString(0.0) == "";
    assert NatToString(0) == "0";
  }
}
