/**
 * The admin form's list of offered system sizes (src/app.jsx): the stored
 * array is shown as text joined with ", "; the text is split at every run
 * of `;`, `,` and white space, each piece is read with the decimal-comma
 * parse, and only the positive numbers are kept.
 */
module PvSizesText {
  import opened Wrappers
  import opened JsNumbers
  import opened JsValues

  /** `[;,\s]` */
  predicate IsSeparator(c: char) {
    c == ';' || c == ',' || IsSpace(c)
  }

  predicate NoSeparator(s: string) {
    forall i :: 0 <= i < |s| ==> !IsSeparator(s[i])
  }

  /** Length of the leading run of non-separators. */
  function WordLength(s: string): (n: nat)
    ensures n <= |s|
    ensures NoSeparator(s[..n])
    ensures n < |s| ==> IsSeparator(s[n])
  {
    if s == [] || IsSeparator(s[0]) then 0
    else
      var n := 1 + WordLength(s[1..]);
      assert forall i :: 0 < i < n ==> s[..n][i] == s[1..][..n - 1][i - 1];
      n
  }

  /** Length of the leading run of separators. */
  function SeparatorLength(s: string): (n: nat)
    ensures n <= |s|
    ensures s != [] && IsSeparator(s[0]) ==> n >= 1
    ensures n < |s| ==> !IsSeparator(s[n])
    ensures forall i :: 0 <= i < n ==> IsSeparator(s[i])
  {
    if s == [] || !IsSeparator(s[0]) then 0 else 1 + SeparatorLength(s[1..])
  }

  /** `text.split(/[;,\s]+/)`: the pieces between separator runs; a leading
    * or trailing run yields an empty piece. */
  function Pieces(s: string): (ps: seq<string>)
    ensures |ps| >= 1
    decreases |s|
  {
    var k := WordLength(s);
    if k == |s| then [s]
    else [s[..k]] + Pieces(s[k..][SeparatorLength(s[k..])..])
  }

  /** `.map(x => parseFloat(String(x).replace(",", "."))).filter(x => !isNaN(x) && x > 0)` */
  function SizesFrom(pieces: seq<string>): (sizes: seq<real>)
    ensures |sizes| <= |pieces|
    ensures forall i :: 0 <= i < |sizes| ==> sizes[i] > 0.0
  {
    if pieces == [] then []
    else
      var v := ParseDecimalString(pieces[0]);
      if v.Fin? && v.r > 0.0 then [v.r] + SizesFrom(pieces[1..]) else SizesFrom(pieces[1..])
  }

  /** The sizes the form saves for its text. */
  function SizesOfText(text: string): (sizes: seq<real>)
    ensures forall i :: 0 <= i < |sizes| ==> sizes[i] > 0.0
  {
    SizesFrom(Pieces(text))
  }

  function Printed(sizes: seq<real>): (ps: seq<string>)
    ensures |ps| == |sizes|
    ensures forall i :: 0 <= i < |sizes| ==> ps[i] == RealToString(sizes[i])
  {
    seq(|sizes|, i requires 0 <= i < |sizes| => RealToString(sizes[i]))
  }

  /** `arr.join(", ")` for a list of numbers. */
  function SizesText(sizes: seq<real>): string {
    Join(Printed(sizes), ", ")
  }

  /** A list of numbers as stored. */
  function SizesJson(sizes: seq<real>): (j: Json)
    ensures j.JArr? && |j.items| == |sizes|
    ensures forall i :: 0 <= i < |sizes| ==> j.items[i] == JNum(sizes[i])
  {
    JArr(seq(|sizes|, i requires 0 <= i < |sizes| => JNum(sizes[i])))
  }

  /** The text the form opens with: `Array.isArray(x) ? x.join(", ") : String(x || "")`. */
  function InitialText(v: Value): string {
    if v.Some? && v.value.JArr? then
      var items := v.value.items;
      Join(seq(|items|, i requires 0 <= i < |items| =>
        if items[i] == JNull then "" else JsonToString(items[i])), ", ")
    else ToJsString(OrElse(v, Some(JStr(""))))
  }

  /** A stored list of numbers opens as its joined text. */
  lemma InitialTextOfSizes(sizes: seq<real>)
    ensures InitialText(Some(SizesJson(sizes))) == SizesText(sizes)
  {
    var items := SizesJson(sizes).items;
    var shown := seq(|items|, i requires 0 <= i < |items| =>
      if items[i] == JNull then "" else JsonToString(items[i]));
    assert shown == Printed(sizes);
  }

  // ---------------------------------------------------------------------------
  // Splitting a joined list

  lemma WordLengthExactly(s: string, n: nat)
    requires n <= |s| && NoSeparator(s[..n])
    requires n < |s| ==> IsSeparator(s[n])
    ensures WordLength(s) == n
    decreases n
  {
    if n > 0 {
      assert !IsSeparator(s[..n][0]);
      assert s[1..][..n - 1] == s[..n][1..];
      WordLengthExactly(s[1..], n - 1);
    }
  }

  /** A joined list starts with its first piece. */
  lemma {:induction false} JoinStartsWith(parts: seq<string>, sep: string)
    requires |parts| >= 1
    ensures |Join(parts, sep)| >= |parts[0]|
    ensures Join(parts, sep)[..|parts[0]|] == parts[0]
  {
    if |parts| > 1 {
      assert Join(parts, sep) == parts[0] + sep + Join(parts[1..], sep);
    }
  }

  /** Splitting words joined by ", " gives the words back. */
  lemma {:induction false} PiecesOfJoin(words: seq<string>)
    requires |words| >= 1
    requires forall i :: 0 <= i < |words| ==> words[i] != [] && NoSeparator(words[i])
    ensures Pieces(Join(words, ", ")) == words
    decreases |words|
  {
    var w := words[0];
    var s := Join(words, ", ");
    if |words| == 1 {
      assert s == w && s[..|w|] == w;
      WordLengthExactly(s, |w|);
    } else {
      var rest := Join(words[1..], ", ");
      assert s == w + ", " + rest;
      JoinStartsWith(words[1..], ", ");
      assert rest[0] == words[1][0];
      assert s[..|w|] == w;
      assert s[|w|] == ',';
      WordLengthExactly(s, |w|);
      var tail := s[|w|..];
      assert tail == ", " + rest;
      assert IsSeparator(tail[0]) && IsSeparator(tail[1]) && !IsSeparator(tail[2]);
      assert SeparatorLength(tail) == 2 by {
        assert tail[1..][1..] == rest;
      }
      assert tail[2..] == rest;
      PiecesOfJoin(words[1..]);
      assert words == [w] + words[1..];
    }
  }

  /** A positive number prints as digits and at most one point. */
  lemma PrintedWord(x: real)
    requires x > 0.0 && Representable(x)
    ensures RealToString(x) != [] && NoSeparator(RealToString(x))
  {
    UnsignedParts(x);
    var ds := NatToString(x.Floor);
    var fs := FractionString(x);
    var s := RealToString(x);
    assert s == if fs == [] then ds else ds + "." + fs;
    PlainChars(ds, fs, s);
  }

  lemma {:induction false} SizesOfPrinted(sizes: seq<real>)
    requires forall i :: 0 <= i < |sizes| ==> sizes[i] > 0.0 && Representable(sizes[i])
    ensures SizesFrom(Printed(sizes)) == sizes
    decreases |sizes|
  {
    if sizes != [] {
      var p := Printed(sizes);
      FirstPrintedReads(sizes[0], p[0]);
      assert SizesFrom(p) == [sizes[0]] + SizesFrom(p[1..]);
      assert p[1..] == Printed(sizes[1..]);
      SizesOfPrinted(sizes[1..]);
      assert sizes == [sizes[0]] + sizes[1..];
    }
  }

  lemma FirstPrintedReads(x: real, w: string)
    requires x > 0.0 && Representable(x) && w == RealToString(x)
    ensures ParseDecimalString(w) == Fin(x)
  {
    ParseDecimalOfNumber(x);
    assert ParseDecimal(Some(JNum(x))) == ParseDecimalString(w);
  }

  /** The empty text holds no size. */
  lemma EmptyTextNoSizes()
    ensures SizesOfText("") == []
  {
    assert Pieces("") == [""];
    NumberRejectsTrailingText();
    assert FirstCommaToDot("") == "";
  }

  /** The joined text of positive sizes reads back as the same sizes, so
    * leaving the field and saving keep the list as it is. */
  lemma {:induction false} SizesTextRoundTrip(sizes: seq<real>)
    requires forall i :: 0 <= i < |sizes| ==> sizes[i] > 0.0 && Representable(sizes[i])
    ensures SizesOfText(SizesText(sizes)) == sizes
  {
    if sizes == [] {
      EmptyTextNoSizes();
    } else {
      var words := Printed(sizes);
      forall i | 0 <= i < |words| ensures words[i] != [] && NoSeparator(words[i]) {
        PrintedWord(sizes[i]);
      }
      PiecesOfJoin(words);
      SizesOfPrinted(sizes);
    }
  }

  /** Leaving the field rewrites the text as the joined sizes; doing it again
    * changes nothing. */
  lemma BlurIdempotent(text: string)
    requires forall i :: 0 <= i < |SizesOfText(text)| ==> Representable(SizesOfText(text)[i])
    ensures SizesOfText(SizesText(SizesOfText(text))) == SizesOfText(text)
  {
    SizesTextRoundTrip(SizesOfText(text));
  }

  /** The comma is a separator here, so a decimal comma splits a size in
    * two: "12,5" is the two sizes 12 and 5, not 12.5. */
  lemma DecimalCommaSplits()
    ensures SizesOfText("12,5") == [12.0, 5.0]
  {
    TwoPieces();
    PieceTwelve();
    PieceFive();
  }

  lemma TwoPieces()
    ensures Pieces("12,5") == ["12", "5"]
  {
    var s := "12,5";
    assert s[..2] == "12";
    WordLengthExactly(s, 2);
    assert s[2..] == ",5";
    assert SeparatorLength(",5") == 1;
    assert ",5"[1..] == "5";
    WordLengthExactly("5", 1);
  }

  lemma PieceTwelve()
    ensures ParseDecimalString("12") == Fin(12.0)
  {
    assert FirstCommaToDot("12") == "12" by {
      assert "12"[1..] == "2";
    }
    assert DigitsValue("12") == 12 by {
      assert "12"[..1] == "1";
    }
    ParsePlain("12", "", "12");
  }

  lemma PieceFive()
    ensures ParseDecimalString("5") == Fin(5.0)
  {
    assert FirstCommaToDot("5") == "5";
    assert DigitsValue("5") == 5 by {
      assert "5"[..0] == "";
    }
    ParsePlain("5", "", "5");
  }

  /** The characters the field accepts while typing: `[0-9.,;\s]`. */
  predicate AcceptedChar(c: char) {
    IsDigit(c) || c == '.' || IsSeparator(c)
  }

  /** The field keeps a typed text only when every character is accepted. */
  function TypedText(current: string, typed: string): (shown: string)
    ensures (forall i :: 0 <= i < |typed| ==> AcceptedChar(typed[i])) ==> shown == typed
    ensures !(forall i :: 0 <= i < |typed| ==> AcceptedChar(typed[i])) ==> shown == current
  {
    if forall i :: 0 <= i < |typed| ==> AcceptedChar(typed[i]) then typed else current
  }
}
