/**
 * The catalog editor's write path (src/ai/CatalogEditor.jsx): every edit
 * copies the catalog, walks a dotted path in the copy creating empty objects
 * where the path does not lead through an object, stores the new value at the
 * end and hands the copy on. Inputs only keep the characters of a number.
 */
module CatalogEditor {
  import opened Wrappers
  import opened JsNumbers
  import opened JsValues

  type Fields = map<string, Json>

  /** The object found under `k`, or a fresh empty one when `k` is missing or
    * holds anything that is not an object (null included). */
  function ChildFields(obj: Fields, k: string): (r: Fields)
    ensures k in obj && obj[k].JObj? ==> r == obj[k].fields
    ensures !(k in obj && obj[k].JObj?) ==> r == map[]
  {
    if k in obj && obj[k].JObj? then obj[k].fields else map[]
  }

  /** The object the walk reaches after the segments `ks`. */
  function Descend(obj: Fields, ks: seq<string>): Fields
    decreases |ks|
  {
    if ks == [] then obj else ChildFields(Descend(obj, ks[..|ks| - 1]), ks[|ks| - 1])
  }

  /** The catalog after storing `v` at the segments `segs`. */
  function SetPath(obj: Fields, segs: seq<string>, v: Json): Fields
    requires |segs| >= 1
    decreases |segs|
  {
    if |segs| == 1 then obj[segs[0] := v]
    else obj[segs[0] := JObj(SetPath(ChildFields(obj, segs[0]), segs[1..], v))]
  }

  /** `setVal(path, newVal)`: the copy handed to `onChange`. The catalog
    * itself is a value here, so it cannot change. */
  method SetVal(catalog: Fields, path: string, newVal: Json) returns (next: Fields)
    ensures next == SetPath(catalog, Split(path, '.'), newVal)
  {
    var segs := Split(path, '.');
    // The walk down: `parents[i]` is the object `cur` pointed at before step i.
    var parents: seq<Fields> := [];
    var cur := catalog;
    for i := 0 to |segs| - 1
      invariant |parents| == i
      invariant cur == Descend(catalog, segs[..i])
      invariant forall j :: 0 <= j < i ==> parents[j] == Descend(catalog, segs[..j])
    {
      parents := parents + [cur];
      DescendStep(catalog, segs, i);
      cur := ChildFields(cur, segs[i]);
    }
    // The writes, innermost first: each parent receives its updated child.
    var n := |segs| - 1;
    next := cur[segs[n] := newVal];
    assert segs[n..] == [segs[n]];
    var i := n;
    while i > 0
      invariant 0 <= i <= n
      invariant next == SetPath(Descend(catalog, segs[..i]), segs[i..], newVal)
    {
      i := i - 1;
      SetPathStep(catalog, segs, newVal, i);
      next := parents[i][segs[i] := JObj(next)];
    }
  }

  /** One more segment walks one level further down. */
  lemma DescendStep(obj: Fields, segs: seq<string>, i: nat)
    requires i < |segs|
    ensures Descend(obj, segs[..i + 1]) == ChildFields(Descend(obj, segs[..i]), segs[i])
  {
    assert segs[..i + 1][..i] == segs[..i];
  }

  /** Writing from level `i` stores the write from level `i + 1` under the
    * `i`-th segment. */
  lemma SetPathStep(obj: Fields, segs: seq<string>, v: Json, i: nat)
    requires i + 1 < |segs|
    ensures SetPath(Descend(obj, segs[..i]), segs[i..], v)
            == Descend(obj, segs[..i])[segs[i] := JObj(SetPath(Descend(obj, segs[..i + 1]), segs[i + 1..], v))]
  {
    DescendStep(obj, segs, i);
    assert segs[i..][1..] == segs[i + 1..];
  }

  /** Read back through the written path, the new value is there. */
  lemma {:induction false} GetAfterSet(obj: Fields, segs: seq<string>, v: Json)
    requires |segs| >= 1
    ensures Path(Obj(SetPath(obj, segs, v)), segs) == Some(v)
    decreases |segs|
  {
    if |segs| > 1 {
      GetAfterSet(ChildFields(obj, segs[0]), segs[1..], v);
    }
  }

  /** Keys other than the first segment keep their values; the first segment
    * is the only key that may be added. */
  lemma OtherKeysUnchanged(obj: Fields, segs: seq<string>, v: Json)
    requires |segs| >= 1
    ensures SetPath(obj, segs, v).Keys == obj.Keys + {segs[0]}
    ensures forall k :: k in obj && k != segs[0] ==> SetPath(obj, segs, v)[k] == obj[k]
  {
  }

  /** A read whose path turns off the written path at its first segment sees
    * what it saw before. */
  lemma DivergingPathUnchanged(obj: Fields, segs: seq<string>, v: Json, p: seq<string>)
    requires |segs| >= 1 && |p| >= 1 && p[0] != segs[0]
    ensures Path(Obj(SetPath(obj, segs, v)), p) == Path(Obj(obj), p)
  {
  }

  /** Below a shared first segment, the write acts on the child object. */
  lemma SharedSegment(obj: Fields, segs: seq<string>, v: Json, p: seq<string>)
    requires |segs| >= 2 && |p| >= 1 && p[0] == segs[0]
    ensures Path(Obj(SetPath(obj, segs, v)), p)
         == Path(Obj(SetPath(ChildFields(obj, segs[0]), segs[1..], v)), p[1..])
  {
  }

  /** Walking `k` and then `ks` is walking `[k] + ks`. */
  lemma {:induction false} DescendCons(obj: Fields, k: string, ks: seq<string>)
    ensures Descend(obj, [k] + ks) == Descend(ChildFields(obj, k), ks)
    decreases |ks|
  {
    if ks != [] {
      var full := [k] + ks;
      assert full[..|full| - 1] == [k] + ks[..|ks| - 1];
      DescendCons(obj, k, ks[..|ks| - 1]);
    } else {
      assert ([k] + ks)[..0] == [];
    }
  }

  /** Entries not on the written path are unchanged, at every depth: a read
    * along `p`, which follows the written path for `d` segments and then
    * turns off, finds what the catalog holds at `p` below the object the
    * walk reached at depth `d` (which is empty when the walk had to create
    * it). */
  lemma {:induction false} OffPathUnchanged(obj: Fields, segs: seq<string>, v: Json,
                                            p: seq<string>, d: nat)
    requires d < |segs| && d < |p| && p[..d] == segs[..d] && p[d] != segs[d]
    ensures Path(Obj(SetPath(obj, segs, v)), p) == Path(Obj(Descend(obj, segs[..d])), p[d..])
    decreases d
  {
    if d == 0 {
      DivergingPathUnchanged(obj, segs, v, p);
      assert p[0..] == p;
    } else {
      assert p[0] == p[..d][0] == segs[..d][0] == segs[0];
      var child := ChildFields(obj, segs[0]);
      SharedSegment(obj, segs, v, p);
      assert p[1..][..d - 1] == p[1..d] == segs[1..d] == segs[1..][..d - 1];
      OffPathUnchanged(child, segs[1..], v, p[1..], d - 1);
      assert p[1..][d - 1..] == p[d..];
      DescendCons(obj, segs[0], segs[1..d]);
      assert [segs[0]] + segs[1..d] == segs[..d];
    }
  }

  /** A path that does lead through objects keeps the objects' contents
    * next to the written entry. */
  lemma IntermediateKept(obj: Fields, segs: seq<string>, v: Json)
    requires |segs| >= 2 && segs[0] in obj && obj[segs[0]].JObj?
    ensures SetPath(obj, segs, v)[segs[0]]
         == JObj(SetPath(obj[segs[0]].fields, segs[1..], v))
  {
  }

  /** A scalar, null or missing entry on the path's prefix is discarded and
    * replaced by an object holding only the rest of the path. */
  lemma ScalarOnPrefixDiscarded(obj: Fields, segs: seq<string>, v: Json)
    requires |segs| >= 2 && !(segs[0] in obj && obj[segs[0]].JObj?)
    ensures SetPath(obj, segs, v)[segs[0]] == JObj(SetPath(map[], segs[1..], v))
    ensures SetPath(obj, segs, v)[segs[0]].fields.Keys == {segs[1]}
  {
  }

  /** `asStr(v)`: numbers as their decimal text, null and undefined as the
    * empty string, anything else as it is. */
  function AsStr(v: Value): (r: Value)
    ensures v.Some? && v.value.JNum? ==> r == Some(JStr(RealToString(v.value.n)))
    ensures IsNullish(v) ==> r == Some(JStr(""))
    ensures IsString(v) ==> r == v
  {
    match v
    case Some(JNum(n)) => Some(JStr(RealToString(n)))
    case _ => if IsNullish(v) then Some(JStr("")) else v
  }

  /** What `asStr` shows for a stored number reads back as that number. */
  lemma AsStrRoundTrip(n: real)
    requires Representable(n)
    ensures ParseDecimal(AsStr(Some(JNum(n)))) == Fin(n)
  {
    ParseDecimalOfNumber(n);
  }

  /** The characters a numeric catalog input keeps: `[0-9.,-]`. */
  const NumInputChars: set<char> :=
    {'0', '1', '2', '3', '4', '5', '6', '7', '8', '9', '.', ',', '-'}

  /** The text a numeric catalog input stores. */
  function NumInputFilter(typed: string): (stored: string)
    ensures forall i :: 0 <= i < |stored| ==> stored[i] in NumInputChars
  {
    KeepOnly(typed, NumInputChars)
  }

  /** The filter keeps decimal commas, so catalog values edited by hand may be
    * strings such as "12,5". */
  lemma NumInputKeepsComma()
    ensures NumInputFilter("12,5") == "12,5"
  {
  }
}
