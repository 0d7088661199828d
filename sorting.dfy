/**
 * The two array sorts the size suggestions rely on: ascending by value
 * (`sort((a, b) => a - b)`) and by distance from a target
 * (`sort((a, b) => a.d - b.d)`). JavaScript's sort is stable, so the second
 * keeps equally distant sizes in their ascending order.
 */
module Sorting {
  import opened JsNumbers

  predicate Ascending(s: seq<real>) {
    forall i, j :: 0 <= i < j < |s| ==> s[i] <= s[j]
  }

  predicate StrictlyAscending(s: seq<real>) {
    forall i, j :: 0 <= i < j < |s| ==> s[i] < s[j]
  }

  function InsertAsc(x: real, s: seq<real>): (r: seq<real>)
    ensures multiset(r) == multiset(s) + multiset{x}
    ensures |r| == |s| + 1
  {
    if s == [] || x <= s[0] then [x] + s
    else
      assert s == [s[0]] + s[1..];
      [s[0]] + InsertAsc(x, s[1..])
  }

  lemma {:induction false} InsertAscSorted(x: real, s: seq<real>)
    requires Ascending(s)
    ensures Ascending(InsertAsc(x, s))
    decreases |s|
  {
    if s != [] && x > s[0] {
      InsertAscSorted(x, s[1..]);
      InsertAscBounded(x, s[1..], s[0]);
    }
  }

  /** Inserting keeps every element above a common lower bound. */
  lemma {:induction false} InsertAscBounded(x: real, s: seq<real>, lo: real)
    requires lo <= x
    requires forall k :: 0 <= k < |s| ==> lo <= s[k]
    ensures forall k :: 0 <= k < |s| + 1 ==> lo <= InsertAsc(x, s)[k]
    decreases |s|
  {
    if s != [] && x > s[0] {
      InsertAscBounded(x, s[1..], lo);
    }
  }

  /** `arr.slice().sort((a, b) => a - b)` */
  function SortAsc(s: seq<real>): (r: seq<real>)
    ensures multiset(r) == multiset(s)
    ensures Ascending(r)
  {
    if s == [] then []
    else
      assert s == [s[0]] + s[1..];
      InsertAscSorted(s[0], SortAsc(s[1..]));
      InsertAsc(s[0], SortAsc(s[1..]))
  }

  function Dist(x: real, target: real): real {
    Abs(x - target)
  }

  predicate ByDistance(s: seq<real>, target: real) {
    forall i, j :: 0 <= i < j < |s| ==> Dist(s[i], target) <= Dist(s[j], target)
  }

  /** Nearer first; equally near, smaller first. */
  predicate Before(a: real, b: real, target: real) {
    Dist(a, target) < Dist(b, target) || (Dist(a, target) == Dist(b, target) && a <= b)
  }

  predicate ByDistanceThenSize(s: seq<real>, target: real) {
    forall i, j :: 0 <= i < j < |s| ==> Before(s[i], s[j], target)
  }

  /** Stable insertion: `x` goes before the first element that is at least as
    * far from the target. */
  function InsertByDist(x: real, s: seq<real>, target: real): (r: seq<real>)
    ensures multiset(r) == multiset(s) + multiset{x}
    ensures |r| == |s| + 1
  {
    if s == [] || Dist(x, target) <= Dist(s[0], target) then [x] + s
    else
      assert s == [s[0]] + s[1..];
      [s[0]] + InsertByDist(x, s[1..], target)
  }

  /** The stable sort by distance from `target`. */
  function SortByDist(s: seq<real>, target: real): (r: seq<real>)
    ensures multiset(r) == multiset(s)
    ensures |r| == |s|
  {
    if s == [] then []
    else
      assert s == [s[0]] + s[1..];
      InsertByDist(s[0], SortByDist(s[1..], target), target)
  }

  lemma {:induction false} InsertByDistSorted(x: real, s: seq<real>, target: real)
    requires ByDistance(s, target)
    ensures ByDistance(InsertByDist(x, s, target), target)
    decreases |s|
  {
    if s != [] && Dist(x, target) > Dist(s[0], target) {
      InsertByDistSorted(x, s[1..], target);
      InsertByDistBounded(x, s[1..], target, Dist(s[0], target));
    }
  }

  /** Inserting keeps every element at least as far as a common bound. */
  lemma {:induction false} InsertByDistBounded(x: real, s: seq<real>, target: real, d: real)
    requires d <= Dist(x, target)
    requires forall k :: 0 <= k < |s| ==> d <= Dist(s[k], target)
    ensures forall k :: 0 <= k < |s| + 1 ==> d <= Dist(InsertByDist(x, s, target)[k], target)
    decreases |s|
  {
    if s != [] && Dist(x, target) > Dist(s[0], target) {
      InsertByDistBounded(x, s[1..], target, d);
    }
  }

  /** The result is ordered by distance. */
  lemma {:induction false} SortByDistSorted(s: seq<real>, target: real)
    ensures ByDistance(SortByDist(s, target), target)
    decreases |s|
  {
    if s != [] {
      SortByDistSorted(s[1..], target);
      InsertByDistSorted(s[0], SortByDist(s[1..], target), target);
    }
  }

  lemma {:induction false} InsertByDistThenSize(x: real, s: seq<real>, target: real)
    requires ByDistanceThenSize(s, target)
    requires forall k :: 0 <= k < |s| ==> x <= s[k]
    ensures ByDistanceThenSize(InsertByDist(x, s, target), target)
    decreases |s|
  {
    var r := InsertByDist(x, s, target);
    if s == [] {
    } else if Dist(x, target) <= Dist(s[0], target) {
      assert r == [x] + s;
      forall j | 0 < j < |r| ensures Before(x, r[j], target) {
        assert r[j] == s[j - 1];
        assert Before(s[0], s[j - 1], target) || j == 1;
      }
    } else {
      InsertByDistThenSize(x, s[1..], target);
      var t := InsertByDist(x, s[1..], target);
      assert r == [s[0]] + t;
      InsertByDistAfter(x, s[1..], target, s[0]);
    }
  }

  /** Inserting keeps every element after a common predecessor. */
  lemma {:induction false} InsertByDistAfter(x: real, s: seq<real>, target: real, a: real)
    requires Before(a, x, target)
    requires forall k :: 0 <= k < |s| ==> Before(a, s[k], target)
    ensures forall k :: 0 <= k < |s| + 1 ==> Before(a, InsertByDist(x, s, target)[k], target)
    decreases |s|
  {
    if s != [] && Dist(x, target) > Dist(s[0], target) {
      InsertByDistAfter(x, s[1..], target, a);
    }
  }

  /** Inserting by distance keeps every element above a common lower bound. */
  lemma {:induction false} InsertByDistAbove(x: real, s: seq<real>, target: real, lo: real)
    requires lo <= x
    requires forall k :: 0 <= k < |s| ==> lo <= s[k]
    ensures forall k :: 0 <= k < |s| + 1 ==> lo <= InsertByDist(x, s, target)[k]
    decreases |s|
  {
    if s != [] && Dist(x, target) > Dist(s[0], target) {
      InsertByDistAbove(x, s[1..], target, lo);
    }
  }

  /** Sorting by distance keeps every element above a common lower bound. */
  lemma {:induction false} SortByDistAbove(s: seq<real>, target: real, lo: real)
    requires forall k :: 0 <= k < |s| ==> lo <= s[k]
    ensures forall k :: 0 <= k < |s| ==> lo <= SortByDist(s, target)[k]
    decreases |s|
  {
    if s != [] {
      SortByDistAbove(s[1..], target, lo);
      InsertByDistAbove(s[0], SortByDist(s[1..], target), target, lo);
    }
  }

  /** Starting from ascending sizes, the stable sort breaks distance ties
    * toward the smaller size. */
  lemma {:induction false} SortByDistThenSize(s: seq<real>, target: real)
    requires Ascending(s)
    ensures ByDistanceThenSize(SortByDist(s, target), target)
    decreases |s|
  {
    if s != [] {
      SortByDistThenSize(s[1..], target);
      var t := SortByDist(s[1..], target);
      SortByDistAbove(s[1..], target, s[0]);
      InsertByDistThenSize(s[0], t, target);
    }
  }
}
