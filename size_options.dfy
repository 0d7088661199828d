/**
 * `buildOptionsAround(sizes, targetKW)` of the installation form
 * (src/app.jsx): the small/medium/large system sizes offered around the
 * size nearest the target. M is the nearest catalog size, S the next smaller
 * and L the next larger one; when one side is missing the list is filled up
 * from the catalog, so it holds three distinct sizes whenever the catalog
 * has three.
 */
module SizeOptions {
  import opened Wrappers
  import opened JsNumbers
  import opened Sorting

  predicate Distinct(s: seq<real>) {
    forall i, j :: 0 <= i < j < |s| ==> s[i] != s[j]
  }

  /** The sizes of a list, as a set. */
  function Elements(s: seq<real>): set<real> {
    set x | x in s
  }

  /** `arr.filter(v => v < m)` */
  function Below(s: seq<real>, m: real): (r: seq<real>)
    ensures forall x :: x in r <==> x in s && x < m
  {
    if s == [] then []
    else if s[0] < m then [s[0]] + Below(s[1..], m)
    else Below(s[1..], m)
  }

  /** `arr.filter(v => v > m)` */
  function Above(s: seq<real>, m: real): (r: seq<real>)
    ensures forall x :: x in r <==> x in s && x > m
  {
    if s == [] then []
    else if s[0] > m then [s[0]] + Above(s[1..], m)
    else Above(s[1..], m)
  }

  /** Filtering keeps the ascending order. */
  lemma {:induction false} BelowAscending(s: seq<real>, m: real)
    requires Ascending(s)
    ensures Ascending(Below(s, m))
    decreases |s|
  {
    if s != [] {
      BelowAscending(s[1..], m);
      if s[0] < m {
        var t := Below(s[1..], m);
        forall k | 0 <= k < |t| ensures s[0] <= t[k] {
          assert t[k] in s[1..];
        }
        assert forall i :: 1 <= i < |[s[0]] + t| ==> ([s[0]] + t)[i] == t[i - 1];
      }
    }
  }

  lemma {:induction false} AboveAscending(s: seq<real>, m: real)
    requires Ascending(s)
    ensures Ascending(Above(s, m))
    decreases |s|
  {
    if s != [] {
      AboveAscending(s[1..], m);
      if s[0] > m {
        var t := Above(s[1..], m);
        forall k | 0 <= k < |t| ensures s[0] <= t[k] {
          assert t[k] in s[1..];
        }
        assert forall i :: 1 <= i < |[s[0]] + t| ==> ([s[0]] + t)[i] == t[i - 1];
      }
    }
  }

  /** `[S, M, L].filter((v, i, a) => a.indexOf(v) === i)`: the first
    * occurrence of each value, in order. */
  function DedupeFrom(seen: seq<real>, s: seq<real>): (r: seq<real>)
    requires Distinct(seen)
    ensures Distinct(r)
    ensures Elements(r) == Elements(seen) + Elements(s)
    ensures |seen| <= |r| <= |seen| + |s|
    ensures r[..|seen|] == seen
    decreases |s|
  {
    if s == [] then seen
    else if s[0] in seen then
      assert Elements(s) == {s[0]} + Elements(s[1..]);
      DedupeFrom(seen, s[1..])
    else
      assert Elements(s) == {s[0]} + Elements(s[1..]);
      assert Elements(seen + [s[0]]) == Elements(seen) + {s[0]};
      var r := DedupeFrom(seen + [s[0]], s[1..]);
      assert r[..|seen|] == r[..|seen| + 1][..|seen|];
      r
  }

  /** The de-duplicated `[S, M, L]`. */
  function Dedupe3(s: real, m: real, l: real): (r: seq<real>)
    ensures Distinct(r) && 1 <= |r| <= 3
    ensures Elements(r) == {s, m, l}
  {
    assert Elements([s, m, l]) == {s, m, l};
    DedupeFrom([], [s, m, l])
  }

  lemma {:induction false} DistinctCard(s: seq<real>)
    requires Distinct(s)
    ensures |Elements(s)| == |s|
    decreases |s|
  {
    if s != [] {
      var t := s[..|s| - 1];
      assert s == t + [s[|s| - 1]];
      assert Elements(s) == Elements(t) + {s[|s| - 1]};
      assert s[|s| - 1] !in Elements(t);
      DistinctCard(t);
    }
  }

  lemma SubsetCard(a: set<real>, b: set<real>)
    requires a <= b
    ensures |a| <= |b|
  {
    assert b == a + (b - a);
    assert a * (b - a) == {};
  }

  lemma {:induction false} MultiplicityOfRepeat(r: seq<real>, i: nat, j: nat)
    requires i < j < |r| && r[i] == r[j]
    ensures multiset(r)[r[i]] >= 2
  {
    assert r == r[..j] + [r[j]] + r[j + 1..];
    assert r[i] in r[..j];
    assert multiset(r)[r[i]] == multiset(r[..j])[r[i]] + 1 + multiset(r[j + 1..])[r[i]];
  }

  lemma {:induction false} DistinctMultiplicity(s: seq<real>, x: real)
    requires Distinct(s)
    ensures multiset(s)[x] <= 1
    decreases |s|
  {
    if s != [] {
      assert s == [s[0]] + s[1..];
      assert Distinct(s[1..]);
      DistinctMultiplicity(s[1..], x);
      if x == s[0] {
        assert x !in s[1..];
      }
    }
  }

  /** Sorting a duplicate-free list gives a strictly ascending one. */
  lemma SortedDistinct(s: seq<real>)
    requires Distinct(s)
    ensures StrictlyAscending(SortAsc(s))
  {
    var r := SortAsc(s);
    forall i, j | 0 <= i < j < |r| ensures r[i] < r[j] {
      if r[i] == r[j] {
        MultiplicityOfRepeat(r, i, j);
        DistinctMultiplicity(s, r[i]);
        assert false;
      }
    }
  }

  /** The index the nearest-size scan stops at: the first index of minimal
    * distance. */
  predicate FirstNearest(arr: seq<real>, idx: nat, target: real) {
    && idx < |arr|
    && (forall k :: 0 <= k < |arr| ==> Dist(arr[idx], target) <= Dist(arr[k], target))
    && (forall k :: 0 <= k < idx ==> Dist(arr[idx], target) < Dist(arr[k], target))
  }

  /** The scan `for (i…) if (d < best) { best = d; idx = i; }` starting from
    * `best = Infinity`, which is `None` here. */
  method NearestIndex(arr: seq<real>, target: real) returns (idx: nat)
    requires |arr| > 0
    ensures FirstNearest(arr, idx, target)
  {
    idx := 0;
    var best: Option<real> := None;
    for i := 0 to |arr|
      invariant idx < |arr| && idx <= i
      invariant i == 0 <==> best.None?
      invariant i > 0 ==> idx < i && best == Some(Dist(arr[idx], target))
      invariant forall k :: 0 <= k < i ==> Dist(arr[idx], target) <= Dist(arr[k], target)
      invariant forall k :: 0 <= k < idx ==> Dist(arr[idx], target) < Dist(arr[k], target)
    {
      var d := Dist(arr[i], target);
      if best.None? || d < best.value {
        best := Some(d);
        idx := i;
      }
    }
  }

  /** `S`: the largest size below M, else `arr[idx + 1] ?? M`. */
  function SmallPick(arr: seq<real>, idx: nat): (s: real)
    requires Ascending(arr) && idx < |arr|
    ensures s in arr
    ensures forall v :: v in arr && v < arr[idx] ==> v <= s < arr[idx]
  {
    var smaller := Below(arr, arr[idx]);
    BelowAscending(arr, arr[idx]);
    if |smaller| > 0 then
      assert forall v :: v in arr && v < arr[idx] ==> v <= smaller[|smaller| - 1] by {
        forall v | v in arr && v < arr[idx] ensures v <= smaller[|smaller| - 1] {
          var k :| 0 <= k < |smaller| && smaller[k] == v;
        }
      }
      smaller[|smaller| - 1]
    else if idx + 1 < |arr| then arr[idx + 1]
    else arr[idx]
  }

  /** `L`: the smallest size above M, else `arr[idx - 1] ?? M`. */
  function LargePick(arr: seq<real>, idx: nat): (l: real)
    requires Ascending(arr) && idx < |arr|
    ensures l in arr
    ensures forall v :: v in arr && v > arr[idx] ==> arr[idx] < l <= v
  {
    var larger := Above(arr, arr[idx]);
    AboveAscending(arr, arr[idx]);
    if |larger| > 0 then
      assert forall v :: v in arr && v > arr[idx] ==> larger[0] <= v by {
        forall v | v in arr && v > arr[idx] ensures larger[0] <= v {
          var k :| 0 <= k < |larger| && larger[k] == v;
        }
      }
      larger[0]
    else if idx >= 1 then arr[idx - 1]
    else arr[idx]
  }

  /** The sizes of `arr` that `seen` lacks, each once, in the order they
    * first come. */
  function NewInOrder(arr: seq<real>, seen: seq<real>): seq<real>
    decreases |arr|
  {
    if arr == [] then []
    else if arr[0] in seen then NewInOrder(arr[1..], seen)
    else [arr[0]] + NewInOrder(arr[1..], seen + [arr[0]])
  }

  /** The new sizes are exactly the sizes of `arr` not in `seen`, each once. */
  lemma {:induction false} NewInOrderMembers(arr: seq<real>, seen: seq<real>)
    ensures Distinct(NewInOrder(arr, seen))
    ensures forall x :: x in NewInOrder(arr, seen) <==> x in arr && x !in seen
    decreases |arr|
  {
    if arr != [] {
      if arr[0] in seen {
        NewInOrderMembers(arr[1..], seen);
      } else {
        NewInOrderMembers(arr[1..], seen + [arr[0]]);
        ConsNew(arr[0], NewInOrder(arr[1..], seen + [arr[0]]));
      }
      assert forall x :: x in arr <==> x == arr[0] || x in arr[1..];
    }
  }

  lemma ConsNew(x: real, r: seq<real>)
    requires Distinct(r) && x !in r
    ensures Distinct([x] + r)
  {
    forall i, j | 0 <= i < j < |[x] + r| ensures ([x] + r)[i] != ([x] + r)[j] {
      assert ([x] + r)[j] == r[j - 1];
    }
  }

  /** Scanning `a + b` finds the new sizes of `a`, then those of `b` that
    * neither `seen` nor `a` had. */
  lemma {:induction false} NewInOrderAppend(a: seq<real>, b: seq<real>, seen: seq<real>)
    ensures NewInOrder(a + b, seen) == NewInOrder(a, seen) + NewInOrder(b, seen + NewInOrder(a, seen))
    decreases |a|
  {
    if a == [] {
      assert a + b == b && seen + [] == seen;
    } else {
      assert (a + b)[0] == a[0] && (a + b)[1..] == a[1..] + b;
      if a[0] in seen {
        NewInOrderAppend(a[1..], b, seen);
      } else {
        NewInOrderAppend(a[1..], b, seen + [a[0]]);
        assert seen + [a[0]] + NewInOrder(a[1..], seen + [a[0]]) == seen + NewInOrder(a, seen);
      }
    }
  }

  /** At most the first `n` elements of `s`. */
  function Take(s: seq<real>, n: int): seq<real> {
    if n <= 0 then [] else if |s| <= n then s else s[..n]
  }

  /** What the backfill gives: `start` followed by as many of the new
    * catalog sizes, in catalog order, as fit in three. */
  function Backfilled(arr: seq<real>, start: seq<real>): seq<real> {
    start + Take(NewInOrder(arr, start), 3 - |start|)
  }

  /** `if (options.length < 3) for (const v of arr) { … push … break }` */
  method Backfill(arr: seq<real>, start: seq<real>) returns (options: seq<real>)
    requires Distinct(start) && |start| <= 3 && Elements(start) <= Elements(arr)
    ensures options == Backfilled(arr, start)
    ensures Distinct(options) && |options| <= 3
    ensures Elements(start) <= Elements(options) <= Elements(arr)
    ensures |start| == 3 ==> options == start
    ensures |options| == 3 || Elements(options) == Elements(arr)
  {
    options := start;
    if |options| < 3 {
      var j := 0;
      while j < |arr|
        invariant 0 <= j <= |arr|
        invariant Distinct(options) && |options| < 3
        invariant Elements(start) <= Elements(options) <= Elements(arr)
        invariant forall k :: 0 <= k < j ==> arr[k] in options
        invariant options == start + NewInOrder(arr[..j], start)
      {
        BackfillStep(arr, start, j);
        if arr[j] !in options {
          AppendNew(options, arr[j]);
          options := options + [arr[j]];
        }
        if |options| == 3 {
          BackfillStop(arr, start, j + 1);
          return;
        }
        j := j + 1;
      }
      assert arr[..j] == arr;
      assert Take(NewInOrder(arr, start), 3 - |start|) == NewInOrder(arr, start);
      assert Elements(options) == Elements(arr) by {
        forall x | x in Elements(arr) ensures x in Elements(options) {
          var k :| 0 <= k < |arr| && arr[k] == x;
        }
      }
    }
  }

  /** One more catalog size scanned: it is added exactly when it is new. */
  lemma BackfillStep(arr: seq<real>, start: seq<real>, j: nat)
    requires j < |arr|
    ensures var options := start + NewInOrder(arr[..j], start);
            start + NewInOrder(arr[..j + 1], start)
            == options + (if arr[j] in options then [] else [arr[j]])
  {
    assert arr[..j + 1] == arr[..j] + [arr[j]];
    NewInOrderAppend(arr[..j], [arr[j]], start);
    var options := start + NewInOrder(arr[..j], start);
    assert [arr[j]][1..] == [];
    assert NewInOrder([arr[j]], options) == if arr[j] in options then [] else [arr[j]];
  }

  /** Stopping at three after scanning a prefix gives the backfill of the
    * whole catalog. */
  lemma BackfillStop(arr: seq<real>, start: seq<real>, j: nat)
    requires j <= |arr| && |start + NewInOrder(arr[..j], start)| == 3
    ensures start + NewInOrder(arr[..j], start) == Backfilled(arr, start)
  {
    assert arr == arr[..j] + arr[j..];
    NewInOrderAppend(arr[..j], arr[j..], start);
  }

  lemma AppendNew(s: seq<real>, x: real)
    requires Distinct(s) && x !in s
    ensures Distinct(s + [x])
    ensures Elements(s + [x]) == Elements(s) + {x}
  {
  }

  /** The count of offered sizes: three, or every distinct size when the
    * catalog has fewer. */
  lemma OptionCount(options: seq<real>, arr: seq<real>)
    requires Distinct(options) && |options| <= 3 && Elements(options) <= Elements(arr)
    requires |options| == 3 || Elements(options) == Elements(arr)
    ensures |options| == if |Elements(arr)| < 3 then |Elements(arr)| else 3
  {
    DistinctCard(options);
    SubsetCard(Elements(options), Elements(arr));
  }

  /** Sorting the collected sizes keeps them and makes them strictly
    * ascending. */
  lemma SortedOptions(s: seq<real>)
    requires Distinct(s)
    ensures StrictlyAscending(SortAsc(s))
    ensures Elements(SortAsc(s)) == Elements(s) && |SortAsc(s)| == |s|
  {
    SortedDistinct(s);
    SameElements(s, SortAsc(s));
    assert |multiset(SortAsc(s))| == |multiset(s)|;
  }

  lemma SameElements(s: seq<real>, r: seq<real>)
    requires multiset(r) == multiset(s)
    ensures Elements(r) == Elements(s)
    ensures forall x :: x in r <==> x in s
  {
    forall x ensures x in r <==> x in s {
      assert x in r <==> x in multiset(r);
      assert x in s <==> x in multiset(s);
    }
  }

  /** The neighbours S and L, found among the sizes, are the nearest sizes
    * on each side of M; anything offered that contains them keeps them. */
  lemma Neighbours(sizes: seq<real>, arr: seq<real>, idx: nat, options: seq<real>)
    requires Ascending(arr) && idx < |arr| && Elements(arr) == Elements(sizes)
    requires SmallPick(arr, idx) in options && LargePick(arr, idx) in options
    ensures forall v :: v in sizes && v < arr[idx] ==> exists w :: w in options && v <= w < arr[idx]
    ensures forall v :: v in sizes && v > arr[idx] ==> exists w :: w in options && arr[idx] < w <= v
  {
    var s, l := SmallPick(arr, idx), LargePick(arr, idx);
    forall v | v in sizes && v < arr[idx] ensures exists w :: w in options && v <= w < arr[idx] {
      assert v in Elements(sizes);
      assert v in arr;
    }
    forall v | v in sizes && v > arr[idx] ensures exists w :: w in options && arr[idx] < w <= v {
      assert v in Elements(sizes);
      assert v in arr;
    }
  }

  /** The nearest size is M, and equally near sizes are not smaller. */
  lemma NearestIsMid(sizes: seq<real>, arr: seq<real>, idx: nat, target: real)
    requires Ascending(arr) && FirstNearest(arr, idx, target)
    requires forall x :: x in arr <==> x in sizes
    ensures forall v :: v in sizes ==> Dist(arr[idx], target) <= Dist(v, target)
    ensures forall v :: v in sizes && Dist(v, target) == Dist(arr[idx], target) ==> arr[idx] <= v
  {
    forall v | v in sizes ensures Dist(arr[idx], target) <= Dist(v, target)
      && (Dist(v, target) == Dist(arr[idx], target) ==> arr[idx] <= v) {
      var k :| 0 <= k < |arr| && arr[k] == v;
      if Dist(v, target) == Dist(arr[idx], target) {
        assert k >= idx;
      }
    }
  }

  /** Only one index is the first of minimal distance. */
  lemma FirstNearestUnique(arr: seq<real>, i: nat, j: nat, target: real)
    requires FirstNearest(arr, i, target) && FirstNearest(arr, j, target)
    ensures i == j
  {
    NotBefore(arr, i, j, target);
    NotBefore(arr, j, i, target);
  }

  lemma NotBefore(arr: seq<real>, i: nat, j: nat, target: real)
    requires FirstNearest(arr, i, target) && FirstNearest(arr, j, target)
    ensures !(i < j)
  {
    assert Dist(arr[i], target) <= Dist(arr[j], target);
  }

  /** The options offered around the size at `idx` of the sorted catalog:
    * S, M and L without repeats, filled up in catalog order, sorted. */
  function Around(arr: seq<real>, idx: nat): seq<real>
    requires Ascending(arr) && idx < |arr|
  {
    SortAsc(Backfilled(arr, Dedupe3(SmallPick(arr, idx), arr[idx], LargePick(arr, idx))))
  }

  /** Sizes 1, 2, 3, 4 and 10 kW around a 10 kW target: M is 10 and, with
    * nothing larger, L falls back to the size before it, 4, which S is too;
    * the one free place goes to the first catalog size, 1. */
  lemma AroundExample()
    ensures Around([1.0, 2.0, 3.0, 4.0, 10.0], 4) == [1.0, 4.0, 10.0]
  {
    var arr := [1.0, 2.0, 3.0, 4.0, 10.0];
    PicksExample();
    DedupeExample();
    BackfillExample();
    SortExample();
  }

  lemma PicksExample()
    ensures SmallPick([1.0, 2.0, 3.0, 4.0, 10.0], 4) == 4.0
    ensures LargePick([1.0, 2.0, 3.0, 4.0, 10.0], 4) == 4.0
  {
    var arr := [1.0, 2.0, 3.0, 4.0, 10.0];
    assert 4.0 in arr && 4.0 < arr[4];
    NoneAbove(arr, 10.0);
  }

  lemma {:induction false} NoneAbove(s: seq<real>, m: real)
    requires forall x :: x in s ==> x <= m
    ensures Above(s, m) == []
    decreases |s|
  {
    if s != [] {
      assert s[0] in s;
      assert forall x :: x in s[1..] ==> x in s;
      NoneAbove(s[1..], m);
    }
  }

  lemma DedupeExample()
    ensures Dedupe3(4.0, 10.0, 4.0) == [4.0, 10.0]
  {
    assert [4.0, 10.0, 4.0][1..] == [10.0, 4.0] && [10.0, 4.0][1..] == [4.0];
    assert DedupeFrom([4.0, 10.0], [4.0]) == [4.0, 10.0];
  }

  lemma BackfillExample()
    ensures Backfilled([1.0, 2.0, 3.0, 4.0, 10.0], [4.0, 10.0]) == [4.0, 10.0, 1.0]
  {
    var arr := [1.0, 2.0, 3.0, 4.0, 10.0];
    assert NewInOrder(arr, [4.0, 10.0]) == [1.0, 2.0, 3.0];
  }

  lemma SortExample()
    ensures SortAsc([4.0, 10.0, 1.0]) == [1.0, 4.0, 10.0]
  {
    assert [1.0][1..] == [];
    assert SortAsc([1.0]) == InsertAsc(1.0, []) == [1.0];
    assert [10.0, 1.0][1..] == [1.0];
    assert InsertAsc(10.0, [1.0]) == [1.0] + InsertAsc(10.0, []) == [1.0, 10.0];
    assert SortAsc([10.0, 1.0]) == [1.0, 10.0];
    assert [4.0, 10.0, 1.0][1..] == [10.0, 1.0];
    assert [1.0, 10.0][1..] == [10.0];
    assert InsertAsc(4.0, [1.0, 10.0]) == [1.0] + InsertAsc(4.0, [10.0]) == [1.0, 4.0, 10.0];
  }

  /** `buildOptionsAround(sizes, targetKW)`: the offered sizes and the
    * nearest one. */
  method BuildOptionsAround(sizes: seq<real>, target: real) returns (options: seq<real>, mid: real)
    ensures sizes == [] ==> options == [] && mid == 0.0
    ensures sizes != [] ==> mid in sizes && mid in options
    ensures forall v :: v in sizes ==> Dist(mid, target) <= Dist(v, target)
    ensures forall v :: v in sizes && Dist(v, target) == Dist(mid, target) ==> mid <= v
    ensures StrictlyAscending(options)
    ensures forall v :: v in options ==> v in sizes
    ensures |options| == if |Elements(sizes)| < 3 then |Elements(sizes)| else 3
    ensures forall v :: v in sizes && v < mid ==> exists w :: w in options && v <= w < mid
    ensures forall v :: v in sizes && v > mid ==> exists w :: w in options && mid < w <= v
    ensures forall idx: nat :: FirstNearest(SortAsc(sizes), idx, target) ==> options == Around(SortAsc(sizes), idx)
  {
    var arr := SortAsc(sizes);
    SameElements(sizes, arr);
    if |arr| == 0 {
      return [], 0.0;
    }
    var idx := NearestIndex(arr, target);
    mid := arr[idx];
    NearestIsMid(sizes, arr, idx, target);
    var s := SmallPick(arr, idx);
    var l := LargePick(arr, idx);
    var start := Dedupe3(s, mid, l);
    var collected := Backfill(arr, start);
    OptionCount(collected, arr);
    SortedOptions(collected);
    options := SortAsc(collected);
    SameElements(collected, options);
    assert s in options && l in options && mid in options;
    Neighbours(sizes, arr, idx, options);
    ElementsMembers(options, sizes);
    forall i: nat | FirstNearest(arr, i, target) ensures options == Around(arr, i) {
      FirstNearestUnique(arr, i, idx, target);
    }
  }

  lemma ElementsMembers(a: seq<real>, b: seq<real>)
    requires Elements(a) <= Elements(b)
    ensures forall v :: v in a ==> v in b
  {
    forall v | v in a ensures v in b {
      assert v in Elements(a);
    }
  }
}
