/** The array built-ins the store is written with, as functions on sequences:
    `find`, `findIndex`, `filter`, `Math.max(...)` and a stable `sort` by a
    numeric key, newest (largest key) first.
 */
module Sequences {
  import opened Values

  /** `findIndex`: the first index whose element satisfies `p`, or -1. */
  function FindIndex<T>(s: seq<T>, p: T -> bool): (i: int)
    ensures -1 <= i < |s|
    ensures i == -1 <==> forall k :: 0 <= k < |s| ==> !p(s[k])
    ensures 0 <= i ==> p(s[i]) && forall k :: 0 <= k < i ==> !p(s[k])
    decreases |s|
  {
    if |s| == 0 then -1
    else if p(s[0]) then 0
    else
      var j := FindIndex(s[1..], p);
      if j == -1 then -1 else j + 1
  }

  /** `find`: the first element that satisfies `p`, or nothing. */
  function Find<T>(s: seq<T>, p: T -> bool): (r: Option<T>)
    ensures r.None? <==> forall k :: 0 <= k < |s| ==> !p(s[k])
    ensures r.Some? ==> r.value in s && p(r.value)
    ensures r.Some? ==> exists i :: 0 <= i < |s| && s[i] == r.value && forall k :: 0 <= k < i ==> !p(s[k])
  {
    var i := FindIndex(s, p);
    if i == -1 then None else Some(s[i])
  }

  /** `filter`: the elements that satisfy `p`, in their original order. */
  function Filter<T>(s: seq<T>, p: T -> bool): (r: seq<T>)
    ensures |r| <= |s|
    ensures forall k :: 0 <= k < |r| ==> r[k] in s && p(r[k])
    ensures forall k :: 0 <= k < |s| && p(s[k]) ==> s[k] in r
    ensures |r| == |s| <==> forall k :: 0 <= k < |s| ==> p(s[k])
    decreases |s|
  {
    if |s| == 0 then []
    else if p(s[0]) then [s[0]] + Filter(s[1..], p)
    else Filter(s[1..], p)
  }

  /** Filtering a concatenation filters each part, so the order of the kept
      elements is their order in the input. */
  lemma {:induction false} FilterConcat<T>(a: seq<T>, b: seq<T>, p: T -> bool)
    ensures Filter(a + b, p) == Filter(a, p) + Filter(b, p)
    decreases |a|
  {
    if |a| == 0 {
      assert a + b == b;
    } else {
      assert (a + b)[0] == a[0];
      assert (a + b)[1..] == a[1..] + b;
      FilterConcat(a[1..], b, p);
      if p(a[0]) {
        calc {
          Filter(a + b, p);
          [a[0]] + Filter(a[1..] + b, p);
          [a[0]] + (Filter(a[1..], p) + Filter(b, p));
          ([a[0]] + Filter(a[1..], p)) + Filter(b, p);
        }
      }
    }
  }

  /** Filtering out a single rejected element among accepted ones removes
      exactly that element and keeps the rest in order. */
  lemma FilterRemovesOne<T>(a: seq<T>, x: T, b: seq<T>, p: T -> bool)
    requires !p(x)
    requires forall k :: 0 <= k < |a| ==> p(a[k])
    requires forall k :: 0 <= k < |b| ==> p(b[k])
    ensures Filter(a + [x] + b, p) == a + b
  {
    FilterConcat(a + [x], b, p);
    FilterConcat(a, [x], p);
    assert [x][1..] == [];
    assert Filter([x], p) == [];
    FilterAll(a, p);
    FilterAll(b, p);
    assert Filter(a + [x], p) == a;
  }

  /** A sequence whose every element is accepted filters to itself. */
  lemma {:induction false} FilterAll<T>(s: seq<T>, p: T -> bool)
    requires forall k :: 0 <= k < |s| ==> p(s[k])
    ensures Filter(s, p) == s
    decreases |s|
  {
    if |s| > 0 {
      FilterAll(s[1..], p);
    }
  }

  /** What holds of every element holds of every kept element. */
  lemma {:induction false} FilterKeepsAll<T>(s: seq<T>, p: T -> bool, q: T -> bool)
    requires forall k :: 0 <= k < |s| ==> q(s[k])
    ensures forall k :: 0 <= k < |Filter(s, p)| ==> q(Filter(s, p)[k])
    decreases |s|
  {
    if |s| > 0 {
      FilterKeepsAll(s[1..], p, q);
      if p(s[0]) {
        var r := [s[0]] + Filter(s[1..], p);
        forall k | 0 < k < |r| ensures q(r[k]) {
          assert r[k] == Filter(s[1..], p)[k - 1];
        }
      }
    }
  }

  /** `Math.max(...s)` for a non-empty list of integers. */
  function MaxOf(s: seq<int>): (m: int)
    requires |s| > 0
    ensures m in s
    ensures forall k :: 0 <= k < |s| ==> s[k] <= m
    decreases |s|
  {
    if |s| == 1 then s[0]
    else
      var rest := MaxOf(s[1..]);
      if s[0] >= rest then s[0] else rest
  }

  /** Keys never increase from left to right. */
  ghost predicate DescendingBy<T>(s: seq<T>, key: T -> int) {
    forall i, j :: 0 <= i < j < |s| ==> key(s[i]) >= key(s[j])
  }

  /** The elements of `s` whose key is `t`, in order. Stability of a sort is
      stated with it: every group of equal keys keeps its order. */
  function WithKey<T>(s: seq<T>, key: T -> int, t: int): (r: seq<T>)
    ensures forall k :: 0 <= k < |r| ==> r[k] in s && key(r[k]) == t
    decreases |s|
  {
    if |s| == 0 then []
    else if key(s[0]) == t then [s[0]] + WithKey(s[1..], key, t)
    else WithKey(s[1..], key, t)
  }

  /** Puts `x` in front of the first element whose key is not larger. */
  function InsertByKey<T>(x: T, s: seq<T>, key: T -> int): (r: seq<T>)
    ensures |r| == |s| + 1
    decreases |s|
  {
    if |s| == 0 then [x]
    else if key(s[0]) <= key(x) then [x] + s
    else [s[0]] + InsertByKey(x, s[1..], key)
  }

  /** `sort((a, b) => key(b) - key(a))`: largest key first, and, as the
      built-in sort is stable, equal keys in their original order. */
  function SortByKeyDescending<T>(s: seq<T>, key: T -> int): (r: seq<T>)
    ensures |r| == |s|
    decreases |s|
  {
    if |s| == 0 then [] else InsertByKey(s[0], SortByKeyDescending(s[1..], key), key)
  }

  lemma {:induction false} InsertKeepsDescending<T>(x: T, s: seq<T>, key: T -> int)
    requires DescendingBy(s, key)
    ensures DescendingBy(InsertByKey(x, s, key), key)
    ensures multiset(InsertByKey(x, s, key)) == multiset(s) + multiset{x}
    decreases |s|
  {
    if |s| > 0 && key(s[0]) > key(x) {
      InsertKeepsDescending(x, s[1..], key);
      var tail := InsertByKey(x, s[1..], key);
      forall j | 0 < j < |tail| + 1
        ensures key(([s[0]] + tail)[0]) >= key(([s[0]] + tail)[j])
      {
        assert ([s[0]] + tail)[j] == tail[j - 1];
        assert tail[j - 1] in multiset(tail);
      }
      assert s == [s[0]] + s[1..];
    }
  }

  lemma {:induction false} InsertGroups<T>(x: T, s: seq<T>, key: T -> int, t: int)
    ensures WithKey(InsertByKey(x, s, key), key, t)
         == (if key(x) == t then [x] + WithKey(s, key, t) else WithKey(s, key, t))
    decreases |s|
  {
    if |s| > 0 && key(s[0]) > key(x) {
      InsertGroups(x, s[1..], key, t);
      assert ([s[0]] + InsertByKey(x, s[1..], key))[1..] == InsertByKey(x, s[1..], key);
    } else if |s| > 0 {
      assert ([x] + s)[1..] == s;
    }
  }

  /** The sort yields a descending permutation of its input. */
  lemma {:induction false} SortDescendingPermutation<T>(s: seq<T>, key: T -> int)
    ensures DescendingBy(SortByKeyDescending(s, key), key)
    ensures multiset(SortByKeyDescending(s, key)) == multiset(s)
    decreases |s|
  {
    if |s| > 0 {
      SortDescendingPermutation(s[1..], key);
      InsertKeepsDescending(s[0], SortByKeyDescending(s[1..], key), key);
      assert s == [s[0]] + s[1..];
    }
  }

  /** The sort is stable: the elements with any one key come out in the
      order they went in. */
  lemma {:induction false} SortStable<T>(s: seq<T>, key: T -> int, t: int)
    ensures WithKey(SortByKeyDescending(s, key), key, t) == WithKey(s, key, t)
    decreases |s|
  {
    if |s| > 0 {
      SortStable(s[1..], key, t);
      InsertGroups(s[0], SortByKeyDescending(s[1..], key), key, t);
    }
  }
}
