/**
 * List operations that the Python code gets from the language: slicing with a possibly
 * negative bound, filtering, de-duplication (Cypher `DISTINCT`) and the stable
 * descending `list.sort(key=..., reverse=True)`.
 */
module Seqs {

  /** Python `s[:k]`: a negative `k` counts from the end. */
  function PyTake<T>(s: seq<T>, k: int): (r: seq<T>)
    ensures k >= 0 ==> |r| == if k < |s| then k else |s|
    ensures k < 0 ==> |r| == if |s| + k > 0 then |s| + k else 0
    ensures r <= s
  {
    if k >= 0 then (if k <= |s| then s[..k] else s)
    else if |s| + k >= 0 then s[..|s| + k]
    else []
  }

  /** The elements of `s` that satisfy `p`, in order. */
  function Filter<T(!new)>(s: seq<T>, p: T -> bool): (r: seq<T>)
    ensures |r| <= |s|
    ensures forall x :: x in r <==> x in s && p(x)
  {
    if s == [] then [] else (if p(s[0]) then [s[0]] else []) + Filter(s[1..], p)
  }

  lemma {:induction false} FilterAppend<T(!new)>(a: seq<T>, b: seq<T>, p: T -> bool)
    ensures Filter(a + b, p) == Filter(a, p) + Filter(b, p)
  {
    if a == [] {
      assert a + b == b;
    } else {
      assert (a + b)[1..] == a[1..] + b;
      FilterAppend(a[1..], b, p);
    }
  }

  /** The first occurrence of every element, in order (Cypher `COLLECT(DISTINCT ...)`). */
  function Distinct<T(==,!new)>(s: seq<T>): (r: seq<T>)
    ensures forall x :: x in r <==> x in s
    ensures forall i, j :: 0 <= i < j < |r| ==> r[i] != r[j]
    ensures |r| <= |s|
  {
    if s == [] then []
    else
      var rest := Distinct(s[..|s| - 1]);
      if s[|s| - 1] in rest then rest else rest + [s[|s| - 1]]
  }

  /** Concatenation of a list of lists. */
  function Flatten<T(!new)>(ss: seq<seq<T>>): (r: seq<T>)
    ensures forall x :: x in r <==> exists i :: 0 <= i < |ss| && x in ss[i]
  {
    if ss == [] then []
    else
      var r := Flatten(ss[..|ss| - 1]) + ss[|ss| - 1];
      assert forall x :: x in r <==> exists i :: 0 <= i < |ss| && x in ss[i] by {
        forall x | x in r ensures exists i :: 0 <= i < |ss| && x in ss[i] {
          if x !in ss[|ss| - 1] {
            var i :| 0 <= i < |ss| - 1 && x in ss[..|ss| - 1][i];
            assert x in ss[i];
          }
        }
        forall x | exists i :: 0 <= i < |ss| && x in ss[i] ensures x in r {
          var i :| 0 <= i < |ss| && x in ss[i];
          if i < |ss| - 1 { assert x in ss[..|ss| - 1][i]; }
        }
      }
      r
  }

  // ---------------------------------------------------------------------------
  // Stable sort by a real-valued key, largest first.
  // ---------------------------------------------------------------------------

  predicate SortedDesc<T>(s: seq<T>, key: T -> real)
  {
    forall i, j :: 0 <= i < j < |s| ==> key(s[i]) >= key(s[j])
  }

  /** The elements of `s` whose key is `k`, in order: what stability preserves. */
  function WithKey<T>(s: seq<T>, key: T -> real, k: real): (r: seq<T>)
    ensures |r| <= |s|
  {
    if s == [] then [] else (if key(s[0]) == k then [s[0]] else []) + WithKey(s[1..], key, k)
  }

  /** Puts `x` in front of the first element whose key is not larger than its own. */
  function InsertDesc<T>(x: T, t: seq<T>, key: T -> real): (r: seq<T>)
    ensures |r| == |t| + 1
  {
    if t == [] then [x]
    else if key(t[0]) <= key(x) then [x] + t
    else [t[0]] + InsertDesc(x, t[1..], key)
  }

  /** `sorted(s, key=key, reverse=True)`: Python's sort is stable also in reverse. */
  function SortDesc<T>(s: seq<T>, key: T -> real): (r: seq<T>)
    ensures |r| == |s|
  {
    if s == [] then [] else InsertDesc(s[0], SortDesc(s[1..], key), key)
  }

  lemma {:induction false} InsertDescBound<T>(x: T, t: seq<T>, key: T -> real, b: real)
    requires key(x) <= b && forall j :: 0 <= j < |t| ==> key(t[j]) <= b
    ensures forall j :: 0 <= j < |t| + 1 ==> key(InsertDesc(x, t, key)[j]) <= b
  {
    if t != [] && key(t[0]) > key(x) {
      InsertDescBound(x, t[1..], key, b);
    }
  }

  /** An element no smaller than every element of a sorted list can go in front of it. */
  lemma ConsSorted<T>(a: T, m: seq<T>, key: T -> real)
    requires SortedDesc(m, key) && forall j :: 0 <= j < |m| ==> key(m[j]) <= key(a)
    ensures SortedDesc([a] + m, key)
  {
    var r := [a] + m;
    forall i, j | 0 <= i < j < |r| ensures key(r[i]) >= key(r[j]) {
      assert r[j] == m[j - 1];
      if i > 0 {
        assert r[i] == m[i - 1];
      }
    }
  }

  lemma {:induction false} InsertDescSorted<T>(x: T, t: seq<T>, key: T -> real)
    requires SortedDesc(t, key)
    ensures SortedDesc(InsertDesc(x, t, key), key)
  {
    if t == [] {
      ConsSorted(x, t, key);
    } else if key(t[0]) <= key(x) {
      forall j | 0 <= j < |t| ensures key(t[j]) <= key(x) {
        if j > 0 {
          assert key(t[0]) >= key(t[j]);
        }
      }
      ConsSorted(x, t, key);
    } else {
      var tail := t[1..];
      assert SortedDesc(tail, key) by {
        forall i, j | 0 <= i < j < |tail| ensures key(tail[i]) >= key(tail[j]) {
          assert tail[i] == t[i + 1] && tail[j] == t[j + 1];
        }
      }
      forall j | 0 <= j < |tail| ensures key(tail[j]) <= key(t[0]) {
        assert tail[j] == t[j + 1];
      }
      InsertDescSorted(x, tail, key);
      InsertDescBound(x, tail, key, key(t[0]));
      ConsSorted(t[0], InsertDesc(x, tail, key), key);
    }
  }

  lemma {:induction false} InsertDescPermutes<T>(x: T, t: seq<T>, key: T -> real)
    ensures multiset(InsertDesc(x, t, key)) == multiset{x} + multiset(t)
  {
    if t != [] && key(t[0]) > key(x) {
      InsertDescPermutes(x, t[1..], key);
      assert t == [t[0]] + t[1..];
    }
  }

  lemma InsertDescFacts<T>(x: T, t: seq<T>, key: T -> real)
    requires SortedDesc(t, key)
    ensures SortedDesc(InsertDesc(x, t, key), key)
    ensures multiset(InsertDesc(x, t, key)) == multiset{x} + multiset(t)
  {
    InsertDescSorted(x, t, key);
    InsertDescPermutes(x, t, key);
  }

  lemma WithKeyCons<T>(a: T, s: seq<T>, key: T -> real, k: real)
    ensures WithKey([a] + s, key, k) == (if key(a) == k then [a] else []) + WithKey(s, key, k)
  {
    assert ([a] + s)[1..] == s;
  }

  lemma {:induction false} InsertDescWithKey<T>(x: T, t: seq<T>, key: T -> real, k: real)
    ensures WithKey(InsertDesc(x, t, key), key, k)
         == (if key(x) == k then [x] else []) + WithKey(t, key, k)
  {
    if t == [] {
      WithKeyCons(x, t, key, k);
    } else if key(t[0]) <= key(x) {
      WithKeyCons(x, t, key, k);
    } else {
      var rest := InsertDesc(x, t[1..], key);
      InsertDescWithKey(x, t[1..], key, k);
      WithKeyCons(t[0], rest, key, k);
      WithKeyCons(t[0], t[1..], key, k);
      assert t == [t[0]] + t[1..];
      if key(x) == k {
        assert key(t[0]) != k;
      }
    }
  }

  /** The result is ordered, is a permutation, and keeps equal keys in input order. */
  lemma {:induction false} SortDescFacts<T>(s: seq<T>, key: T -> real)
    ensures SortedDesc(SortDesc(s, key), key)
    ensures multiset(SortDesc(s, key)) == multiset(s)
    ensures forall k :: WithKey(SortDesc(s, key), key, k) == WithKey(s, key, k)
  {
    if s != [] {
      SortDescFacts(s[1..], key);
      InsertDescFacts(s[0], SortDesc(s[1..], key), key);
      assert s == [s[0]] + s[1..];
      forall k ensures WithKey(SortDesc(s, key), key, k) == WithKey(s, key, k) {
        InsertDescWithKey(s[0], SortDesc(s[1..], key), key, k);
      }
    }
  }

  /** The part of `a + (b + c)` after `a` and `b` is `c`. */
  lemma DropFront<T>(a: seq<T>, b: seq<T>, c: seq<T>)
    ensures (a + (b + c))[|a| + |b|..] == c
  {
    assert (a + (b + c))[|a|..] == b + c;
  }
}
