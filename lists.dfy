/**
 * The list operations the agents use: Python's slice `s[:n]`, the ordering of
 * `str` values, and `list.sort(key=..., reverse=True)`, which is stable.
 */
module Lists {

  /**
   * Python's `s[:n]`. A non-negative `n` keeps the first `n` elements (all of
   * them when `n` is past the end); a negative `n` drops the last `-n`.
   */
  function Prefix<T>(s: seq<T>, n: int): (r: seq<T>)
    ensures n >= 0 ==> |r| == if n < |s| then n else |s|
    ensures n < 0 ==> |r| == if |s| + n > 0 then |s| + n else 0
    ensures r == s[..|r|]
  {
    if n >= 0 then
      (if n < |s| then s[..n] else s)
    else
      (if |s| + n > 0 then s[..|s| + n] else [])
  }

  /** `a < b` on Python strings: code point by code point, a proper prefix first. */
  predicate StrLess(a: string, b: string)
    decreases |a|
  {
    |b| > 0 && (|a| == 0 || a[0] < b[0] || (a[0] == b[0] && StrLess(a[1..], b[1..])))
  }

  lemma {:induction false} StrLessIrreflexive(a: string)
    ensures !StrLess(a, a)
    decreases |a|
  {
    if |a| > 0 {
      StrLessIrreflexive(a[1..]);
    }
  }

  lemma {:induction false} StrLessTransitive(a: string, b: string, c: string)
    requires StrLess(a, b) && StrLess(b, c)
    ensures StrLess(a, c)
    decreases |a|
  {
    if |a| > 0 && a[0] == b[0] && b[0] == c[0] {
      StrLessTransitive(a[1..], b[1..], c[1..]);
    }
  }

  /** Any two distinct strings are ordered one way or the other. */
  lemma {:induction false} StrLessTotal(a: string, b: string)
    ensures a == b || StrLess(a, b) || StrLess(b, a)
    decreases |a|
  {
    if |a| > 0 && |b| > 0 && a[0] == b[0] {
      StrLessTotal(a[1..], b[1..]);
      if a[1..] == b[1..] {
        assert a == [a[0]] + a[1..] && b == [b[0]] + b[1..];
      }
    }
  }

  /** `s` is ordered by `key`, largest (newest timestamp) first. */
  ghost predicate NewestFirst<T>(s: seq<T>, key: T -> string)
  {
    forall i, j :: 0 <= i < j < |s| ==> !StrLess(key(s[i]), key(s[j]))
  }

  /** The elements of `s` whose key is `k`, in their order in `s`. */
  function WithKey<T>(s: seq<T>, key: T -> string, k: string): seq<T>
    decreases |s|
  {
    if s == [] then []
    else WithKey(s[..|s| - 1], key, k) + (if key(s[|s| - 1]) == k then [s[|s| - 1]] else [])
  }

  /**
   * One step of a stable descending insertion: `x` goes after every element
   * whose key is at least its own, so equal keys keep their input order.
   */
  function InsertNewest<T>(x: T, s: seq<T>, key: T -> string): (r: seq<T>)
    ensures |r| == |s| + 1
    ensures multiset(r) == multiset(s) + multiset{x}
    decreases |s|
  {
    if s == [] then [x]
    else if StrLess(key(s[0]), key(x)) then [x] + s
    else
      assert s == [s[0]] + s[1..];
      [s[0]] + InsertNewest(x, s[1..], key)
  }

  /** `list.sort(key=key, reverse=True)`: elements taken in input order and inserted. */
  function SortNewestFirst<T>(s: seq<T>, key: T -> string): (r: seq<T>)
    ensures |r| == |s|
    ensures multiset(r) == multiset(s)
    decreases |s|
  {
    if s == [] then []
    else
      assert s == s[..|s| - 1] + [s[|s| - 1]];
      InsertNewest(s[|s| - 1], SortNewestFirst(s[..|s| - 1], key), key)
  }

  lemma {:induction false} InsertNewestOrdered<T>(x: T, s: seq<T>, key: T -> string)
    requires NewestFirst(s, key)
    ensures NewestFirst(InsertNewest(x, s, key), key)
    decreases |s|
  {
    var r := InsertNewest(x, s, key);
    if s == [] {
    } else if StrLess(key(s[0]), key(x)) {
      forall j | 1 <= j < |r|
        ensures !StrLess(key(r[0]), key(r[j]))
      {
        if StrLess(key(x), key(r[j])) {
          StrLessTransitive(key(s[0]), key(x), key(s[j - 1]));
          if j - 1 == 0 {
            StrLessIrreflexive(key(s[0]));
          }
        }
      }
    } else {
      var t := InsertNewest(x, s[1..], key);
      InsertNewestOrdered(x, s[1..], key);
      forall j | 0 <= j < |t|
        ensures !StrLess(key(s[0]), key(t[j]))
      {
        assert t[j] in multiset(t);
        assert t[j] == x || t[j] in multiset(s[1..]);
        if t[j] != x {
          var m :| 0 <= m < |s[1..]| && s[1..][m] == t[j];
          assert s[m + 1] == t[j];
        }
      }
    }
  }

  lemma {:induction false} SortNewestFirstOrdered<T>(s: seq<T>, key: T -> string)
    ensures NewestFirst(SortNewestFirst(s, key), key)
    decreases |s|
  {
    if s != [] {
      SortNewestFirstOrdered(s[..|s| - 1], key);
      InsertNewestOrdered(s[|s| - 1], SortNewestFirst(s[..|s| - 1], key), key);
    }
  }

  lemma {:induction false} WithKeyAppend<T>(a: seq<T>, b: seq<T>, key: T -> string, k: string)
    ensures WithKey(a + b, key, k) == WithKey(a, key, k) + WithKey(b, key, k)
    decreases |b|
  {
    if b != [] {
      assert (a + b)[..|a + b| - 1] == a + b[..|b| - 1];
      WithKeyAppend(a, b[..|b| - 1], key, k);
    } else {
      assert a + b == a;
    }
  }

  lemma {:induction false} WithKeyNone<T>(s: seq<T>, key: T -> string, k: string)
    requires forall i :: 0 <= i < |s| ==> key(s[i]) != k
    ensures WithKey(s, key, k) == []
    decreases |s|
  {
    if s != [] {
      WithKeyNone(s[..|s| - 1], key, k);
    }
  }

  /** Inserting into an ordered list appends `x` to the run of its own key. */
  lemma {:induction false} InsertNewestStable<T>(x: T, s: seq<T>, key: T -> string, k: string)
    requires NewestFirst(s, key)
    ensures WithKey(InsertNewest(x, s, key), key, k)
         == WithKey(s, key, k) + (if key(x) == k then [x] else [])
    decreases |s|
  {
    if s == [] {
      assert InsertNewest(x, s, key) == [] + [x];
    } else if StrLess(key(s[0]), key(x)) {
      InsertNewestFrontStable(x, s, key, k);
    } else {
      InsertNewestStable(x, s[1..], key, k);
      InsertNewestLaterStable(x, s, key, k);
    }
  }

  /** When `x` goes further in, the head keeps its place in front of the rest. */
  lemma InsertNewestLaterStable<T>(x: T, s: seq<T>, key: T -> string, k: string)
    requires s != [] && !StrLess(key(s[0]), key(x))
    requires WithKey(InsertNewest(x, s[1..], key), key, k) == WithKey(s[1..], key, k) + (if key(x) == k then [x] else [])
    ensures WithKey(InsertNewest(x, s, key), key, k) == WithKey(s, key, k) + (if key(x) == k then [x] else [])
  {
    assert InsertNewest(x, s, key) == [s[0]] + InsertNewest(x, s[1..], key);
    WithKeyAppend([s[0]], InsertNewest(x, s[1..], key), key, k);
    WithKeyAppend([s[0]], s[1..], key, k);
    assert [s[0]] + s[1..] == s;
  }

  /** When `x` goes in front, everything after it is strictly older, so none shares its key. */
  lemma InsertNewestFrontStable<T>(x: T, s: seq<T>, key: T -> string, k: string)
    requires NewestFirst(s, key)
    requires s != [] && StrLess(key(s[0]), key(x))
    ensures WithKey([x] + s, key, k) == WithKey(s, key, k) + (if key(x) == k then [x] else [])
  {
    WithKeyAppend([x], s, key, k);
    assert WithKey([x], key, k) == WithKey([], key, k) + (if key(x) == k then [x] else []);
    if key(x) == k {
      forall i | 0 <= i < |s|
        ensures key(s[i]) != k
      {
        if i == 0 {
          StrLessIrreflexive(key(x));
        }
      }
      WithKeyNone(s, key, k);
    }
  }

  /** The sort is stable: the elements sharing a key keep their input order. */
  lemma {:induction false} SortNewestFirstStable<T>(s: seq<T>, key: T -> string, k: string)
    ensures WithKey(SortNewestFirst(s, key), key, k) == WithKey(s, key, k)
    decreases |s|
  {
    if s != [] {
      SortNewestFirstStable(s[..|s| - 1], key, k);
      SortNewestFirstOrdered(s[..|s| - 1], key);
      InsertNewestStable(s[|s| - 1], SortNewestFirst(s[..|s| - 1], key), key, k);
    }
  }

  /**
   * A slice of an ordered list keeps the order, and nothing left out of it is
   * newer than anything kept.
   */
  lemma PrefixOfOrdered<T>(s: seq<T>, n: int, key: T -> string)
    requires NewestFirst(s, key)
    ensures NewestFirst(Prefix(s, n), key)
    ensures forall i, j :: 0 <= i < |Prefix(s, n)| <= j < |s| ==> !StrLess(key(s[i]), key(s[j]))
  {
  }

  /** An element is kept by `WithKey` exactly when it is in `s` and has key `k`. */
  lemma {:induction false} WithKeyMember<T>(s: seq<T>, key: T -> string, k: string, x: T)
    ensures x in WithKey(s, key, k) <==> x in s && key(x) == k
    decreases |s|
  {
    if s != [] {
      WithKeyMember(s[..|s| - 1], key, k, x);
      assert s == s[..|s| - 1] + [s[|s| - 1]];
    }
  }

  /** `WithKey` of a list with a known head. */
  lemma WithKeyCons<T>(a: T, s: seq<T>, key: T -> string, k: string)
    ensures WithKey([a] + s, key, k) == (if key(a) == k then [a] else []) + WithKey(s, key, k)
  {
    WithKeyAppend([a], s, key, k);
    assert WithKey([a], key, k) == WithKey([], key, k) + (if key(a) == k then [a] else []);
  }

  /** In two lists ordered newest first with the same elements per key, the heads share a key. */
  lemma HeadKeysAgree<T>(t: seq<T>, u: seq<T>, key: T -> string)
    requires NewestFirst(t, key) && NewestFirst(u, key)
    requires t != [] && u != []
    requires forall k :: WithKey(t, key, k) == WithKey(u, key, k)
    ensures key(t[0]) == key(u[0])
  {
    StrLessTotal(key(t[0]), key(u[0]));
    if StrLess(key(t[0]), key(u[0])) {
      OlderHeadImpossible(t, u, key);
    } else if StrLess(key(u[0]), key(t[0])) {
      OlderHeadImpossible(u, t, key);
    }
  }

  /** The head of an ordered list is at least as new as everything in the other list. */
  lemma OlderHeadImpossible<T>(t: seq<T>, u: seq<T>, key: T -> string)
    requires NewestFirst(t, key)
    requires t != [] && u != []
    requires forall k :: WithKey(t, key, k) == WithKey(u, key, k)
    ensures !StrLess(key(t[0]), key(u[0]))
  {
    var k := key(u[0]);
    WithKeyMember(u, key, k, u[0]);
    WithKeyMember(t, key, k, u[0]);
    var j :| 0 <= j < |t| && t[j] == u[0];
    if j == 0 {
      StrLessIrreflexive(k);
    }
  }

  /**
   * Two lists ordered newest first that hold, for every key, the same
   * elements in the same order are equal.
   */
  lemma {:induction false} OrderedUnique<T>(t: seq<T>, u: seq<T>, key: T -> string)
    requires NewestFirst(t, key) && NewestFirst(u, key)
    requires forall k :: WithKey(t, key, k) == WithKey(u, key, k)
    ensures t == u
    decreases |t|
  {
    if t == [] && u != [] {
      WithKeyMember(u, key, key(u[0]), u[0]);
      WithKeyMember(t, key, key(u[0]), u[0]);
    } else if t != [] && u == [] {
      WithKeyMember(t, key, key(t[0]), t[0]);
      WithKeyMember(u, key, key(t[0]), t[0]);
    } else if t != [] {
      HeadKeysAgree(t, u, key);
      assert t == [t[0]] + t[1..] && u == [u[0]] + u[1..];
      WithKeyCons(t[0], t[1..], key, key(t[0]));
      WithKeyCons(u[0], u[1..], key, key(t[0]));
      assert WithKey(t, key, key(t[0]))[0] == t[0];
      assert WithKey(u, key, key(t[0]))[0] == u[0];
      forall k
        ensures WithKey(t[1..], key, k) == WithKey(u[1..], key, k)
      {
        WithKeyCons(t[0], t[1..], key, k);
        WithKeyCons(u[0], u[1..], key, k);
        var n := if key(t[0]) == k then 1 else 0;
        assert WithKey(t, key, k) == WithKey(u, key, k);
        assert WithKey(t[1..], key, k) == WithKey(t, key, k)[n..];
        assert WithKey(u[1..], key, k) == WithKey(u, key, k)[n..];
      }
      OrderedUnique(t[1..], u[1..], key);
    }
  }

  /**
   * Any stable sort newest first gives the insertion sort's result: a list
   * ordered newest first that keeps, for every key, the input order of the
   * elements with that key is `SortNewestFirst(s, key)`.
   */
  lemma StableSortIsUnique<T>(s: seq<T>, t: seq<T>, key: T -> string)
    requires NewestFirst(t, key)
    requires forall k :: WithKey(t, key, k) == WithKey(s, key, k)
    ensures t == SortNewestFirst(s, key)
  {
    SortNewestFirstOrdered(s, key);
    forall k
      ensures WithKey(SortNewestFirst(s, key), key, k) == WithKey(s, key, k)
    {
      SortNewestFirstStable(s, key, k);
    }
    OrderedUnique(t, SortNewestFirst(s, key), key);
  }
}
