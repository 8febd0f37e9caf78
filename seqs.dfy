/** Array.prototype.filter, the stable Array.prototype.sort with a numeric
    comparator, and page slices, as used by the bets page and the match list. */
module Seqs {
  import opened Common

  /** s.filter(p). */
  function Filter<T(!new)>(s: seq<T>, p: T -> bool): (r: seq<T>)
    ensures |r| <= |s|
    ensures forall x :: multiset(r)[x] == if p(x) then multiset(s)[x] else 0
    ensures forall k :: 0 <= k < |r| ==> p(r[k]) && r[k] in s
  {
    if |s| == 0 then []
    else
      assert s == [s[0]] + s[1..];
      (if p(s[0]) then [s[0]] else []) + Filter(s[1..], p)
  }

  /** Filtering a concatenation filters each part and keeps them in order:
      the kept elements appear in the order of the input. */
  lemma {:induction false} FilterAppend<T(!new)>(a: seq<T>, b: seq<T>, p: T -> bool)
    ensures Filter(a + b, p) == Filter(a, p) + Filter(b, p)
  {
    if |a| == 0 {
      assert a + b == b;
    } else {
      assert (a + b)[0] == a[0];
      assert (a + b)[1..] == a[1..] + b;
      FilterAppend(a[1..], b, p);
    }
  }

  /** The comparator `a.k - b.k` (ascending) or `b.k - a.k` (descending)
      accepts a before b. */
  predicate InOrder(a: int, b: int, asc: bool)
  {
    if asc then a <= b else b <= a
  }

  predicate SortedBy<T>(s: seq<T>, key: T -> int, asc: bool)
  {
    forall i, j :: 0 <= i < j < |s| ==> InOrder(key(s[i]), key(s[j]), asc)
  }

  /** Insert x, which came first in the input, before the first element it may
      precede: elements with equal keys keep their input order. */
  function Insert<T>(x: T, s: seq<T>, key: T -> int, asc: bool): (r: seq<T>)
    ensures multiset(r) == multiset(s) + multiset{x}
  {
    if |s| == 0 then [x]
    else if InOrder(key(x), key(s[0]), asc) then
      assert s == [s[0]] + s[1..];
      [x] + s
    else
      assert s == [s[0]] + s[1..];
      [s[0]] + Insert(x, s[1..], key, asc)
  }

  lemma {:induction false} InsertSorted<T>(x: T, s: seq<T>, key: T -> int, asc: bool)
    requires SortedBy(s, key, asc)
    ensures SortedBy(Insert(x, s, key, asc), key, asc)
  {
    if |s| > 0 && !InOrder(key(x), key(s[0]), asc) {
      var rest := Insert(x, s[1..], key, asc);
      InsertSorted(x, s[1..], key, asc);
      var r := [s[0]] + rest;
      assert r == Insert(x, s, key, asc);
      forall j | 0 < j < |r| ensures InOrder(key(s[0]), key(r[j]), asc) {
        var y := r[j];
        assert y == rest[j - 1];
        assert y in multiset(rest);
        if y != x {
          assert y in multiset(s[1..]);
          var m :| 0 <= m < |s[1..]| && s[1..][m] == y;
          assert s[m + 1] == y;
        }
      }
    }
  }

  /** basicRows.sort(...) / [...rows].sort(...): a stable sort on one numeric key. */
  function SortBy<T>(s: seq<T>, key: T -> int, asc: bool): (r: seq<T>)
    ensures |r| == |s|
    ensures multiset(r) == multiset(s)
    ensures SortedBy(r, key, asc)
  {
    if |s| == 0 then []
    else
      assert s == [s[0]] + s[1..];
      var rest := SortBy(s[1..], key, asc);
      InsertSorted(s[0], rest, key, asc);
      var r := Insert(s[0], rest, key, asc);
      assert |multiset(r)| == |r|;
      r
  }

  /** The elements whose key is k. */
  function KeyIs<T>(key: T -> int, k: int): T -> bool
  {
    x => key(x) == k
  }

  /** Filter(s, KeyIs(key, k)) without Filter's contract, which keeps the
      stability proof small. */
  function OfKey<T>(s: seq<T>, key: T -> int, k: int): seq<T>
  {
    if |s| == 0 then []
    else (if key(s[0]) == k then [s[0]] else []) + OfKey(s[1..], key, k)
  }

  lemma {:induction false} OfKeyIsFilter<T(!new)>(s: seq<T>, key: T -> int, k: int)
    ensures OfKey(s, key, k) == Filter(s, KeyIs(key, k))
  {
    if |s| > 0 {
      OfKeyIsFilter(s[1..], key, k);
    }
  }

  lemma OfKeyCons<T>(a: T, u: seq<T>, key: T -> int, k: int)
    ensures OfKey([a] + u, key, k) == (if key(a) == k then [a] else []) + OfKey(u, key, k)
  {
    assert ([a] + u)[0] == a && ([a] + u)[1..] == u;
  }

  /** Inserting x adds x to the elements of its own key without moving them,
      and leaves every other key alone: each element Insert passes over has
      a key different from x's. */
  lemma {:induction false} OfKeyInsert<T>(x: T, t: seq<T>, key: T -> int, asc: bool, k: int)
    ensures OfKey(Insert(x, t, key, asc), key, k) == (if key(x) == k then [x] else []) + OfKey(t, key, k)
  {
    if |t| == 0 || InOrder(key(x), key(t[0]), asc) {
      OfKeyCons(x, t, key, k);
    } else {
      var rest := Insert(x, t[1..], key, asc);
      assert Insert(x, t, key, asc) == [t[0]] + rest;
      OfKeyCons(t[0], rest, key, k);
      OfKeyInsert(x, t[1..], key, asc, k);
      var tail := OfKey(t[1..], key, k);
      if key(x) == k {
        assert key(t[0]) != k;
        assert OfKey(t, key, k) == tail;
        assert [] + ([x] + tail) == [x] + tail;
      } else if key(t[0]) == k {
        assert [] + tail == tail;
      } else {
        assert [] + tail == tail;
        assert [] + ([] + tail) == tail;
      }
    }
  }

  lemma {:induction false} OfKeySorted<T>(s: seq<T>, key: T -> int, asc: bool, k: int)
    ensures OfKey(SortBy(s, key, asc), key, k) == OfKey(s, key, k)
  {
    if |s| > 0 {
      OfKeySorted(s[1..], key, asc, k);
      OfKeyInsert(s[0], SortBy(s[1..], key, asc), key, asc, k);
    }
  }

  /** SortBy is stable: the elements of any one key come out in their input
      order. */
  lemma SortByStable<T(!new)>(s: seq<T>, key: T -> int, asc: bool, k: int)
    ensures Filter(SortBy(s, key, asc), KeyIs(key, k)) == Filter(s, KeyIs(key, k))
  {
    OfKeySorted(s, key, asc, k);
    OfKeyIsFilter(s, key, k);
    OfKeyIsFilter(SortBy(s, key, asc), key, k);
  }

  /** The in-place sort of an array the route has just built. */
  method SortInPlace<T>(a: array<T>, key: T -> int, asc: bool)
    modifies a
    ensures a[..] == SortBy(old(a[..]), key, asc)
  {
    var sorted := SortBy(a[..], key, asc);
    forall k | 0 <= k < a.Length {
      a[k] := sorted[k];
    }
  }

  // ---------- pages ----------

  /** s.slice((page - 1) * size, page * size). */
  function Page<T>(s: seq<T>, page: nat, size: nat): (r: seq<T>)
    requires page >= 1
    ensures |r| <= size
    ensures (page - 1) * size <= |s| ==> r == s[(page - 1) * size..Min(page * size, |s|)]
  {
    assert page * size == (page - 1) * size + size;
    JsSlice(s, (page - 1) * size, page * size)
  }

  /** Pages 1..k laid end to end. */
  function Pages<T>(s: seq<T>, size: nat, k: nat): seq<T>
  {
    if k == 0 then [] else Pages(s, size, k - 1) + Page(s, k, size)
  }

  lemma {:induction false} PagesArePrefix<T>(s: seq<T>, size: nat, k: nat)
    ensures Pages(s, size, k) == s[..Min(k * size, |s|)]
  {
    if k > 0 {
      PagesArePrefix(s, size, k - 1);
      assert k * size == (k - 1) * size + size;
      var lo := Min((k - 1) * size, |s|);
      if (k - 1) * size <= |s| {
        assert s[..Min(k * size, |s|)] == s[..lo] + s[lo..Min(k * size, |s|)];
      } else {
        assert Page(s, k, size) == [];
      }
    }
  }
}
