/**
 * Sequence helpers with the semantics of the JavaScript array methods the
 * app uses: `filter`, `slice(0, n)` and the stable `sort` (stable since
 * ECMAScript 2019) with a "descending by key" comparator.
 */
module Sequences {

  /** `s.filter(p)`, stated element by element from the back so that loops can extend it. */
  function Filter<T>(s: seq<T>, p: T -> bool): (r: seq<T>)
    ensures |r| <= |s|
    ensures forall x :: x in r ==> x in s && p(x)
    ensures multiset(r) <= multiset(s)
  {
    if s == [] then []
    else
      assert s == s[..|s| - 1] + [s[|s| - 1]];
      Filter(s[..|s| - 1], p) + (if p(s[|s| - 1]) then [s[|s| - 1]] else [])
  }

  lemma {:induction false} FilterAppend<T>(a: seq<T>, b: seq<T>, p: T -> bool)
    ensures Filter(a + b, p) == Filter(a, p) + Filter(b, p)
  {
    if b != [] {
      assert (a + b)[..|a + b| - 1] == a + b[..|b| - 1];
      FilterAppend(a, b[..|b| - 1], p);
    } else {
      assert a + b == a;
    }
  }

  /** Filtering one element more of a prefix adds that element when it passes. */
  lemma FilterPrefixStep<T>(s: seq<T>, p: T -> bool, i: nat)
    requires i < |s|
    ensures Filter(s[..i + 1], p) == Filter(s[..i], p) + (if p(s[i]) then [s[i]] else [])
  {
    assert s[..i + 1][..i] == s[..i];
  }

  lemma {:induction false} FilterContains<T>(s: seq<T>, p: T -> bool, x: T)
    requires x in s && p(x)
    ensures x in Filter(s, p)
  {
    var last := s[|s| - 1];
    if x != last {
      assert s == s[..|s| - 1] + [last];
      FilterContains(s[..|s| - 1], p, x);
    }
  }

  /**
   * `s.slice(0, n)`: the first `n` elements; a negative `n` counts from the
   * end, as in JavaScript.
   */
  function Take<T>(s: seq<T>, n: int): (r: seq<T>)
    ensures |r| <= |s| && r == s[..|r|]
    ensures n >= 0 ==> |r| == if n < |s| then n else |s|
    ensures n < 0 ==> |r| == if |s| + n > 0 then |s| + n else 0
  {
    if n >= |s| then s
    else if n >= 0 then s[..n]
    else if |s| + n > 0 then s[..|s| + n]
    else []
  }

  /** Ordered by `key`, largest first. */
  predicate NonIncreasing<T>(s: seq<T>, key: T -> real)
  {
    forall i, j :: 0 <= i < j < |s| ==> key(s[i]) >= key(s[j])
  }

  /** Inserts `x` after every element whose key is at least `key(x)`. */
  function InsertDesc<T>(x: T, s: seq<T>, key: T -> real): seq<T>
  {
    if s == [] then [x]
    else if key(s[0]) >= key(x) then [s[0]] + InsertDesc(x, s[1..], key)
    else [x] + s
  }

  /**
   * `s.sort((a, b) => key(b) - key(a))`: a stable insertion sort, each later
   * element inserted after the earlier ones with the same key.
   */
  function SortDesc<T>(s: seq<T>, key: T -> real): seq<T>
  {
    if s == [] then []
    else InsertDesc(s[|s| - 1], SortDesc(s[..|s| - 1], key), key)
  }

  lemma {:induction false} InsertDescAtEnd<T>(x: T, s: seq<T>, key: T -> real)
    requires forall i :: 0 <= i < |s| ==> key(s[i]) >= key(x)
    ensures InsertDesc(x, s, key) == s + [x]
  {
    if s != [] {
      InsertDescAtEnd(x, s[1..], key);
      assert [s[0]] + (s[1..] + [x]) == s + [x];
    }
  }

  /** Sorting a sequence that is already in order leaves it unchanged. */
  lemma {:induction false} SortDescOfSorted<T>(s: seq<T>, key: T -> real)
    requires NonIncreasing(s, key)
    ensures SortDesc(s, key) == s
  {
    if s != [] {
      var n := |s| - 1;
      assert NonIncreasing(s[..n], key);
      SortDescOfSorted(s[..n], key);
      InsertDescAtEnd(s[n], s[..n], key);
      assert s[..n] + [s[n]] == s;
    }
  }

  /** The elements of `s` whose key is exactly `v`, in order. */
  function WithKey<T>(s: seq<T>, key: T -> real, v: real): seq<T>
  {
    if s == [] then []
    else WithKey(s[..|s| - 1], key, v) + (if key(s[|s| - 1]) == v then [s[|s| - 1]] else [])
  }

  lemma {:induction false} InsertDescPermutes<T>(x: T, s: seq<T>, key: T -> real)
    ensures multiset(InsertDesc(x, s, key)) == multiset(s) + multiset{x}
  {
    if s != [] && key(s[0]) >= key(x) {
      InsertDescPermutes(x, s[1..], key);
      assert s == [s[0]] + s[1..];
    }
  }

  lemma {:induction false} InsertDescOrdered<T>(x: T, s: seq<T>, key: T -> real)
    requires NonIncreasing(s, key)
    ensures NonIncreasing(InsertDesc(x, s, key), key)
  {
    if s != [] && key(s[0]) >= key(x) {
      InsertDescOrdered(x, s[1..], key);
      InsertDescPermutes(x, s[1..], key);
      var t := InsertDesc(x, s[1..], key);
      forall j | 0 <= j < |t|
        ensures key(s[0]) >= key(t[j])
      {
        assert t[j] in multiset(t);
        assert t[j] == x || t[j] in s[1..];
      }
    }
  }

  /** The stable sort orders by key, largest first, and is a permutation. */
  lemma {:induction false} SortDescOrdersAndPermutes<T>(s: seq<T>, key: T -> real)
    ensures NonIncreasing(SortDesc(s, key), key)
    ensures multiset(SortDesc(s, key)) == multiset(s)
    ensures |SortDesc(s, key)| == |s|
  {
    if s != [] {
      var init, last := s[..|s| - 1], s[|s| - 1];
      SortDescOrdersAndPermutes(init, key);
      InsertDescOrdered(last, SortDesc(init, key), key);
      InsertDescPermutes(last, SortDesc(init, key), key);
      assert s == init + [last];
    }
    assert |multiset(SortDesc(s, key))| == |SortDesc(s, key)|;
  }

  /**
   * Taking the first `n` of the sorted list keeps the best: an element of
   * `s` left out scores no higher than any element kept, and it can only be
   * left out when the cut actually removes something.
   */
  lemma TopOfSortDesc<T>(s: seq<T>, key: T -> real, n: int, x: T)
    requires x in s && x !in Take(SortDesc(s, key), n)
    ensures n >= 0 ==> |Take(SortDesc(s, key), n)| == n
    ensures forall y :: y in Take(SortDesc(s, key), n) ==> key(y) >= key(x)
  {
    var sorted := SortDesc(s, key);
    var r := Take(sorted, n);
    SortDescOrdersAndPermutes(s, key);
    assert x in multiset(sorted);
    var j :| 0 <= j < |sorted| && sorted[j] == x;
    assert j >= |r|;
    forall y | y in r
      ensures key(y) >= key(x)
    {
      var i :| 0 <= i < |r| && r[i] == y;
      assert sorted[i] == y;
    }
  }

  lemma {:induction false} WithKeyAppend<T>(a: seq<T>, b: seq<T>, key: T -> real, v: real)
    ensures WithKey(a + b, key, v) == WithKey(a, key, v) + WithKey(b, key, v)
  {
    if b != [] {
      assert (a + b)[..|a + b| - 1] == a + b[..|b| - 1];
      WithKeyAppend(a, b[..|b| - 1], key, v);
    } else {
      assert a + b == a;
    }
  }

  lemma {:induction false} WithKeyAbsent<T>(s: seq<T>, key: T -> real, v: real)
    requires forall i :: 0 <= i < |s| ==> key(s[i]) != v
    ensures WithKey(s, key, v) == []
  {
    if s != [] {
      WithKeyAbsent(s[..|s| - 1], key, v);
    }
  }

  /** Inserting behind an element with a larger or equal key: the tail case of `InsertDescWithKey`. */
  lemma InsertBehindWithKey<T>(x: T, s: seq<T>, key: T -> real, v: real)
    requires s != [] && key(s[0]) >= key(x)
    requires WithKey(InsertDesc(x, s[1..], key), key, v)
          == WithKey(s[1..], key, v) + (if key(x) == v then [x] else [])
    ensures WithKey(InsertDesc(x, s, key), key, v)
         == WithKey(s, key, v) + (if key(x) == v then [x] else [])
  {
    WithKeyAppend([s[0]], InsertDesc(x, s[1..], key), key, v);
    WithKeyAppend([s[0]], s[1..], key, v);
    assert [s[0]] + s[1..] == s;
  }

  /** Inserting in front of a sequence whose keys are all below `key(x)`. */
  lemma InsertInFrontWithKey<T>(x: T, s: seq<T>, key: T -> real, v: real)
    requires NonIncreasing(s, key)
    requires s != [] && key(s[0]) < key(x)
    ensures WithKey(InsertDesc(x, s, key), key, v)
         == WithKey(s, key, v) + (if key(x) == v then [x] else [])
  {
    WithKeyAppend([x], s, key, v);
    assert WithKey([x], key, v) == WithKey([], key, v) + (if key(x) == v then [x] else []);
    if key(x) == v {
      WithKeyAbsent(s, key, v);
    }
  }

  lemma {:induction false} InsertDescWithKey<T>(x: T, s: seq<T>, key: T -> real, v: real)
    requires NonIncreasing(s, key)
    ensures WithKey(InsertDesc(x, s, key), key, v)
         == WithKey(s, key, v) + (if key(x) == v then [x] else [])
  {
    if s == [] {
      assert WithKey([x], key, v) == WithKey([], key, v) + (if key(x) == v then [x] else []);
    } else if key(s[0]) >= key(x) {
      InsertDescWithKey(x, s[1..], key, v);
      InsertBehindWithKey(x, s, key, v);
    } else {
      InsertInFrontWithKey(x, s, key, v);
    }
  }

  /**
   * Stability: for every key value, the elements carrying it keep their
   * relative order.
   */
  lemma {:induction false} SortDescStable<T>(s: seq<T>, key: T -> real, v: real)
    ensures WithKey(SortDesc(s, key), key, v) == WithKey(s, key, v)
  {
    if s != [] {
      var init, last := s[..|s| - 1], s[|s| - 1];
      SortDescStable(init, key, v);
      SortDescOrdersAndPermutes(init, key);
      InsertDescWithKey(last, SortDesc(init, key), key, v);
    }
  }

  function Negate(t: real): real { -t }

  predicate Ascending(s: seq<real>)
  {
    forall i, j :: 0 <= i < j < |s| ==> s[i] <= s[j]
  }

  /** `s.sort((a, b) => a - b)` on numbers. */
  function SortAscending(s: seq<real>): seq<real>
  {
    SortDesc(s, Negate)
  }

  lemma SortAscendingSorts(s: seq<real>)
    ensures Ascending(SortAscending(s))
    ensures multiset(SortAscending(s)) == multiset(s)
  {
    SortDescOrdersAndPermutes(s, Negate);
  }
}
