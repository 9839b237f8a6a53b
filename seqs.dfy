/** The array methods the code leans on — `filter`, `map`, `reduce` into a
    sum, `findIndex`, `find` and `sort` — as functions on sequences, with the
    facts the rest of the model needs about them. */
module Seqs {
  import opened Wrappers

  /** `s.filter(p)`. */
  function Filter<T>(s: seq<T>, p: T -> bool): (r: seq<T>)
    ensures |r| <= |s|
    ensures forall i :: 0 <= i < |r| ==> r[i] in s && p(r[i])
    ensures forall i :: 0 <= i < |s| && p(s[i]) ==> s[i] in r
  {
    if |s| == 0 then [] else (if p(s[0]) then [s[0]] else []) + Filter(s[1..], p)
  }

  /** An element of the list is kept exactly when it passes. */
  lemma FilterMember<T>(s: seq<T>, p: T -> bool, x: T)
    requires x in s
    ensures x in Filter(s, p) <==> p(x)
  {
    var r := Filter(s, p);
    if x in r {
      var j :| 0 <= j < |r| && r[j] == x;
    }
    var i :| 0 <= i < |s| && s[i] == x;
  }

  /** Filtering a concatenation filters each part and keeps them in order;
      with the one-element case this pins down that the filter keeps the
      relative order of what it keeps. */
  lemma {:induction false} FilterAppend<T>(a: seq<T>, b: seq<T>, p: T -> bool)
    ensures Filter(a + b, p) == Filter(a, p) + Filter(b, p)
  {
    if |a| == 0 {
      assert a + b == b;
    } else {
      assert (a + b)[1..] == a[1..] + b;
      FilterAppend(a[1..], b, p);
    }
  }

  /** A filter that every element passes returns its input. */
  lemma {:induction false} FilterKeepsAll<T>(s: seq<T>, p: T -> bool)
    requires forall i :: 0 <= i < |s| ==> p(s[i])
    ensures Filter(s, p) == s
  {
    if |s| > 0 {
      FilterKeepsAll(s[1..], p);
    }
  }

  /** Filtering twice by the same predicate is filtering once. */
  lemma FilterIdempotent<T>(s: seq<T>, p: T -> bool)
    ensures Filter(Filter(s, p), p) == Filter(s, p)
  {
    FilterKeepsAll(Filter(s, p), p);
  }

  /** `s.map(f)`. */
  function Map<T, U>(s: seq<T>, f: T -> U): (r: seq<U>)
    ensures |r| == |s|
    ensures forall i :: 0 <= i < |s| ==> r[i] == f(s[i])
  {
    seq(|s|, i requires 0 <= i < |s| => f(s[i]))
  }

  lemma MapAppend<T, U>(a: seq<T>, b: seq<T>, f: T -> U)
    ensures Map(a + b, f) == Map(a, f) + Map(b, f)
  {
  }

  /** `s.reduce((sum, x) => sum + x, 0)`. */
  function Sum(s: seq<real>): real {
    if |s| == 0 then 0.0 else s[0] + Sum(s[1..])
  }

  lemma {:induction false} SumAppend(a: seq<real>, b: seq<real>)
    ensures Sum(a + b) == Sum(a) + Sum(b)
  {
    if |a| == 0 {
      assert a + b == b;
    } else {
      assert (a + b)[1..] == a[1..] + b;
      SumAppend(a[1..], b);
    }
  }

  /** The total of `f` over the elements of `s` that pass `p`:
      `s.filter(p).reduce((sum, x) => sum + f(x), 0)`. */
  function SumWhere<T>(s: seq<T>, p: T -> bool, f: T -> real): real {
    Sum(Map(Filter(s, p), f))
  }

  /** The total over a concatenation is the sum of the totals. */
  lemma SumWhereAppend<T>(a: seq<T>, b: seq<T>, p: T -> bool, f: T -> real)
    ensures SumWhere(a + b, p, f) == SumWhere(a, p, f) + SumWhere(b, p, f)
  {
    FilterAppend(a, b, p);
    MapAppend(Filter(a, p), Filter(b, p), f);
    SumAppend(Map(Filter(a, p), f), Map(Filter(b, p), f));
  }

  /** A one-element list totals its value when it passes, and nothing
      otherwise. */
  lemma SumWhereSingleton<T>(x: T, p: T -> bool, f: T -> real)
    ensures SumWhere([x], p, f) == if p(x) then f(x) else 0.0
  {
    assert [x][1..] == [];
    var r := Filter([x], p);
    assert r == if p(x) then [x] else [];
    if p(x) {
      assert Map(r, f) == [f(x)];
      assert Sum([f(x)]) == f(x) + Sum([]);
    } else {
      assert Map(r, f) == [];
    }
  }

  /** Appending one element adds its value when it passes, and nothing
      otherwise. */
  lemma SumWhereSnoc<T>(s: seq<T>, x: T, p: T -> bool, f: T -> real)
    ensures SumWhere(s + [x], p, f) == SumWhere(s, p, f) + (if p(x) then f(x) else 0.0)
  {
    SumWhereAppend(s, [x], p, f);
    SumWhereSingleton(x, p, f);
  }

  /** The total only looks at what the predicate and the value function say
      of each position: two lists that agree on those have the same total. */
  lemma {:induction false} SumWhereCongruent<T, U>(a: seq<T>, p: T -> bool, f: T -> real,
                                                  b: seq<U>, q: U -> bool, g: U -> real)
    requires |a| == |b|
    requires forall i :: 0 <= i < |a| ==> p(a[i]) == q(b[i]) && (p(a[i]) ==> f(a[i]) == g(b[i]))
    ensures SumWhere(a, p, f) == SumWhere(b, q, g)
  {
    if |a| > 0 {
      SumWhereCongruent(a[1..], p, f, b[1..], q, g);
      calc {
        SumWhere(a, p, f);
        { assert a == [a[0]] + a[1..]; SumWhereAppend([a[0]], a[1..], p, f); }
        SumWhere([a[0]], p, f) + SumWhere(a[1..], p, f);
        { SumWhereSingleton(a[0], p, f); SumWhereSingleton(b[0], q, g); }
        SumWhere([b[0]], q, g) + SumWhere(b[1..], q, g);
        { assert b == [b[0]] + b[1..]; SumWhereAppend([b[0]], b[1..], q, g); }
        SumWhere(b, q, g);
      }
    }
  }

  /** `s.findIndex(x => key(x) === k)`: the first position whose key is `k`,
      or -1 when there is none. */
  function IndexOfKey<T>(s: seq<T>, key: T -> string, k: string): (r: int)
    ensures -1 <= r < |s|
    ensures r == -1 <==> forall i :: 0 <= i < |s| ==> key(s[i]) != k
    ensures 0 <= r ==> key(s[r]) == k && forall i :: 0 <= i < r ==> key(s[i]) != k
  {
    if |s| == 0 then -1
    else if key(s[0]) == k then 0
    else
      var r := IndexOfKey(s[1..], key, k);
      if r == -1 then -1 else r + 1
  }

  /** `s.find(x => key(x) === k)`: the first element whose key is `k`. */
  function FindByKey<T>(s: seq<T>, key: T -> string, k: string): (r: Option<T>)
    ensures r.None? <==> forall i :: 0 <= i < |s| ==> key(s[i]) != k
    ensures r.Some? ==> r.value in s && key(r.value) == k
    ensures r.Some? ==> r.value == s[IndexOfKey(s, key, k)]
  {
    var i := IndexOfKey(s, key, k);
    if i == -1 then None else Some(s[i])
  }

  /** Ascending order of `key` along the sequence. */
  ghost predicate SortedBy<T>(s: seq<T>, key: T -> int) {
    forall i, j :: 0 <= i < j < |s| ==> key(s[i]) <= key(s[j])
  }

  /** A lower bound on the keys of `s` and of `x` bounds every key of a
      sequence holding the same elements. */
  lemma BoundKept<T>(r: seq<T>, s: seq<T>, x: T, key: T -> int, lo: int)
    requires multiset(r) == multiset(s) + multiset{x}
    requires lo <= key(x) && forall j :: 0 <= j < |s| ==> lo <= key(s[j])
    ensures forall j :: 0 <= j < |r| ==> lo <= key(r[j])
  {
    forall j | 0 <= j < |r| ensures lo <= key(r[j]) {
      var y := r[j];
      assert y in multiset(r);
      if y != x {
        assert y in multiset(s);
        var k :| 0 <= k < |s| && s[k] == y;
      }
    }
  }

  /** Inserts `x` after every element whose key is not greater than its own. */
  function InsertBy<T>(x: T, s: seq<T>, key: T -> int): (r: seq<T>)
    requires SortedBy(s, key)
    ensures SortedBy(r, key)
    ensures multiset(r) == multiset(s) + multiset{x}
  {
    if |s| == 0 then [x]
    else if key(x) < key(s[0]) then
      SortedCons(x, s, key);
      [x] + s
    else
      SortedTail(s, key);
      var rest := InsertBy(x, s[1..], key);
      BoundKept(rest, s[1..], x, key, key(s[0]));
      SortedCons(s[0], rest, key);
      assert s == [s[0]] + s[1..];
      [s[0]] + rest
  }

  lemma SortedTail<T>(s: seq<T>, key: T -> int)
    requires |s| > 0 && SortedBy(s, key)
    ensures SortedBy(s[1..], key)
    ensures forall j :: 0 <= j < |s[1..]| ==> key(s[0]) <= key(s[1..][j])
  {
    forall j | 0 <= j < |s[1..]| ensures key(s[0]) <= key(s[1..][j]) {
      assert s[1..][j] == s[j + 1];
    }
  }

  lemma SortedCons<T>(y: T, s: seq<T>, key: T -> int)
    requires SortedBy(s, key)
    requires forall j :: 0 <= j < |s| ==> key(y) <= key(s[j])
    ensures SortedBy([y] + s, key)
  {
    forall i, j | 0 <= i < j < |[y] + s| ensures key(([y] + s)[i]) <= key(([y] + s)[j]) {
      if i > 0 {
        assert ([y] + s)[i] == s[i - 1];
      }
      assert ([y] + s)[j] == s[j - 1];
    }
  }

  /** `s.sort((a, b) => key(a) - key(b))`: the same elements, in ascending
      order of `key`. */
  function SortBy<T>(s: seq<T>, key: T -> int): (r: seq<T>)
    ensures SortedBy(r, key)
    ensures multiset(r) == multiset(s)
    ensures |r| == |s|
  {
    if |s| == 0 then []
    else
      var r := InsertBy(s[|s| - 1], SortBy(s[..|s| - 1], key), key);
      assert s == s[..|s| - 1] + [s[|s| - 1]];
      assert |r| == |multiset(r)|;
      r
  }
}
