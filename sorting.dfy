/** Sorting of (key, value) pairs by key, standing for Python's sorted() on pairs whose keys are
    distinct and for numpy.argsort. */
module Sorting {

  predicate SortedByKey<X>(s: seq<(int, X)>)
  {
    forall i, j :: 0 <= i < j < |s| ==> s[i].0 <= s[j].0
  }

  predicate StrictlySortedByKey<X>(s: seq<(int, X)>)
  {
    forall i, j :: 0 <= i < j < |s| ==> s[i].0 < s[j].0
  }

  predicate DistinctKeys<X>(s: seq<(int, X)>)
  {
    forall i, j :: 0 <= i < |s| && 0 <= j < |s| && i != j ==> s[i].0 != s[j].0
  }

  predicate Distinct<T(==)>(s: seq<T>)
  {
    forall i, j :: 0 <= i < |s| && 0 <= j < |s| && i != j ==> s[i] != s[j]
  }

  /** Inserts x into a key-sorted sequence, before the first element whose key is not smaller. */
  function Insert<X(==)>(x: (int, X), s: seq<(int, X)>): (r: seq<(int, X)>)
    ensures |r| == |s| + 1
    ensures multiset(r) == multiset(s) + multiset{x}
  {
    if s == [] then [x]
    else if x.0 <= s[0].0 then [x] + s
    else
      assert s == [s[0]] + s[1..];
      [s[0]] + Insert(x, s[1..])
  }

  /** Insertion sort by key; elements with equal keys keep their order. */
  function SortByKey<X(==)>(s: seq<(int, X)>): (r: seq<(int, X)>)
    ensures |r| == |s|
    ensures multiset(r) == multiset(s)
  {
    if s == [] then []
    else
      assert s == [s[0]] + s[1..];
      Insert(s[0], SortByKey(s[1..]))
  }

  /** Every element of Insert(x, s) is x or an element of s. */
  lemma InsertElements<X>(x: (int, X), s: seq<(int, X)>, k: int)
    requires 0 <= k < |Insert(x, s)|
    ensures Insert(x, s)[k] == x || Insert(x, s)[k] in s
  {
    var r := Insert(x, s);
    assert r[k] in multiset(r);
  }

  lemma {:induction false} InsertSorted<X>(x: (int, X), s: seq<(int, X)>)
    requires SortedByKey(s)
    ensures SortedByKey(Insert(x, s))
  {
    if s != [] && x.0 > s[0].0 {
      var t := Insert(x, s[1..]);
      InsertSorted(x, s[1..]);
      forall k | 0 <= k < |t| ensures s[0].0 <= t[k].0 {
        InsertElements(x, s[1..], k);
      }
    }
  }

  lemma {:induction false} SortSorted<X>(s: seq<(int, X)>)
    ensures SortedByKey(SortByKey(s))
  {
    if s != [] {
      SortSorted(s[1..]);
      InsertSorted(s[0], SortByKey(s[1..]));
    }
  }

  lemma {:induction false} InsertStrict<X>(x: (int, X), s: seq<(int, X)>)
    requires StrictlySortedByKey(s)
    requires forall k :: 0 <= k < |s| ==> s[k].0 != x.0
    ensures StrictlySortedByKey(Insert(x, s))
  {
    if s != [] && x.0 > s[0].0 {
      var t := Insert(x, s[1..]);
      InsertStrict(x, s[1..]);
      forall k | 0 <= k < |t| ensures s[0].0 < t[k].0 {
        InsertElements(x, s[1..], k);
      }
    }
  }

  /** Sorting pairs with distinct keys orders them strictly by key. */
  lemma {:induction false} SortStrict<X>(s: seq<(int, X)>)
    requires DistinctKeys(s)
    ensures StrictlySortedByKey(SortByKey(s))
  {
    if s != [] {
      var rest := SortByKey(s[1..]);
      SortStrict(s[1..]);
      forall k | 0 <= k < |rest| ensures rest[k].0 != s[0].0 {
        assert rest[k] in multiset(rest);
        var a :| 0 <= a < |s[1..]| && s[1..][a] == rest[k];
        assert s[a + 1] == rest[k];
      }
      InsertStrict(s[0], rest);
    }
  }

  predicate HasKey<X>(r: seq<(int, X)>, m: int)
  {
    exists k :: 0 <= k < |r| && r[k].0 == m
  }

  /** A strictly key-sorted sequence whose keys lie in [0, n) and include every such key holds
      key m at position m, and has length n. */
  lemma StrictKeysCoverRange<X>(r: seq<(int, X)>, n: nat)
    requires StrictlySortedByKey(r)
    requires forall k :: 0 <= k < |r| ==> 0 <= r[k].0 < n
    requires forall m :: 0 <= m < n ==> HasKey(r, m)
    ensures |r| == n
    ensures forall m :: 0 <= m < n ==> r[m].0 == m
  {
    KeysAtLeastPosition(r, |r|);
    forall m | 0 <= m < n ensures m < |r| && r[m].0 == m {
      KeyAtItsPosition(r, n, m);
    }
    if |r| > 0 {
      assert r[|r| - 1].0 >= |r| - 1;
    }
    if n > 0 {
      KeyAtItsPosition(r, n, n - 1);
    }
  }

  lemma {:induction false} KeysAtLeastPosition<X>(r: seq<(int, X)>, k: nat)
    requires StrictlySortedByKey(r) && k <= |r|
    requires forall q :: 0 <= q < |r| ==> 0 <= r[q].0
    ensures forall q :: 0 <= q < k ==> r[q].0 >= q
  {
    if k > 0 {
      KeysAtLeastPosition(r, k - 1);
      if k - 1 > 0 { assert r[k - 1].0 > r[k - 2].0; }
    }
  }

  lemma {:induction false} KeyAtItsPosition<X>(r: seq<(int, X)>, n: nat, m: nat)
    requires StrictlySortedByKey(r)
    requires forall k :: 0 <= k < |r| ==> 0 <= r[k].0 < n
    requires forall m :: 0 <= m < n ==> HasKey(r, m)
    requires m < n
    ensures m < |r| && r[m].0 == m
    decreases m
  {
    KeysAtLeastPosition(r, |r|);
    forall q | 0 <= q < m ensures q < |r| && r[q].0 == q {
      KeyAtItsPosition(r, n, q);
    }
    assert HasKey(r, m);
    var p :| 0 <= p < |r| && r[p].0 == m;
    assert p >= m;
    assert p <= m;
  }

  /** p lists each of 0 .. n-1 exactly once. */
  predicate IsPermutation(p: seq<nat>, n: nat)
  {
    |p| == n && (forall i :: 0 <= i < n ==> p[i] < n) && Distinct(p)
  }

  /** Two equal elements at different positions make an element occur at least twice. */
  lemma EqualPairCount<T>(r: seq<T>, a: int, b: int)
    requires 0 <= a < b < |r|
    ensures r[a] == r[b] ==> multiset(r)[r[a]] >= 2
  {
    assert r == r[..a] + [r[a]] + r[a + 1..b] + [r[b]] + r[b + 1..];
  }

  lemma {:induction false} DistinctCount<T>(s: seq<T>, x: T)
    requires Distinct(s)
    ensures multiset(s)[x] <= 1
  {
    if s != [] {
      var init := s[..|s| - 1];
      assert s == init + [s[|s| - 1]];
      DistinctCount(init, x);
      assert x == s[|s| - 1] ==> x !in init;
    }
  }

  /** A sequence with the same multiset as a sequence without repetitions has none either. */
  lemma DistinctFromMultiset<T>(r: seq<T>, s: seq<T>)
    requires multiset(r) == multiset(s) && Distinct(s)
    ensures Distinct(r)
  {
    forall a, b | 0 <= a < b < |r| ensures r[a] != r[b] {
      EqualPairCount(r, a, b);
      DistinctCount(s, r[a]);
    }
  }

  /** The pairs (e[j], j). */
  function Enumerate(e: seq<int>): (s: seq<(int, int)>)
    ensures |s| == |e|
    ensures forall j :: 0 <= j < |e| ==> s[j] == (e[j], j)
  {
    seq(|e|, j requires 0 <= j < |e| => (e[j], j))
  }

  /** numpy.argsort: positions of e in an order that sorts e. */
  function ArgSort(e: seq<int>): (p: seq<nat>)
    ensures IsPermutation(p, |e|)
    ensures forall a, b :: 0 <= a < b < |p| ==> e[p[a]] <= e[p[b]]
  {
    var r := SortByKey<int>(Enumerate(e));
    SortedEnumeration(e);
    seq(|r|, m requires 0 <= m < |r| => r[m].1 as nat)
  }

  /** Sorting the pairs (e[j], j) by key yields each position once, with its own value as key. */
  lemma SortedEnumeration(e: seq<int>)
    ensures var r := SortByKey<int>(Enumerate(e));
      && |r| == |e|
      && SortedByKey(r)
      && (forall m :: 0 <= m < |r| ==> 0 <= r[m].1 < |e| && r[m].0 == e[r[m].1])
      && (forall a, b :: 0 <= a < b < |r| ==> r[a].1 != r[b].1)
  {
    var s := Enumerate(e);
    var r := SortByKey<int>(s);
    SortSorted(s);
    forall m | 0 <= m < |r| ensures 0 <= r[m].1 < |e| && r[m].0 == e[r[m].1] {
      assert r[m] in multiset(s);
      var j :| 0 <= j < |s| && s[j] == r[m];
    }
    DistinctFromMultiset(r, s);
  }

  /** A sequence without repetitions whose values all lie below k has at most k elements. */
  lemma {:induction false} DistinctBound(p: seq<nat>, k: nat)
    requires Distinct(p) && forall i :: 0 <= i < |p| ==> p[i] < k
    ensures |p| <= k
  {
    if p != [] {
      assert p[0] < k;
      if exists i :: 0 <= i < |p| && p[i] == k - 1 {
        // drop the one occurrence of k - 1
        var i :| 0 <= i < |p| && p[i] == k - 1;
        var q := p[..i] + p[i + 1..];
        forall a | 0 <= a < |q| ensures q[a] < k - 1 {
          if a < i { assert q[a] == p[a] && a != i; } else { assert q[a] == p[a + 1] && a + 1 != i; }
        }
        forall a, b | 0 <= a < b < |q| ensures q[a] != q[b] {
          var a' := if a < i then a else a + 1;
          var b' := if b < i then b else b + 1;
          assert q[a] == p[a'] && q[b] == p[b'] && a' < b';
        }
        DistinctBound(q, k - 1);
      } else {
        DistinctBound(p, k - 1);
      }
    }
  }

  /** A permutation of 0 .. n-1 takes every value below n. */
  lemma PermutationCovers(p: seq<nat>, n: nat, m: nat)
    requires IsPermutation(p, n) && m < n
    ensures m in p
  {
    if m !in p {
      var q := seq(n, i requires 0 <= i < n => if p[i] == n - 1 then m else p[i]);
      forall a, b | 0 <= a < b < n ensures q[a] != q[b] {
        assert p[a] != p[b];
        assert p[a] != m && p[b] != m by { assert p[a] in p && p[b] in p; }
      }
      forall a | 0 <= a < n ensures q[a] < n - 1 {
        assert p[a] != m by { assert p[a] in p; }
      }
      DistinctBound(q, n - 1);
    }
  }
}
