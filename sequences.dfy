/**
 * Generic sequence operations behind the dashboard's data-frame calls:
 * `pd.unique` (first-seen distinct values), `sorted(...)` of distinct
 * values, `sort_values` on one column and `groupby(...).sum()`.
 * Orders are given by an integer key function.
 */
module Sequences {

  // ---------------------------------------------------------------------
  // Splitting off the first or last element
  // ---------------------------------------------------------------------

  /** The first element and the rest: members and multiplicities. */
  lemma Uncons<T(!new)>(s: seq<T>)
    requires s != []
    ensures multiset(s) == multiset{s[0]} + multiset(s[1..])
    ensures forall y :: y in s <==> y == s[0] || y in s[1..]
  {
    assert s == [s[0]] + s[1..];
  }

  /** The last element and what precedes it: members. */
  lemma Unsnoc<T(!new)>(s: seq<T>)
    requires s != []
    ensures forall y :: y in s <==> y == s[|s| - 1] || y in s[..|s| - 1]
  {
    assert s == s[..|s| - 1] + [s[|s| - 1]];
  }

  // ---------------------------------------------------------------------
  // Distinct values in first-seen order (pd.unique)
  // ---------------------------------------------------------------------

  /** No element occurs twice. */
  predicate Distinct<T(==,!new)>(s: seq<T>) {
    forall i, j :: 0 <= i < j < |s| ==> s[i] != s[j]
  }

  /** The index of the first occurrence of x in s. */
  function FirstIndex<T(==,!new)>(s: seq<T>, x: T): (k: nat)
    requires x in s
    ensures k < |s| && s[k] == x
    ensures forall i :: 0 <= i < k ==> s[i] != x
  {
    Unsnoc(s);
    if x in s[..|s| - 1] then FirstIndex(s[..|s| - 1], x) else |s| - 1
  }

  /** The distinct elements of s, each once, in the order of their first appearance. */
  function Dedup<T(==,!new)>(s: seq<T>): (r: seq<T>)
    ensures Distinct(r)
    ensures forall x :: x in r <==> x in s
    ensures forall i, j :: 0 <= i < j < |r| ==> FirstIndex(s, r[i]) < FirstIndex(s, r[j])
  {
    if s == [] then []
    else
      var p := s[..|s| - 1];
      var x := s[|s| - 1];
      Unsnoc(s);
      var d := Dedup(p);
      if x in d then d
      else
        DistinctAppend(d, x);
        assert forall y :: y in d ==> FirstIndex(s, y) == FirstIndex(p, y) < |s| - 1;
        d + [x]
  }

  // ---------------------------------------------------------------------
  // Sorting by a key (sort_values)
  // ---------------------------------------------------------------------

  /** Ascending by key, equal keys allowed. */
  predicate SortedBy<T>(s: seq<T>, key: T -> int) {
    forall i, j :: 0 <= i < j < |s| ==> key(s[i]) <= key(s[j])
  }

  lemma SortedTail<T>(s: seq<T>, key: T -> int)
    requires s != [] && SortedBy(s, key)
    ensures SortedBy(s[1..], key)
    ensures forall y :: y in s[1..] ==> key(s[0]) <= key(y)
  {
    var t := s[1..];
    forall i, j | 0 <= i < j < |t| ensures key(t[i]) <= key(t[j]) {
      assert t[i] == s[i + 1] && t[j] == s[j + 1];
    }
    forall y | y in t ensures key(s[0]) <= key(y) {
      var m :| 0 <= m < |t| && t[m] == y;
      assert t[m] == s[m + 1];
    }
  }

  lemma ConsSorted<T>(x: T, s: seq<T>, key: T -> int)
    requires SortedBy(s, key)
    requires forall y :: y in s ==> key(x) <= key(y)
    ensures SortedBy([x] + s, key)
  {
    var r := [x] + s;
    forall i, j | 0 <= i < j < |r| ensures key(r[i]) <= key(r[j]) {
      assert r[j] == s[j - 1];
      if i > 0 {
        assert r[i] == s[i - 1];
      } else {
        assert s[j - 1] in s;
      }
    }
  }

  /** Puts x before the first element whose key is not smaller. */
  function InsertBy<T(==,!new)>(x: T, s: seq<T>, key: T -> int): (r: seq<T>)
    requires SortedBy(s, key)
    ensures SortedBy(r, key)
    ensures forall y :: y in r <==> y == x || y in s
    ensures multiset(r) == multiset(s) + multiset{x}
  {
    if s == [] then
      ConsSorted(x, s, key);
      [x] + s
    else
      Uncons(s);
      SortedTail(s, key);
      if key(x) <= key(s[0]) then
        ConsSorted(x, s, key);
        [x] + s
      else
        var rest := InsertBy(x, s[1..], key);
        ConsSorted(s[0], rest, key);
        [s[0]] + rest
  }

  /** A stable insertion sort on the key. */
  function SortBy<T(==,!new)>(s: seq<T>, key: T -> int): (r: seq<T>)
    ensures SortedBy(r, key)
    ensures multiset(r) == multiset(s) && |r| == |s|
  {
    if s == [] then []
    else
      Uncons(s);
      InsertBy(s[0], SortBy(s[1..], key), key)
  }

  /** Sorting what is already sorted changes nothing. */
  lemma {:induction false} SortSortedIsIdentity<T(!new)>(s: seq<T>, key: T -> int)
    requires SortedBy(s, key)
    ensures SortBy(s, key) == s
  {
    if s != [] {
      assert SortedBy(s[1..], key);
      SortSortedIsIdentity(s[1..], key);
    }
  }

  // ---------------------------------------------------------------------
  // Distinct values in ascending order (sorted(pd.unique(...)))
  // ---------------------------------------------------------------------

  /** Distinct values get distinct keys. */
  ghost predicate Injective<T(!new)>(key: T -> int) {
    forall a, b :: key(a) == key(b) ==> a == b
  }

  /** Strictly ascending by key, hence without duplicates. */
  predicate Ascending<T>(s: seq<T>, key: T -> int) {
    forall i, j :: 0 <= i < j < |s| ==> key(s[i]) < key(s[j])
  }

  lemma AscendingTailOf<T>(s: seq<T>, key: T -> int)
    requires s != [] && Ascending(s, key)
    ensures Ascending(s[1..], key)
    ensures forall y :: y in s[1..] ==> key(s[0]) < key(y)
  {
    var t := s[1..];
    forall i, j | 0 <= i < j < |t| ensures key(t[i]) < key(t[j]) {
      assert t[i] == s[i + 1] && t[j] == s[j + 1];
    }
    forall y | y in t ensures key(s[0]) < key(y) {
      var m :| 0 <= m < |t| && t[m] == y;
      assert t[m] == s[m + 1];
    }
  }

  lemma ConsAscendingOf<T>(x: T, s: seq<T>, key: T -> int)
    requires Ascending(s, key)
    requires forall y :: y in s ==> key(x) < key(y)
    ensures Ascending([x] + s, key)
  {
    var r := [x] + s;
    forall i, j | 0 <= i < j < |r| ensures key(r[i]) < key(r[j]) {
      assert r[j] == s[j - 1];
      if i > 0 {
        assert r[i] == s[i - 1];
      } else {
        assert s[j - 1] in s;
      }
    }
  }

  /** Puts x in key order unless an element with its key is already there. */
  function InsertUnique<T(==,!new)>(x: T, s: seq<T>, key: T -> int): (r: seq<T>)
    requires Injective(key)
    requires Ascending(s, key)
    ensures Ascending(r, key)
    ensures forall y :: y in r <==> y == x || y in s
  {
    if s == [] then
      ConsAscendingOf(x, s, key);
      [x] + s
    else
      Uncons(s);
      AscendingTailOf(s, key);
      if key(x) < key(s[0]) then
        ConsAscendingOf(x, s, key);
        [x] + s
      else if key(x) == key(s[0]) then
        s
      else
        var rest := InsertUnique(x, s[1..], key);
        ConsAscendingOf(s[0], rest, key);
        [s[0]] + rest
  }

  /** The distinct elements of s, ascending by key. */
  function SortedUnique<T(==,!new)>(s: seq<T>, key: T -> int): (r: seq<T>)
    requires Injective(key)
    ensures Ascending(r, key)
    ensures forall y :: y in r <==> y in s
  {
    if s == [] then []
    else
      Unsnoc(s);
      InsertUnique(s[|s| - 1], SortedUnique(s[..|s| - 1], key), key)
  }

  lemma AscendingIsDistinct<T(!new)>(s: seq<T>, key: T -> int)
    requires Ascending(s, key)
    ensures Distinct(s)
  {
  }

  // ---------------------------------------------------------------------
  // Group-by sums over (key, amount) pairs
  // ---------------------------------------------------------------------

  function Keys<K>(b: seq<(K, int)>): (ks: seq<K>)
    ensures |ks| == |b|
    ensures forall i :: 0 <= i < |b| ==> ks[i] == b[i].0
  {
    seq(|b|, i requires 0 <= i < |b| => b[i].0)
  }

  /** The sum of the amounts paired with key k. */
  function SumAt<K(==,!new)>(pairs: seq<(K, int)>, k: K): int {
    if pairs == [] then 0
    else (if pairs[0].0 == k then pairs[0].1 else 0) + SumAt(pairs[1..], k)
  }

  /** The sum of all amounts. */
  function Total<K>(pairs: seq<(K, int)>): int {
    if pairs == [] then 0 else pairs[0].1 + Total(pairs[1..])
  }

  lemma {:induction false} SumAtAppend<K(!new)>(pairs: seq<(K, int)>, p: (K, int), k: K)
    ensures SumAt(pairs + [p], k) == SumAt(pairs, k) + (if p.0 == k then p.1 else 0)
  {
    if pairs != [] {
      assert (pairs + [p])[1..] == pairs[1..] + [p];
      SumAtAppend(pairs[1..], p, k);
    }
  }

  lemma {:induction false} TotalAppend<K>(pairs: seq<(K, int)>, p: (K, int))
    ensures Total(pairs + [p]) == Total(pairs) + p.1
  {
    if pairs != [] {
      assert (pairs + [p])[1..] == pairs[1..] + [p];
      TotalAppend(pairs[1..], p);
    }
  }

  /** In buckets with distinct keys, a bucket's amount is the sum at its key. */
  lemma {:induction false} SumAtDistinct<K(!new)>(b: seq<(K, int)>, i: nat)
    requires Distinct(Keys(b))
    requires i < |b|
    ensures SumAt(b, b[i].0) == b[i].1
  {
    if i == 0 {
      SumAtAbsent(b[1..], b[0].0);
    } else {
      assert Distinct(Keys(b[1..]));
      SumAtDistinct(b[1..], i - 1);
    }
  }

  lemma {:induction false} SumAtAbsent<K(!new)>(b: seq<(K, int)>, k: K)
    requires k !in Keys(b)
    ensures SumAt(b, k) == 0
  {
    if b != [] {
      assert Keys(b[1..]) == Keys(b)[1..];
      SumAtAbsent(b[1..], k);
    }
  }

  /** Sorted buckets at strictly ascending keys. */
  predicate AscendingKeys<K>(b: seq<(K, int)>, key: K -> int) {
    forall i, j :: 0 <= i < j < |b| ==> key(b[i].0) < key(b[j].0)
  }

  lemma ConsKeys<K>(p: (K, int), rest: seq<(K, int)>)
    ensures Keys([p] + rest) == [p.0] + Keys(rest)
  {
  }

  lemma UnconsKeys<K>(b: seq<(K, int)>)
    requires b != []
    ensures Keys(b) == [b[0].0] + Keys(b[1..])
  {
  }

  lemma ConsSumAt<K(!new)>(p: (K, int), rest: seq<(K, int)>, j: K)
    ensures SumAt([p] + rest, j) == (if p.0 == j then p.1 else 0) + SumAt(rest, j)
  {
    assert ([p] + rest)[1..] == rest;
  }

  lemma ConsTotal<K>(p: (K, int), rest: seq<(K, int)>)
    ensures Total([p] + rest) == p.1 + Total(rest)
  {
    assert ([p] + rest)[1..] == rest;
  }

  /** A bucket in front of keys all above its own keeps the keys ascending. */
  lemma ConsAscending<K>(p: (K, int), rest: seq<(K, int)>, key: K -> int)
    requires AscendingKeys(rest, key)
    requires forall j :: j in Keys(rest) ==> key(p.0) < key(j)
    ensures AscendingKeys([p] + rest, key)
  {
    var r := [p] + rest;
    forall i, j | 0 <= i < j < |r| ensures key(r[i].0) < key(r[j].0) {
      assert r[j] == rest[j - 1];
      if i > 0 {
        assert r[i] == rest[i - 1];
      } else {
        assert Keys(rest)[j - 1] in Keys(rest);
      }
    }
  }

  /** Behind the first bucket of ascending buckets, the keys stay ascending and lie above its key. */
  lemma AscendingTail<K>(b: seq<(K, int)>, key: K -> int)
    requires b != [] && AscendingKeys(b, key)
    ensures AscendingKeys(b[1..], key)
    ensures forall j :: j in Keys(b[1..]) ==> key(b[0].0) < key(j)
  {
    var t := b[1..];
    forall i, j | 0 <= i < j < |t| ensures key(t[i].0) < key(t[j].0) {
      assert t[i] == b[i + 1] && t[j] == b[j + 1];
    }
    forall j | j in Keys(t) ensures key(b[0].0) < key(j) {
      var m :| 0 <= m < |t| && Keys(t)[m] == j;
      assert t[m] == b[m + 1];
    }
  }

  /** A bucket of b whose key value equals k's is k's own bucket. */
  predicate SameKeyAt<K(==)>(b: seq<(K, int)>, i: nat, k: K, key: K -> int)
    requires i < |b|
  {
    key(b[i].0) == key(k) ==> b[i].0 == k
  }

  predicate SameKeySameBucket<K(==)>(b: seq<(K, int)>, k: K, key: K -> int) {
    forall i :: 0 <= i < |b| ==> SameKeyAt(b, i, k, key)
  }

  lemma SameKeyTail<K>(b: seq<(K, int)>, k: K, key: K -> int)
    requires b != [] && SameKeySameBucket(b, k, key)
    ensures SameKeySameBucket(b[1..], k, key)
  {
    forall i | 0 <= i < |b[1..]| ensures SameKeyAt(b[1..], i, k, key) {
      assert b[1..][i] == b[i + 1] && SameKeyAt(b, i + 1, k, key);
    }
  }

  /** Adds a new bucket for k or extends k's bucket, keeping the keys in key order. */
  function AddSorted<K(==,!new)>(b: seq<(K, int)>, k: K, a: int, key: K -> int): (r: seq<(K, int)>)
    requires SameKeySameBucket(b, k, key)
    requires AscendingKeys(b, key)
    ensures AscendingKeys(r, key)
    ensures forall j :: j in Keys(r) <==> j == k || j in Keys(b)
  {
    if b == [] then
      ConsKeys((k, a), b);
      ConsAscending((k, a), b, key);
      [(k, a)] + b
    else
      UnconsKeys(b);
      AscendingTail(b, key);
      if key(k) < key(b[0].0) then
        ConsKeys((k, a), b);
        ConsAscending((k, a), b, key);
        [(k, a)] + b
      else if key(k) == key(b[0].0) then
        assert SameKeyAt(b, 0, k, key);
        ConsKeys((k, b[0].1 + a), b[1..]);
        ConsAscending((k, b[0].1 + a), b[1..], key);
        [(k, b[0].1 + a)] + b[1..]
      else
        SameKeyTail(b, k, key);
        var rest := AddSorted(b[1..], k, a, key);
        ConsKeys(b[0], rest);
        ConsAscending(b[0], rest, key);
        [b[0]] + rest
  }

  /** Adding to bucket k raises the sum at k by a and leaves every other sum as it was. */
  lemma {:induction false} AddSortedSumAt<K(!new)>(b: seq<(K, int)>, k: K, a: int, key: K -> int, j: K)
    requires SameKeySameBucket(b, k, key)
    requires AscendingKeys(b, key)
    ensures SumAt(AddSorted(b, k, a, key), j) == SumAt(b, j) + (if j == k then a else 0)
    ensures Total(AddSorted(b, k, a, key)) == Total(b) + a
  {
    if b == [] {
      ConsSumAt((k, a), b, j);
      ConsTotal((k, a), b);
    } else if key(k) < key(b[0].0) {
      ConsSumAt((k, a), b, j);
      ConsTotal((k, a), b);
    } else if key(k) == key(b[0].0) {
      assert SameKeyAt(b, 0, k, key);
      ConsSumAt((k, b[0].1 + a), b[1..], j);
      ConsTotal((k, b[0].1 + a), b[1..]);
    } else {
      SameKeyTail(b, k, key);
      AscendingTail(b, key);
      var rest := AddSorted(b[1..], k, a, key);
      AddSortedSumAt(b[1..], k, a, key, j);
      ConsSumAt(b[0], rest, j);
      ConsTotal(b[0], rest);
    }
  }

  /** groupby(key).sum(): one bucket per key present, ascending by key. */
  function GroupSorted<K(==,!new)>(pairs: seq<(K, int)>, key: K -> int): (r: seq<(K, int)>)
    requires Injective(key)
    ensures AscendingKeys(r, key)
    ensures forall j :: j in Keys(r) <==> j in Keys(pairs)
    ensures forall j :: SumAt(r, j) == SumAt(pairs, j)
    ensures Total(r) == Total(pairs)
  {
    if pairs == [] then []
    else
      UnconsKeys(pairs);
      var g := GroupSorted(pairs[1..], key);
      assert SameKeySameBucket(g, pairs[0].0, key);
      forall j ensures SumAt(AddSorted(g, pairs[0].0, pairs[0].1, key), j) == SumAt(pairs, j) {
        AddSortedSumAt(g, pairs[0].0, pairs[0].1, key, j);
      }
      AddSortedSumAt(g, pairs[0].0, pairs[0].1, key, pairs[0].0);
      AddSorted(g, pairs[0].0, pairs[0].1, key)
  }

  lemma DistinctTail<T(!new)>(s: seq<T>)
    requires s != [] && Distinct(s)
    ensures Distinct(s[1..]) && s[0] !in s[1..]
  {
    forall i, j | 0 <= i < j < |s[1..]| ensures s[1..][i] != s[1..][j] {
      assert s[1..][i] == s[i + 1] && s[1..][j] == s[j + 1];
    }
  }

  lemma DistinctAppend<T(!new)>(s: seq<T>, x: T)
    requires Distinct(s)
    ensures x !in s ==> Distinct(s + [x])
  {
    var r := s + [x];
    if x !in s {
      forall i, j | 0 <= i < j < |r| ensures r[i] != r[j] {
        assert r[i] == s[i];
        if j < |s| {
          assert r[j] == s[j];
        }
      }
    }
  }

  /** Adds a new bucket for k at the end, or extends k's bucket where it is. */
  function AddFirstSeen<K(==,!new)>(b: seq<(K, int)>, k: K, a: int): (r: seq<(K, int)>)
    requires Distinct(Keys(b))
    ensures Distinct(Keys(r))
    ensures Keys(r) == if k in Keys(b) then Keys(b) else Keys(b) + [k]
  {
    if b == [] then
      ConsKeys((k, a), b);
      assert Keys([(k, a)] + b) == Keys(b) + [k];
      DistinctAppend(Keys(b), k);
      [(k, a)] + b
    else
      UnconsKeys(b);
      DistinctTail(Keys(b));
      if b[0].0 == k then
        ConsKeys((k, b[0].1 + a), b[1..]);
        [(k, b[0].1 + a)] + b[1..]
      else
        var rest := AddFirstSeen(b[1..], k, a);
        ConsKeys(b[0], rest);
        assert [b[0].0] + (Keys(b[1..]) + [k]) == ([b[0].0] + Keys(b[1..])) + [k];
        DistinctAppend(Keys(b), k);
        [b[0]] + rest
  }

  /** Adding to bucket k raises the sum at k by a and leaves every other sum as it was. */
  lemma {:induction false} AddFirstSeenSumAt<K(!new)>(b: seq<(K, int)>, k: K, a: int, j: K)
    requires Distinct(Keys(b))
    ensures SumAt(AddFirstSeen(b, k, a), j) == SumAt(b, j) + (if j == k then a else 0)
    ensures Total(AddFirstSeen(b, k, a)) == Total(b) + a
  {
    if b == [] {
      ConsSumAt((k, a), [], j);
      ConsTotal((k, a), []);
    } else {
      UnconsKeys(b);
      if b[0].0 == k {
        ConsSumAt((k, b[0].1 + a), b[1..], j);
        ConsTotal((k, b[0].1 + a), b[1..]);
      } else {
        var rest := AddFirstSeen(b[1..], k, a);
        AddFirstSeenSumAt(b[1..], k, a, j);
        ConsSumAt(b[0], rest, j);
        ConsTotal(b[0], rest);
      }
    }
  }

  /** One bucket per key present, in the order the keys first appear. */
  function GroupFirstSeen<K(==,!new)>(pairs: seq<(K, int)>): (r: seq<(K, int)>)
    ensures Keys(r) == Dedup(Keys(pairs))
    ensures forall j :: SumAt(r, j) == SumAt(pairs, j)
    ensures Total(r) == Total(pairs)
  {
    if pairs == [] then []
    else
      var p := pairs[..|pairs| - 1];
      var x := pairs[|pairs| - 1];
      assert pairs == p + [x];
      assert Keys(pairs) == Keys(p) + [x.0];
      assert Keys(pairs)[..|pairs| - 1] == Keys(p);
      var g := GroupFirstSeen(p);
      TotalAppend(p, x);
      AddFirstSeenSumAt(g, x.0, x.1, x.0);
      forall j ensures SumAt(AddFirstSeen(g, x.0, x.1), j) == SumAt(pairs, j) {
        SumAtAppend(p, x, j);
        AddFirstSeenSumAt(g, x.0, x.1, j);
      }
      AddFirstSeen(g, x.0, x.1)
  }
}
