/**
 * `Array.prototype.filter`, `map`-style updates, `reduce` sums and `sort`,
 * as the components use them on their record lists.
 */
module Seqs {

  /** `a` can be obtained from `b` by deleting elements: order is preserved. */
  predicate IsSubsequence<T(==)>(a: seq<T>, b: seq<T>)
    decreases |b|
  {
    a == [] || (b != [] && ((a[0] == b[0] && IsSubsequence(a[1..], b[1..])) || IsSubsequence(a, b[1..])))
  }

  /** Removing the element at `i` leaves a subsequence. */
  lemma {:induction false} SubsequenceSkip<T>(s: seq<T>, i: int)
    requires 0 <= i < |s|
    ensures IsSubsequence(s[..i] + s[i + 1..], s)
    decreases i
  {
    if i == 0 {
      assert s[..0] + s[1..] == s[1..];
      SubsequenceRefl(s[1..]);
    } else {
      SubsequenceSkip(s[1..], i - 1);
      var r := s[..i] + s[i + 1..];
      assert r[0] == s[0];
      assert r[1..] == s[1..][..i - 1] + s[1..][i..];
    }
  }

  /** Every list is a subsequence of itself. */
  lemma {:induction false} SubsequenceRefl<T>(s: seq<T>)
    ensures IsSubsequence(s, s)
    decreases |s|
  {
    if s != [] {
      SubsequenceRefl(s[1..]);
    }
  }

  /** `s.filter(p)`. */
  function Filter<T(==,!new)>(s: seq<T>, p: T -> bool): (r: seq<T>)
    ensures |r| <= |s|
    ensures forall i :: 0 <= i < |r| ==> p(r[i])
    ensures forall x :: multiset(r)[x] == if p(x) then multiset(s)[x] else 0
    ensures IsSubsequence(r, s)
  {
    if s == [] then []
    else
      var rest := Filter(s[1..], p);
      assert s == [s[0]] + s[1..];
      if p(s[0]) then [s[0]] + rest else rest
  }

  /** `s.map(f)`. */
  function Map<A, B>(s: seq<A>, f: A -> B): (r: seq<B>)
    ensures |r| == |s|
    ensures forall i :: 0 <= i < |s| ==> r[i] == f(s[i])
  {
    if s == [] then [] else [f(s[0])] + Map(s[1..], f)
  }

  /** Mapping a concatenation maps each part. */
  lemma {:induction false} MapAppend<A, B>(a: seq<A>, b: seq<A>, f: A -> B)
    ensures Map(a + b, f) == Map(a, f) + Map(b, f)
  {
    if a != [] {
      assert (a + b)[1..] == a[1..] + b;
      MapAppend(a[1..], b, f);
    } else {
      assert a + b == b;
    }
  }

  /** Filtering with a predicate every element meets changes nothing. */
  lemma {:induction false} FilterAll<T(!new)>(s: seq<T>, p: T -> bool)
    requires forall i :: 0 <= i < |s| ==> p(s[i])
    ensures Filter(s, p) == s
  {
    if s != [] {
      FilterAll(s[1..], p);
      assert s == [s[0]] + s[1..];
    }
  }

  /** A filter stage that only runs when `active` is still a filter by `p`, as long as `p` holds when it is off. */
  lemma FilterWhen<T(!new)>(s: seq<T>, active: bool, p: T -> bool)
    requires !active ==> forall x :: p(x)
    ensures (if active then Filter(s, p) else s) == Filter(s, p)
  {
    if !active {
      FilterAll(s, p);
    }
  }

  /** Filtering a list with a new first element: that element, if it passes, then the rest filtered. */
  lemma FilterCons<T(!new)>(x: T, s: seq<T>, p: T -> bool)
    ensures Filter([x] + s, p) == (if p(x) then [x] else []) + Filter(s, p)
  {
    assert ([x] + s)[1..] == s;
  }

  /** Membership in a filtered list: exactly the elements that pass. */
  lemma FilterMembers<T(!new)>(s: seq<T>, p: T -> bool, x: T)
    ensures x in Filter(s, p) <==> x in s && p(x)
  {
    assert x in Filter(s, p) <==> multiset(Filter(s, p))[x] > 0;
    assert x in s <==> multiset(s)[x] > 0;
  }

  /** Two filters in a row keep what the conjunction `pq` keeps. */
  lemma {:induction false} FilterFilter<T(!new)>(s: seq<T>, p: T -> bool, q: T -> bool, pq: T -> bool)
    requires forall x :: pq(x) == (p(x) && q(x))
    ensures Filter(Filter(s, p), q) == Filter(s, pq)
  {
    if s != [] {
      FilterFilter(s[1..], p, q, pq);
    }
  }

  /** Filters by two disjoint predicates together keep what their disjunction `pq` keeps. */
  lemma FilterUnion<T(!new)>(s: seq<T>, p: T -> bool, q: T -> bool, pq: T -> bool)
    requires forall x :: !(p(x) && q(x))
    requires forall x :: pq(x) == (p(x) || q(x))
    ensures multiset(Filter(s, p)) + multiset(Filter(s, q)) == multiset(Filter(s, pq))
  {
    forall x
      ensures (multiset(Filter(s, p)) + multiset(Filter(s, q)))[x] == multiset(Filter(s, pq))[x]
    {
    }
  }

  /** A stricter filter keeps a subset of what a weaker one keeps. */
  lemma FilterMonotone<T(!new)>(s: seq<T>, p: T -> bool, q: T -> bool)
    requires forall x :: p(x) ==> q(x)
    ensures multiset(Filter(s, p)) <= multiset(Filter(s, q))
  {
  }

  /** `s.reduce((sum, x) => sum + f(x), 0)`. */
  function Sum<T>(s: seq<T>, f: T -> int): int {
    if s == [] then 0 else f(s[0]) + Sum(s[1..], f)
  }

  lemma {:induction false} SumAppend<T>(a: seq<T>, b: seq<T>, f: T -> int)
    ensures Sum(a + b, f) == Sum(a, f) + Sum(b, f)
  {
    if a != [] {
      assert (a + b)[1..] == a[1..] + b;
      SumAppend(a[1..], b, f);
    } else {
      assert a + b == b;
    }
  }

  /** `s.filter(p).length`. */
  function Count<T>(s: seq<T>, p: T -> bool): (n: nat)
    ensures n <= |s|
  {
    if s == [] then 0 else (if p(s[0]) then 1 else 0) + Count(s[1..], p)
  }

  lemma {:induction false} CountIsFilterLength<T(!new)>(s: seq<T>, p: T -> bool)
    ensures Count(s, p) == |Filter(s, p)|
  {
    if s != [] {
      CountIsFilterLength(s[1..], p);
    }
  }

  /** Every element is counted exactly when every element passes. */
  lemma {:induction false} CountAll<T>(s: seq<T>, p: T -> bool)
    ensures Count(s, p) == |s| <==> forall i :: 0 <= i < |s| ==> p(s[i])
  {
    if s != [] {
      CountAll(s[1..], p);
      assert forall i :: 1 <= i < |s| ==> s[i] == s[1..][i - 1];
    }
  }

  /** `s.reverse()`. */
  function Reverse<T>(s: seq<T>): (r: seq<T>)
    ensures |r| == |s|
    ensures forall i :: 0 <= i < |s| ==> r[i] == s[|s| - 1 - i]
  {
    if s == [] then [] else Reverse(s[1..]) + [s[0]]
  }

  /** Reversing keeps the elements and, with them, the absence of duplicates. */
  lemma ReverseMembers<T>(s: seq<T>)
    ensures forall x :: x in Reverse(s) <==> x in s
    ensures NoDuplicates(s) ==> NoDuplicates(Reverse(s))
  {
    var r := Reverse(s);
    forall x | x in s
      ensures x in r
    {
      var i :| 0 <= i < |s| && s[i] == x;
      assert r[|s| - 1 - i] == x;
    }
  }

  /** `le` is total and transitive: a comparator that `sort` can order by. */
  ghost predicate TotalPreorder<T(!new)>(le: (T, T) -> bool) {
    && (forall a, b :: le(a, b) || le(b, a))
    && (forall a, b, c :: le(a, b) && le(b, c) ==> le(a, c))
  }

  predicate Sorted<T>(s: seq<T>, le: (T, T) -> bool) {
    forall i, j :: 0 <= i < j < |s| ==> le(s[i], s[j])
  }

  /** Place `x` before the first element it may precede. */
  function Insert<T>(x: T, s: seq<T>, le: (T, T) -> bool): (r: seq<T>)
    ensures multiset(r) == multiset(s) + multiset{x}
    ensures |r| == |s| + 1
  {
    if s == [] || le(x, s[0]) then [x] + s
    else
      assert s == [s[0]] + s[1..];
      [s[0]] + Insert(x, s[1..], le)
  }

  /** A stable insertion sort: the order `Array.prototype.sort` gives a consistent comparator. */
  function SortBy<T>(s: seq<T>, le: (T, T) -> bool): (r: seq<T>)
    ensures multiset(r) == multiset(s)
    ensures |r| == |s|
  {
    if s == [] then []
    else
      assert s == [s[0]] + s[1..];
      Insert(s[0], SortBy(s[1..], le), le)
  }

  /**
   * `le` is a total preorder on the values that satisfy `ok`: values a
   * comparator can order consistently (NaN, for one, cannot be).
   */
  ghost predicate PreorderOn<T(!new)>(le: (T, T) -> bool, ok: T -> bool) {
    && (forall a, b :: ok(a) && ok(b) ==> le(a, b) || le(b, a))
    && (forall a, b, c :: ok(a) && ok(b) && ok(c) && le(a, b) && le(b, c) ==> le(a, c))
  }

  lemma {:induction false} InsertSorted<T(!new)>(x: T, s: seq<T>, le: (T, T) -> bool, ok: T -> bool)
    requires PreorderOn(le, ok)
    requires ok(x) && forall y :: y in s ==> ok(y)
    requires Sorted(s, le)
    ensures Sorted(Insert(x, s, le), le)
  {
    if s == [] || le(x, s[0]) {
    } else {
      InsertSorted(x, s[1..], le, ok);
      var r := Insert(x, s[1..], le);
      assert le(s[0], x);
      forall k | 0 <= k < |r|
        ensures le(s[0], r[k])
      {
        assert r[k] in multiset(r);
        assert r[k] == x || r[k] in multiset(s[1..]);
        if r[k] != x {
          var j :| 0 <= j < |s[1..]| && s[1..][j] == r[k];
          assert s[j + 1] == r[k];
        }
      }
    }
  }

  /** When every element is orderable, `SortBy` returns a sorted permutation of its input. */
  lemma {:induction false} SortBySortedOn<T(!new)>(s: seq<T>, le: (T, T) -> bool, ok: T -> bool)
    requires PreorderOn(le, ok)
    requires forall y :: y in s ==> ok(y)
    ensures Sorted(SortBy(s, le), le)
    ensures multiset(SortBy(s, le)) == multiset(s)
  {
    if s != [] {
      SortBySortedOn(s[1..], le, ok);
      var rest := SortBy(s[1..], le);
      forall y | y in rest
        ensures ok(y)
      {
        assert y in multiset(rest);
        assert y in multiset(s[1..]);
      }
      InsertSorted(s[0], rest, le, ok);
    }
  }

  /** Under a total preorder, `SortBy` returns a sorted permutation of its input. */
  lemma SortBySorted<T(!new)>(s: seq<T>, le: (T, T) -> bool)
    requires TotalPreorder(le)
    ensures Sorted(SortBy(s, le), le)
    ensures multiset(SortBy(s, le)) == multiset(s)
  {
    SortBySortedOn(s, le, (x: T) => true);
  }

  /** `s.filter(p).sort(cmp)`: a sorted permutation of exactly the elements that pass. */
  lemma FilterThenSort<T(!new)>(s: seq<T>, p: T -> bool, le: (T, T) -> bool)
    requires TotalPreorder(le)
    ensures var r := SortBy(Filter(s, p), le);
      && multiset(r) == multiset(Filter(s, p))
      && (forall x :: x in r <==> x in s && p(x))
      && Sorted(r, le)
  {
    var kept := Filter(s, p);
    SortBySorted(kept, le);
    var r := SortBy(kept, le);
    forall x
      ensures x in r <==> x in s && p(x)
    {
      FilterMembers(s, p, x);
      assert x in r <==> x in multiset(r);
      assert x in kept <==> x in multiset(kept);
    }
  }

  /** The first element after sorting may precede every element. */
  lemma SortedHead<T(!new)>(s: seq<T>, le: (T, T) -> bool)
    requires TotalPreorder(le)
    requires s != []
    ensures SortBy(s, le)[0] in s
    ensures forall i :: 0 <= i < |s| ==> le(SortBy(s, le)[0], s[i])
  {
    var sorted := SortBy(s, le);
    SortBySorted(s, le);
    assert sorted[0] in multiset(s);
    forall i | 0 <= i < |s|
      ensures le(sorted[0], s[i])
    {
      assert s[i] in multiset(sorted);
      var j :| 0 <= j < |sorted| && sorted[j] == s[i];
    }
  }

  /**
   * The sort is stable at its head: the first element after sorting is the
   * first of `s` that no earlier element may precede.
   */
  lemma {:induction false} SortedHeadIsFirst<T>(s: seq<T>, le: (T, T) -> bool)
    requires s != []
    ensures exists k :: 0 <= k < |s| && SortBy(s, le)[0] == s[k] && forall i :: 0 <= i < k ==> !le(s[i], s[k])
  {
    var t := SortBy(s[1..], le);
    if t == [] || le(s[0], t[0]) {
      assert SortBy(s, le)[0] == s[0];
    } else {
      SortedHeadIsFirst(s[1..], le);
      var k :| 0 <= k < |s[1..]| && t[0] == s[1..][k] && forall i :: 0 <= i < k ==> !le(s[1..][i], s[1..][k]);
      assert SortBy(s, le)[0] == s[k + 1];
      forall i | 0 <= i < k + 1
        ensures !le(s[i], s[k + 1])
      {
        if i > 0 {
          assert s[i] == s[1..][i - 1];
        }
      }
    }
  }

  /** A comparator that never says "after" leaves the list as it is (`return 0`). */
  lemma {:induction false} SortByAllEqual<T>(s: seq<T>, le: (T, T) -> bool)
    requires forall a, b :: le(a, b)
    ensures SortBy(s, le) == s
  {
    if s != [] {
      SortByAllEqual(s[1..], le);
    }
  }

  /** Keys that are integers, ascending or descending. */
  lemma IntKeyPreorder<T(!new)>(key: T -> int, ascending: bool)
    ensures TotalPreorder((a: T, b: T) => if ascending then key(a) <= key(b) else key(b) <= key(a))
  {
  }

  predicate NoDuplicates<T(==)>(s: seq<T>) {
    forall i, j :: 0 <= i < j < |s| ==> s[i] != s[j]
  }

  /** A list with a new first element is duplicate-free when the rest is and does not hold it. */
  lemma NoDuplicatesCons<T>(x: T, s: seq<T>)
    ensures NoDuplicates([x] + s) <==> x !in s && NoDuplicates(s)
  {
    var t := [x] + s;
    assert forall i :: 0 <= i < |s| ==> t[i + 1] == s[i];
    if x in s {
      var i :| 0 <= i < |s| && s[i] == x;
      assert t[0] == t[i + 1];
    }
  }

  lemma {:induction false} NoDuplicatesCount<T>(s: seq<T>, x: T)
    requires NoDuplicates(s)
    ensures multiset(s)[x] <= 1
    decreases |s|
  {
    if s != [] {
      assert s == [s[0]] + s[1..];
      NoDuplicatesCount(s[1..], x);
      if s[0] == x {
        assert x !in s[1..];
      }
    }
  }

  /** A permutation of a duplicate-free list is duplicate-free. */
  lemma NoDuplicatesPermutation<T>(a: seq<T>, b: seq<T>)
    requires NoDuplicates(a)
    requires multiset(a) == multiset(b)
    ensures NoDuplicates(b)
  {
    forall i, j | 0 <= i < j < |b|
      ensures b[i] != b[j]
    {
      if b[i] == b[j] {
        assert b == b[..j] + [b[j]] + b[j + 1..];
        assert b[i] in b[..j];
        assert multiset(b)[b[j]] >= 2;
        NoDuplicatesCount(a, b[j]);
      }
    }
  }

  /** Adding the elements of `s` one by one to the insertion-ordered set `acc`. */
  function DistinctInto<T(==,!new)>(acc: seq<T>, s: seq<T>): (r: seq<T>)
    requires NoDuplicates(acc)
    ensures NoDuplicates(r)
    ensures forall x :: x in r <==> x in acc || x in s
    ensures |acc| <= |r| && r[..|acc|] == acc
    decreases |s|
  {
    if s == [] then acc
    else DistinctInto(if s[0] in acc then acc else acc + [s[0]], s[1..])
  }

  /** Running `DistinctInto` over `s + t` is running it over `s`, then over `t`. */
  lemma {:induction false} DistinctIntoAppend<T(!new)>(acc: seq<T>, s: seq<T>, t: seq<T>)
    requires NoDuplicates(acc)
    ensures DistinctInto(acc, s + t) == DistinctInto(DistinctInto(acc, s), t)
    decreases |s|
  {
    if s == [] {
      assert s + t == t;
    } else {
      assert (s + t)[0] == s[0];
      assert (s + t)[1..] == s[1..] + t;
      DistinctIntoAppend(if s[0] in acc then acc else acc + [s[0]], s[1..], t);
    }
  }

  /** `Set.prototype.add` on the set built so far: a new value goes last, a known one changes nothing. */
  lemma DistinctIntoSnoc<T(!new)>(s: seq<T>, x: T)
    ensures DistinctInto([], s + [x]) == DistinctInto([], s) + (if x in s then [] else [x])
  {
    DistinctIntoAppend([], s, [x]);
    assert [x][1..] == [];
  }

  /**
   * `r` lists values in order of their first occurrence in `s`: wherever a
   * later value of `r` occurs in `s`, an earlier value of `r` has already occurred.
   */
  ghost predicate FirstOccurrenceOrder<T>(r: seq<T>, s: seq<T>) {
    forall i, j, k :: 0 <= i < j < |r| && 0 <= k < |s| && s[k] == r[j] ==> r[i] in s[..k]
  }

  lemma {:induction false} DistinctIntoOrder<T(!new)>(s: seq<T>)
    ensures FirstOccurrenceOrder(DistinctInto([], s), s)
    decreases |s|
  {
    if s != [] {
      var p, x := s[..|s| - 1], s[|s| - 1];
      assert s == p + [x];
      DistinctIntoOrder(p);
      DistinctIntoSnoc(p, x);
      if x in p {
        OrderSnocKnown(DistinctInto([], p), p, x);
      } else {
        OrderSnocNew(DistinctInto([], p), p, x);
      }
    }
  }

  /** A value already seen keeps the order when it occurs again. */
  lemma OrderSnocKnown<T>(r: seq<T>, p: seq<T>, x: T)
    requires FirstOccurrenceOrder(r, p) && x in p
    ensures FirstOccurrenceOrder(r, p + [x])
  {
    var s := p + [x];
    forall i, j, k | 0 <= i < j < |r| && 0 <= k < |s| && s[k] == r[j]
      ensures r[i] in s[..k]
    {
      if k < |p| {
        assert s[k] == p[k] && p[..k] == s[..k];
      } else {
        var k0 :| 0 <= k0 < |p| && p[k0] == x;
        assert r[i] in p[..k0];
        assert p[..k0] == s[..k0] && s[..k0] <= s[..k];
      }
    }
  }

  /** A new value goes last, after every value seen before it. */
  lemma OrderSnocNew<T>(r: seq<T>, p: seq<T>, x: T)
    requires FirstOccurrenceOrder(r, p) && x !in p
    requires forall y :: y in r ==> y in p
    ensures FirstOccurrenceOrder(r + [x], p + [x])
  {
    var s, r' := p + [x], r + [x];
    forall i, j, k | 0 <= i < j < |r'| && 0 <= k < |s| && s[k] == r'[j]
      ensures r'[i] in s[..k]
    {
      assert r'[i] == r[i];
      if j < |r| {
        assert r'[j] == r[j] && r[j] in p;
        assert k < |p|;
        assert s[k] == p[k] && p[..k] == s[..k];
      } else {
        assert r[i] in p;
        assert k == |p|;
        assert s[..k] == p;
      }
    }
  }

  /** `[...new Set(s)]`: each value once, in order of first occurrence. */
  function Distinct<T(==,!new)>(s: seq<T>): (r: seq<T>)
    ensures NoDuplicates(r)
    ensures forall x :: x in r <==> x in s
    ensures FirstOccurrenceOrder(r, s)
  {
    DistinctIntoOrder(s);
    DistinctInto([], s)
  }

  /** The keys of an insertion-ordered list of (key, total) entries, as `Object.keys` lists them. */
  function Keys<K>(entries: seq<(K, int)>): (r: seq<K>)
    ensures |r| == |entries|
    ensures forall i :: 0 <= i < |r| ==> r[i] == entries[i].0
  {
    if entries == [] then [] else [entries[0].0] + Keys(entries[1..])
  }

  lemma KeysCons<K>(e: (K, int), rest: seq<(K, int)>)
    ensures Keys([e] + rest) == [e.0] + Keys(rest)
    ensures SumValues([e] + rest) == e.1 + SumValues(rest)
  {
    assert ([e] + rest)[1..] == rest;
  }

  function SumValues<K>(entries: seq<(K, int)>): int {
    if entries == [] then 0 else entries[0].1 + SumValues(entries[1..])
  }

  /** `acc[k] = (acc[k] || 0) + v` on an object whose keys keep insertion order. */
  function AddTo<K(==)>(acc: seq<(K, int)>, k: K, v: int): seq<(K, int)> {
    if acc == [] then [(k, v)]
    else if acc[0].0 == k then [(k, acc[0].1 + v)] + acc[1..]
    else [acc[0]] + AddTo(acc[1..], k, v)
  }

  /** The key is added at the end when it is new, the keys stay distinct, and the values grow by `v`. */
  lemma AddToSpec<K>(acc: seq<(K, int)>, k: K, v: int)
    ensures Keys(AddTo(acc, k, v)) == if k in Keys(acc) then Keys(acc) else Keys(acc) + [k]
    ensures NoDuplicates(Keys(acc)) ==> NoDuplicates(Keys(AddTo(acc, k, v)))
    ensures SumValues(AddTo(acc, k, v)) == SumValues(acc) + v
  {
    AddToKeys(acc, k, v);
    AddToSum(acc, k, v);
  }

  lemma {:induction false} AddToKeys<K>(acc: seq<(K, int)>, k: K, v: int)
    ensures Keys(AddTo(acc, k, v)) == if k in Keys(acc) then Keys(acc) else Keys(acc) + [k]
    ensures NoDuplicates(Keys(acc)) ==> NoDuplicates(Keys(AddTo(acc, k, v)))
  {
    if acc != [] {
      var tail := acc[1..];
      KeysCons(acc[0], tail);
      assert acc == [acc[0]] + tail;
      NoDuplicatesCons(acc[0].0, Keys(tail));
      if acc[0].0 == k {
        KeysCons((k, acc[0].1 + v), tail);
      } else {
        AddToKeys(tail, k, v);
        var rest := AddTo(tail, k, v);
        KeysCons(acc[0], rest);
        NoDuplicatesCons(acc[0].0, Keys(rest));
      }
    }
  }

  lemma {:induction false} AddToSum<K>(acc: seq<(K, int)>, k: K, v: int)
    ensures SumValues(AddTo(acc, k, v)) == SumValues(acc) + v
  {
    if acc != [] {
      var tail := acc[1..];
      KeysCons(acc[0], tail);
      assert acc == [acc[0]] + tail;
      if acc[0].0 == k {
        KeysCons((k, acc[0].1 + v), tail);
      } else {
        AddToSum(tail, k, v);
        KeysCons(acc[0], AddTo(tail, k, v));
      }
    }
  }

  /** Some element of `s` has key `k`. */
  predicate HasKey<T, K(==)>(s: seq<T>, key: T -> K, k: K) {
    exists i :: 0 <= i < |s| && key(s[i]) == k
  }

  lemma HasKeySnoc<T, K(!new)>(s: seq<T>, key: T -> K)
    requires s != []
    ensures forall k :: HasKey(s, key, k) <==> HasKey(s[..|s| - 1], key, k) || key(s[|s| - 1]) == k
  {
    var n := |s| - 1;
    forall k
      ensures HasKey(s, key, k) <==> HasKey(s[..n], key, k) || key(s[n]) == k
    {
      if HasKey(s[..n], key, k) {
        var i :| 0 <= i < n && key(s[..n][i]) == k;
        assert key(s[i]) == k;
      }
      if HasKey(s, key, k) {
        var i :| 0 <= i < |s| && key(s[i]) == k;
        if i < n {
          assert key(s[..n][i]) == k;
        }
      }
    }
  }

  lemma SumSnoc<T>(s: seq<T>, f: T -> int)
    requires s != []
    ensures Sum(s, f) == Sum(s[..|s| - 1], f) + f(s[|s| - 1])
  {
    var n := |s| - 1;
    assert s == s[..n] + [s[n]];
    SumAppend(s[..n], [s[n]], f);
  }

  /** The sum of `val` over the elements of `s` whose key is `k`. */
  function SumWhere<T, K(==)>(s: seq<T>, key: T -> K, val: T -> int, k: K): int {
    if s == [] then 0 else (if key(s[0]) == k then val(s[0]) else 0) + SumWhere(s[1..], key, val, k)
  }

  /** `SumWhere` is the sum over the list filtered by the key. */
  lemma {:induction false} SumWhereIsFilteredSum<T(!new), K>(s: seq<T>, key: T -> K, val: T -> int, k: K, p: T -> bool)
    requires forall x :: p(x) == (key(x) == k)
    ensures SumWhere(s, key, val, k) == Sum(Filter(s, p), val)
  {
    if s != [] {
      SumWhereIsFilteredSum(s[1..], key, val, k, p);
      FilterCons(s[0], s[1..], p);
      assert [s[0]] + s[1..] == s;
      SumAppend(if p(s[0]) then [s[0]] else [], Filter(s[1..], p), val);
    }
  }

  lemma {:induction false} SumWhereAppend<T, K>(a: seq<T>, b: seq<T>, key: T -> K, val: T -> int, k: K)
    ensures SumWhere(a + b, key, val, k) == SumWhere(a, key, val, k) + SumWhere(b, key, val, k)
  {
    if a != [] {
      assert (a + b)[1..] == a[1..] + b;
      SumWhereAppend(a[1..], b, key, val, k);
    } else {
      assert a + b == b;
    }
  }

  lemma SumWhereSnoc<T, K>(s: seq<T>, key: T -> K, val: T -> int)
    requires s != []
    ensures forall k ::
      SumWhere(s, key, val, k) == SumWhere(s[..|s| - 1], key, val, k) + (if key(s[|s| - 1]) == k then val(s[|s| - 1]) else 0)
  {
    var n := |s| - 1;
    assert s == s[..n] + [s[n]];
    forall k
      ensures SumWhere(s, key, val, k) == SumWhere(s[..n], key, val, k) + (if key(s[n]) == k then val(s[n]) else 0)
    {
      SumWhereAppend(s[..n], [s[n]], key, val, k);
    }
  }

  /** `entries[k] || 0`: the value of the first entry with key `k`, or 0 when there is none. */
  function ValueOf<K(==)>(entries: seq<(K, int)>, k: K): int {
    if entries == [] then 0 else if entries[0].0 == k then entries[0].1 else ValueOf(entries[1..], k)
  }

  /** Adding `v` under `k` raises the value of `k` by `v` and leaves every other key's value alone. */
  lemma {:induction false} AddToValue<K>(acc: seq<(K, int)>, k: K, v: int)
    ensures forall j :: ValueOf(AddTo(acc, k, v), j) == ValueOf(acc, j) + (if j == k then v else 0)
  {
    if acc != [] && acc[0].0 != k {
      AddToValue(acc[1..], k, v);
      assert AddTo(acc, k, v)[1..] == AddTo(acc[1..], k, v);
    }
  }

  /** With distinct keys, each entry's value is the value of its key. */
  lemma {:induction false} ValueOfAt<K>(entries: seq<(K, int)>, i: int)
    requires NoDuplicates(Keys(entries))
    requires 0 <= i < |entries|
    ensures entries[i].1 == ValueOf(entries, entries[i].0)
  {
    if i > 0 {
      var tail := entries[1..];
      KeysCons(entries[0], tail);
      assert entries == [entries[0]] + tail;
      NoDuplicatesCons(entries[0].0, Keys(tail));
      assert Keys(entries)[0] != Keys(entries)[i];
      ValueOfAt(tail, i - 1);
    }
  }

  /** `s.reduce((acc, x) => { acc[key(x)] = (acc[key(x)] || 0) + val(x); return acc }, {})`. */
  function Totals<T, K(==,!new)>(s: seq<T>, key: T -> K, val: T -> int): (r: seq<(K, int)>)
    ensures NoDuplicates(Keys(r))
    ensures forall k :: k in Keys(r) <==> HasKey(s, key, k)
    ensures SumValues(r) == Sum(s, val)
    ensures forall k :: ValueOf(r, k) == SumWhere(s, key, val, k)
    decreases |s|
  {
    if s == [] then []
    else
      var n := |s| - 1;
      SumSnoc(s, val);
      HasKeySnoc(s, key);
      SumWhereSnoc(s, key, val);
      AddToSpec(Totals(s[..n], key, val), key(s[n]), val(s[n]));
      AddToValue(Totals(s[..n], key, val), key(s[n]), val(s[n]));
      AddTo(Totals(s[..n], key, val), key(s[n]), val(s[n]))
  }

  /** Each entry of `Totals` holds the sum of `val` over exactly the elements with that entry's key. */
  lemma TotalsEntries<T, K(!new)>(s: seq<T>, key: T -> K, val: T -> int)
    ensures forall i :: 0 <= i < |Totals(s, key, val)| ==>
      Totals(s, key, val)[i].1 == SumWhere(s, key, val, Totals(s, key, val)[i].0)
  {
    var r := Totals(s, key, val);
    forall i | 0 <= i < |r|
      ensures r[i].1 == SumWhere(s, key, val, r[i].0)
    {
      ValueOfAt(r, i);
    }
  }
}
