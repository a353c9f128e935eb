/** Amounts grouped by a key, and the sorting that puts the groups in one order.

    Journal aggregation, both filing renderers and the journal matcher all do the same
    thing in Go: add amounts into a map, collect the map's keys in no particular order,
    sort them, and print one line per key. This module holds the facts about that pattern. */
module Grouping {
  datatype Option<+T> = None | Some(value: T) {
    function GetOr(default: T): T { match this case None => default case Some(x) => x }
  }

  datatype Keyed<+K> = Keyed(key: K, amount: int)

  /** The sum of the amounts filed under `k`. */
  function Total<K(==)>(xs: seq<Keyed<K>>, k: K): int {
    if xs == [] then 0
    else
      var x := xs[|xs| - 1];
      Total(xs[..|xs| - 1], k) + if x.key == k then x.amount else 0
  }

  /** The sum of all amounts whose key satisfies `p`. */
  function SumWhere<K>(xs: seq<Keyed<K>>, p: K -> bool): int {
    if xs == [] then 0
    else
      var x := xs[|xs| - 1];
      SumWhere(xs[..|xs| - 1], p) + if p(x.key) then x.amount else 0
  }

  /** The sum, over the listed keys that satisfy `p`, of each key's total. */
  function SumOfTotals<K(==)>(keys: seq<K>, xs: seq<Keyed<K>>, p: K -> bool): int {
    if keys == [] then 0
    else
      var k := keys[|keys| - 1];
      SumOfTotals(keys[..|keys| - 1], xs, p) + if p(k) then Total(xs, k) else 0
  }

  function KeySet<K>(xs: seq<Keyed<K>>): set<K> {
    set x | x in xs :: x.key
  }

  lemma KeySetSnoc<K>(xs: seq<Keyed<K>>, x: Keyed<K>)
    ensures KeySet(xs + [x]) == KeySet(xs) + {x.key}
  {
    assert forall y :: y in xs + [x] <==> y in xs || y == x;
    assert x in xs + [x];
  }

  predicate Distinct<T(==)>(s: seq<T>) {
    forall i, j :: 0 <= i < j < |s| ==> s[i] != s[j]
  }

  function ToSet<T>(s: seq<T>): set<T> {
    set x | x in s
  }

  /** Keys in the order of their first occurrence. */
  function FirstKeys<K(==)>(xs: seq<Keyed<K>>): seq<K> {
    if xs == [] then []
    else
      var front := FirstKeys(xs[..|xs| - 1]);
      var k := xs[|xs| - 1].key;
      if k in front then front else front + [k]
  }

  lemma {:induction false} FirstKeysListKeys<K>(xs: seq<Keyed<K>>)
    ensures Distinct(FirstKeys(xs))
    ensures ToSet(FirstKeys(xs)) == KeySet(xs)
  {
    if xs != [] {
      var front := FirstKeys(xs[..|xs| - 1]);
      var k := xs[|xs| - 1].key;
      FirstKeysListKeys(xs[..|xs| - 1]);
      KeySetSnoc(xs[..|xs| - 1], xs[|xs| - 1]);
      assert xs == xs[..|xs| - 1] + [xs[|xs| - 1]];
      assert ToSet(front + [k]) == ToSet(front) + {k};
      assert k in front <==> k in ToSet(front);
    }
  }

  // ---------------------------------------------------------------------------
  // Sums
  // ---------------------------------------------------------------------------

  lemma {:induction false} TotalConcat<K>(a: seq<Keyed<K>>, b: seq<Keyed<K>>, k: K)
    ensures Total(a + b, k) == Total(a, k) + Total(b, k)
  {
    if b == [] {
      assert a + b == a;
    } else {
      var front := b[..|b| - 1];
      assert (a + b)[..|a + b| - 1] == a + front;
      TotalConcat(a, front, k);
    }
  }

  lemma {:induction false} SumWhereConcat<K>(a: seq<Keyed<K>>, b: seq<Keyed<K>>, p: K -> bool)
    ensures SumWhere(a + b, p) == SumWhere(a, p) + SumWhere(b, p)
  {
    if b == [] {
      assert a + b == a;
    } else {
      var front := b[..|b| - 1];
      assert (a + b)[..|a + b| - 1] == a + front;
      SumWhereConcat(a, front, p);
    }
  }

  lemma {:induction false} TotalOfAbsentKey<K>(xs: seq<Keyed<K>>, k: K)
    requires k !in KeySet(xs)
    ensures Total(xs, k) == 0
  {
    if xs != [] {
      assert xs[|xs| - 1] in xs;
      TotalOfAbsentKey(xs[..|xs| - 1], k);
    }
  }

  /** Removing one occurrence of `x` from `xs`. */
  lemma RemoveOne<T>(xs: seq<T>, x: T) returns (i: nat)
    requires x in xs
    ensures i < |xs| && xs[i] == x
    ensures multiset(xs[..i] + xs[i + 1..]) == multiset(xs) - multiset{x}
  {
    i :| i < |xs| && xs[i] == x;
    assert xs == xs[..i] + [x] + xs[i + 1..];
  }

  lemma TotalOfOne<K>(x: Keyed<K>, k: K)
    ensures Total([x], k) == if x.key == k then x.amount else 0
  {
    assert [x][..0] == [];
  }

  lemma TotalMiddle<K>(x: seq<Keyed<K>>, e: Keyed<K>, y: seq<Keyed<K>>, k: K)
    ensures Total(x + ([e] + y), k) == Total(x + y, k) + if e.key == k then e.amount else 0
  {
    hide Total;
    TotalConcat(x, [e] + y, k);
    TotalConcat([e], y, k);
    TotalConcat(x, y, k);
    TotalOfOne(e, k);
  }

  lemma TotalWithout<K>(b: seq<Keyed<K>>, i: nat, k: K)
    requires i < |b|
    ensures Total(b, k) == Total(b[..i] + b[i + 1..], k) + if b[i].key == k then b[i].amount else 0
  {
    hide Total;
    assert b == b[..i] + ([b[i]] + b[i + 1..]);
    TotalMiddle(b[..i], b[i], b[i + 1..], k);
  }

  /** A key's total does not depend on the order of the amounts. */
  lemma {:induction false} TotalPermutation<K>(a: seq<Keyed<K>>, b: seq<Keyed<K>>, k: K)
    requires multiset(a) == multiset(b)
    ensures Total(a, k) == Total(b, k)
    decreases |a|
  {
    assert |a| == |multiset(a)| == |b|;
    if a != [] {
      var x, front := a[|a| - 1], a[..|a| - 1];
      assert a == front + [x];
      assert x in multiset(b);
      var i := RemoveOne(b, x);
      assert multiset(front) == multiset(a) - multiset{x};
      TotalPermutation(front, b[..i] + b[i + 1..], k);
      TotalWithout(b, i, k);
    }
  }

  lemma {:induction false} SumOfTotalsSnoc<K>(keys: seq<K>, xs: seq<Keyed<K>>, x: Keyed<K>, p: K -> bool)
    requires Distinct(keys)
    ensures SumOfTotals(keys, xs + [x], p)
         == SumOfTotals(keys, xs, p) + if x.key in keys && p(x.key) then x.amount else 0
  {
    if keys != [] {
      var front, k := keys[..|keys| - 1], keys[|keys| - 1];
      assert keys == front + [k];
      assert (xs + [x])[..|xs|] == xs;
      SumOfTotalsSnoc(front, xs, x, p);
    }
  }

  lemma {:induction false} SumOfTotalsNone<K>(keys: seq<K>, p: K -> bool)
    ensures SumOfTotals(keys, [], p) == 0
  {
    if keys != [] { SumOfTotalsNone(keys[..|keys| - 1], p); }
  }

  /** Conservation: grouping loses nothing. If every key that occurs is listed once, the
      totals add up to the ungrouped sum. */
  lemma {:induction false} GroupingConserves<K>(keys: seq<K>, xs: seq<Keyed<K>>, p: K -> bool)
    requires Distinct(keys)
    requires KeySet(xs) <= ToSet(keys)
    ensures SumOfTotals(keys, xs, p) == SumWhere(xs, p)
  {
    if xs == [] {
      SumOfTotalsNone(keys, p);
    } else {
      var front, x := xs[..|xs| - 1], xs[|xs| - 1];
      assert xs == front + [x];
      assert x in xs && x.key in KeySet(xs);
      forall k | k in KeySet(front) ensures k in ToSet(keys) {
        var y :| y in front && y.key == k;
        assert y in xs;
      }
      GroupingConserves(keys, front, p);
      SumOfTotalsSnoc(keys, front, x, p);
    }
  }

  lemma KeySetPermutation<K>(a: seq<Keyed<K>>, b: seq<Keyed<K>>)
    requires multiset(a) == multiset(b)
    ensures KeySet(a) == KeySet(b)
  {
    forall x | x in a || x in b ensures x in a && x in b {
      assert x in multiset(a) && x in multiset(b);
    }
  }

  // ---------------------------------------------------------------------------
  // Sorting
  // ---------------------------------------------------------------------------

  ghost predicate TotalOrder<T(!new)>(leq: (T, T) -> bool) {
    && (forall a, b :: leq(a, b) || leq(b, a))
    && (forall a, b :: leq(a, b) && leq(b, a) ==> a == b)
    && (forall a, b, c :: leq(a, b) && leq(b, c) ==> leq(a, c))
  }

  ghost predicate Sorted<T>(s: seq<T>, leq: (T, T) -> bool) {
    forall i, j :: 0 <= i < j < |s| ==> leq(s[i], s[j])
  }

  function Insert<T>(x: T, s: seq<T>, leq: (T, T) -> bool): seq<T> {
    if s == [] then [x]
    else if leq(x, s[0]) then [x] + s
    else [s[0]] + Insert(x, s[1..], leq)
  }

  function SortBy<T>(s: seq<T>, leq: (T, T) -> bool): seq<T> {
    if s == [] then [] else Insert(s[0], SortBy(s[1..], leq), leq)
  }

  lemma {:induction false} InsertMultiset<T>(x: T, s: seq<T>, leq: (T, T) -> bool)
    ensures multiset(Insert(x, s, leq)) == multiset(s) + multiset{x}
  {
    if s != [] && !leq(x, s[0]) {
      InsertMultiset(x, s[1..], leq);
      assert s == [s[0]] + s[1..];
    }
  }

  lemma {:induction false} SortByMultiset<T>(s: seq<T>, leq: (T, T) -> bool)
    ensures multiset(SortBy(s, leq)) == multiset(s)
  {
    if s != [] {
      SortByMultiset(s[1..], leq);
      InsertMultiset(s[0], SortBy(s[1..], leq), leq);
      assert s == [s[0]] + s[1..];
    }
  }

  lemma {:induction false} InsertSorted<T(!new)>(x: T, s: seq<T>, leq: (T, T) -> bool)
    requires TotalOrder(leq) && Sorted(s, leq)
    ensures Sorted(Insert(x, s, leq), leq)
  {
    if s != [] && !leq(x, s[0]) {
      var rest := Insert(x, s[1..], leq);
      InsertSorted(x, s[1..], leq);
      InsertMultiset(x, s[1..], leq);
      forall y | y in rest ensures leq(s[0], y) {
        assert y in multiset(rest);
        assert y == x || y in s[1..];
      }
    } else if s != [] {
      forall y | y in s ensures leq(x, y) {
        assert y == s[0] || leq(s[0], y);
        assert leq(s[0], s[0]);
      }
    }
  }

  lemma {:induction false} SortByIsSorted<T(!new)>(s: seq<T>, leq: (T, T) -> bool)
    requires TotalOrder(leq)
    ensures Sorted(SortBy(s, leq), leq)
  {
    if s != [] {
      SortByIsSorted(s[1..], leq);
      InsertSorted(s[0], SortBy(s[1..], leq), leq);
    }
  }

  lemma SortedHead<T(!new)>(s: seq<T>, x: T, leq: (T, T) -> bool)
    requires TotalOrder(leq) && Sorted(s, leq) && x in s
    ensures leq(s[0], x)
  {
    var i :| 0 <= i < |s| && s[i] == x;
    if i == 0 { assert leq(x, x) || leq(x, x); }
  }

  lemma TailMultiset<T>(s: seq<T>)
    requires s != []
    ensures multiset(s[1..]) == multiset(s) - multiset{s[0]}
  {
    assert s == [s[0]] + s[1..];
  }

  /** Two sorted arrangements of the same elements are the same sequence. */
  lemma {:induction false} SortedUnique<T(!new)>(a: seq<T>, b: seq<T>, leq: (T, T) -> bool)
    requires TotalOrder(leq)
    requires Sorted(a, leq) && Sorted(b, leq)
    requires multiset(a) == multiset(b)
    ensures a == b
    decreases |a|
  {
    assert |a| == |multiset(a)| == |b|;
    if a != [] {
      assert a[0] == b[0] by {
        assert a[0] in multiset(b) && b[0] in multiset(a);
        SortedHead(a, b[0], leq);
        SortedHead(b, a[0], leq);
      }
      TailMultiset(a);
      TailMultiset(b);
      assert Sorted(a[1..], leq) && Sorted(b[1..], leq);
      SortedUnique(a[1..], b[1..], leq);
      assert a == [a[0]] + a[1..] && b == [b[0]] + b[1..];
    }
  }

  /** Sorting forgets the order it was given. */
  lemma SortCanonical<T(!new)>(a: seq<T>, b: seq<T>, leq: (T, T) -> bool)
    requires TotalOrder(leq)
    ensures SortBy(a, leq) == SortBy(b, leq) <==> multiset(a) == multiset(b)
  {
    SortByIsSorted(a, leq);
    SortByIsSorted(b, leq);
    SortByMultiset(a, leq);
    SortByMultiset(b, leq);
    if multiset(a) == multiset(b) {
      SortedUnique(SortBy(a, leq), SortBy(b, leq), leq);
    }
  }

  lemma {:induction false} DistinctMultiset<T>(s: seq<T>, x: T)
    requires Distinct(s)
    ensures multiset(s)[x] == if x in s then 1 else 0
  {
    if s != [] {
      var front := s[..|s| - 1];
      assert s == front + [s[|s| - 1]];
      DistinctMultiset(front, x);
    }
  }

  /** Two duplicate-free listings of one set hold the same elements. */
  lemma DistinctSameSet<T>(a: seq<T>, b: seq<T>)
    requires Distinct(a) && Distinct(b) && ToSet(a) == ToSet(b)
    ensures multiset(a) == multiset(b)
  {
    forall x ensures multiset(a)[x] == multiset(b)[x] {
      DistinctMultiset(a, x);
      DistinctMultiset(b, x);
      assert x in ToSet(a) <==> x in a;
      assert x in ToSet(b) <==> x in b;
    }
  }

  lemma RepeatedElement<T>(b: seq<T>, i: nat, j: nat)
    requires i < j < |b| && b[i] == b[j]
    ensures multiset(b)[b[i]] >= 2
  {
    assert b == b[..i] + [b[i]] + b[i + 1..j] + [b[j]] + b[j + 1..];
  }

  lemma DistinctOfMultiset<T>(a: seq<T>, b: seq<T>)
    requires Distinct(a) && multiset(a) == multiset(b)
    ensures Distinct(b) && ToSet(a) == ToSet(b)
  {
    forall x ensures x in a <==> x in b {
      assert x in multiset(a) <==> x in multiset(b);
    }
    forall i, j | 0 <= i < j < |b| ensures b[i] != b[j] {
      if b[i] == b[j] {
        RepeatedElement(b, i, j);
        DistinctMultiset(a, b[i]);
        assert false;
      }
    }
  }

  /** The keys of `xs`, each once, in order. */
  function SortedKeys<K(==)>(xs: seq<Keyed<K>>, leq: (K, K) -> bool): seq<K> {
    SortBy(FirstKeys(xs), leq)
  }

  lemma SortedKeysListKeys<K>(xs: seq<Keyed<K>>, leq: (K, K) -> bool)
    ensures Distinct(SortedKeys(xs, leq))
    ensures ToSet(SortedKeys(xs, leq)) == KeySet(xs)
  {
    FirstKeysListKeys(xs);
    SortByMultiset(FirstKeys(xs), leq);
    DistinctOfMultiset(FirstKeys(xs), SortedKeys(xs, leq));
  }

  /** However the keys of a map are enumerated, sorting them gives the same list. */
  lemma SortedKeysCanonical<K(!new)>(xs: seq<Keyed<K>>, listed: seq<K>, leq: (K, K) -> bool)
    requires TotalOrder(leq)
    requires Distinct(listed) && ToSet(listed) == KeySet(xs)
    ensures SortBy(listed, leq) == SortedKeys(xs, leq)
  {
    FirstKeysListKeys(xs);
    DistinctSameSet(listed, FirstKeys(xs));
    SortCanonical(listed, FirstKeys(xs), leq);
  }

  lemma SortedKeysPermutation<K(!new)>(a: seq<Keyed<K>>, b: seq<Keyed<K>>, leq: (K, K) -> bool)
    requires TotalOrder(leq)
    requires multiset(a) == multiset(b)
    ensures SortedKeys(a, leq) == SortedKeys(b, leq)
  {
    KeySetPermutation(a, b);
    FirstKeysListKeys(b);
    SortedKeysCanonical(a, FirstKeys(b), leq);
  }

  // ---------------------------------------------------------------------------
  // Maps of totals
  // ---------------------------------------------------------------------------

  ghost predicate Tabulates<K>(totals: map<K, int>, lines: seq<Keyed<K>>) {
    totals.Keys == KeySet(lines) && forall k :: k in totals ==> totals[k] == Total(lines, k)
  }

  /** `totals[key] += amount`: a missing key counts as zero. */
  function Add<K(==)>(totals: map<K, int>, key: K, amount: int): map<K, int> {
    totals[key := (if key in totals then totals[key] else 0) + amount]
  }

  lemma TotalSnoc<K>(lines: seq<Keyed<K>>, l: Keyed<K>, k: K)
    ensures Total(lines + [l], k) == Total(lines, k) + if l.key == k then l.amount else 0
  {
    assert (lines + [l])[..|lines|] == lines;
  }

  lemma AddTabulates<K>(totals: map<K, int>, lines: seq<Keyed<K>>, l: Keyed<K>)
    requires Tabulates(totals, lines)
    ensures Tabulates(Add(totals, l.key, l.amount), lines + [l])
  {
    KeySetSnoc(lines, l);
    if l.key !in totals { TotalOfAbsentKey(lines, l.key); }
    forall k ensures Total(lines + [l], k) == Total(lines, k) + if l.key == k then l.amount else 0 { TotalSnoc(lines, l, k); }
  }

  /** Collects the keys of a map, in whatever order the map yields them, and sorts them. */
  method SortedMapKeys<K(!new, ==)>(keys: set<K>, leq: (K, K) -> bool,
                                    ghost lines: seq<Keyed<K>>) returns (sorted: seq<K>)
    requires TotalOrder(leq) && keys == KeySet(lines)
    ensures sorted == SortedKeys(lines, leq)
    ensures ToSet(sorted) == keys
  {
    hide TotalOrder, SortedKeys;
    sorted := [];
    var rest := keys;
    while rest != {}
      invariant Distinct(sorted)
      invariant ToSet(sorted) == keys - rest
      invariant rest <= keys
      decreases rest
    {
      var k :| k in rest;
      assert k !in sorted by { assert k !in ToSet(sorted); }
      assert ToSet(sorted + [k]) == ToSet(sorted) + {k};
      sorted := sorted + [k];
      rest := rest - {k};
    }
    SortedKeysCanonical(lines, sorted, leq);
    SortedKeysListKeys(lines, leq);
    sorted := SortBy(sorted, leq);
  }

  // ---------------------------------------------------------------------------
  // Mapping
  // ---------------------------------------------------------------------------

  function MapSeq<A, B>(f: A -> B, s: seq<A>): (r: seq<B>)
    ensures |r| == |s|
    ensures forall i :: 0 <= i < |s| ==> r[i] == f(s[i])
  {
    seq(|s|, i requires 0 <= i < |s| => f(s[i]))
  }

  /** The values `f` finds in `s`, in order. */
  function Collect<A, B>(f: A -> Option<B>, s: seq<A>): seq<B> {
    if s == [] then []
    else
      match f(s[|s| - 1])
      case None => Collect(f, s[..|s| - 1])
      case Some(x) => Collect(f, s[..|s| - 1]) + [x]
  }

  lemma CancelOne<T>(a: multiset<T>, b: multiset<T>, x: T)
    requires a + multiset{x} == b + multiset{x}
    ensures a == b
  {
    assert a == (a + multiset{x}) - multiset{x};
    assert b == (b + multiset{x}) - multiset{x};
  }

  lemma MapMiddle<A, B>(f: A -> B, x: seq<A>, e: A, y: seq<A>)
    ensures MapSeq(f, x + ([e] + y)) == MapSeq(f, x) + ([f(e)] + MapSeq(f, y))
    ensures MapSeq(f, x + y) == MapSeq(f, x) + MapSeq(f, y)
  {}

  lemma MiddleOut<T>(x: seq<T>, e: T, y: seq<T>)
    ensures multiset(x + ([e] + y)) == multiset(x + y) + multiset{e}
  {}

  lemma TakeOut<A, B>(f: A -> B, s: seq<A>, i: nat) returns (rest: seq<A>)
    requires i < |s|
    ensures |rest| == |s| - 1
    ensures multiset(s) == multiset(rest) + multiset{s[i]}
    ensures multiset(MapSeq(f, s)) == multiset(MapSeq(f, rest)) + multiset{f(s[i])}
  {
    var x, e, y := s[..i], s[i], s[i + 1..];
    rest := x + y;
    assert s == x + ([e] + y);
    MapMiddle(f, x, e, y);
    var mx, my := MapSeq(f, x), MapSeq(f, y);
    MiddleOut(x, e, y);
    MiddleOut(mx, f(e), my);
  }

  lemma {:induction false} MapPermutation<A, B>(f: A -> B, a: seq<A>, b: seq<A>)
    requires multiset(a) == multiset(b)
    ensures multiset(MapSeq(f, a)) == multiset(MapSeq(f, b))
    decreases |a|
  {
    assert |a| == |multiset(a)| == |b|;
    if a != [] {
      assert a[0] in multiset(b);
      var j :| 0 <= j < |b| && b[j] == a[0];
      var ra := TakeOut(f, a, 0);
      var rb := TakeOut(f, b, j);
      CancelOne(multiset(ra), multiset(rb), a[0]);
      MapPermutation(f, ra, rb);
    }
  }

  lemma CollectSnoc<A, B>(f: A -> Option<B>, s: seq<A>, x: A)
    ensures Collect(f, s + [x]) == match f(x) case None => Collect(f, s) case Some(y) => Collect(f, s) + [y]
  {
    assert (s + [x])[..|s|] == s;
  }

  lemma {:induction false} CollectConcat<A, B>(f: A -> Option<B>, a: seq<A>, b: seq<A>)
    ensures Collect(f, a + b) == Collect(f, a) + Collect(f, b)
  {
    if b == [] {
      assert a + b == a;
    } else {
      CollectConcat(f, a, b[..|b| - 1]);
      assert (a + b)[..|a + b| - 1] == a + b[..|b| - 1];
    }
  }

  function ToMultiset<T>(o: Option<T>): multiset<T> { match o case None => multiset{} case Some(x) => multiset{x} }

  lemma CollectOne<A, B>(f: A -> Option<B>, x: A)
    ensures multiset(Collect(f, [x])) == ToMultiset(f(x))
  {
    assert [x][..0] == [];
  }

  lemma CollectMiddle<A, B>(f: A -> Option<B>, x: seq<A>, e: A, y: seq<A>)
    ensures multiset(Collect(f, x + ([e] + y))) == multiset(Collect(f, x + y)) + ToMultiset(f(e))
  {
    hide Collect;
    CollectConcat(f, x, [e] + y);
    CollectConcat(f, [e], y);
    CollectConcat(f, x, y);
    CollectOne(f, e);
  }

  lemma CollectTakeOut<A, B>(f: A -> Option<B>, s: seq<A>, i: nat) returns (rest: seq<A>)
    requires i < |s|
    ensures |rest| == |s| - 1
    ensures multiset(s) == multiset(rest) + multiset{s[i]}
    ensures multiset(Collect(f, s)) == multiset(Collect(f, rest)) + ToMultiset(f(s[i]))
  {
    hide Collect;
    var x, e, y := s[..i], s[i], s[i + 1..];
    rest := x + y;
    assert s == x + ([e] + y);
    MiddleOut(x, e, y);
    CollectMiddle(f, x, e, y);
  }

  lemma {:induction false} CollectPermutation<A, B>(f: A -> Option<B>, a: seq<A>, b: seq<A>)
    requires multiset(a) == multiset(b)
    ensures multiset(Collect(f, a)) == multiset(Collect(f, b))
    decreases |a|
  {
    hide Collect;
    assert |a| == |multiset(a)| == |b|;
    if a == [] {
      assert b == [];
    } else {
      assert a[0] in multiset(b);
      var j :| 0 <= j < |b| && b[j] == a[0];
      var ra := CollectTakeOut(f, a, 0);
      var rb := CollectTakeOut(f, b, j);
      CancelOne(multiset(ra), multiset(rb), a[0]);
      CollectPermutation(f, ra, rb);
    }
  }

  ghost predicate Injective<A(!new), B>(f: A -> B) {
    forall x, y :: f(x) == f(y) ==> x == y
  }

  lemma {:induction false} MapReflects<A(!new), B>(f: A -> B, a: seq<A>, b: seq<A>)
    requires Injective(f)
    requires multiset(MapSeq(f, a)) == multiset(MapSeq(f, b))
    ensures multiset(a) == multiset(b)
    decreases |a|
  {
    assert |a| == |multiset(MapSeq(f, a))| == |multiset(MapSeq(f, b))| == |b|;
    if a != [] {
      assert f(a[0]) == MapSeq(f, a)[0] && MapSeq(f, a)[0] in multiset(MapSeq(f, b));
      var j :| 0 <= j < |b| && MapSeq(f, b)[j] == f(a[0]);
      assert b[j] == a[0];
      var ra := TakeOut(f, a, 0);
      var rb := TakeOut(f, b, j);
      CancelOne(multiset(MapSeq(f, ra)), multiset(MapSeq(f, rb)), f(a[0]));
      MapReflects(f, ra, rb);
    }
  }
}
