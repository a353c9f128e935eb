/** A sorted table with one line per key, in which blank lines are left out.

    Both filing files are such tables. A table is determined by its values: which blank keys
    were present, and in which order, leaves no trace. */
module Listing {
  import opened Grouping

  datatype Line<+K, +V> = Line(key: K, value: V)

  function Lines<K, V(==)>(keys: seq<K>, value: K -> V, blank: V): seq<Line<K, V>> {
    if keys == [] then []
    else
      var k := keys[|keys| - 1];
      Lines(keys[..|keys| - 1], value, blank) + if value(k) == blank then [] else [Line(k, value(k))]
  }

  function KeysOf<K, V>(lines: seq<Line<K, V>>): (keys: seq<K>)
    ensures |keys| == |lines|
    ensures forall i :: 0 <= i < |lines| ==> keys[i] == lines[i].key
  {
    seq(|lines|, i requires 0 <= i < |lines| => lines[i].key)
  }

  function SumOf<K, V>(lines: seq<Line<K, V>>, measure: V -> int): int {
    if lines == [] then 0 else SumOf(lines[..|lines| - 1], measure) + measure(lines[|lines| - 1].value)
  }

  function Always<K>(): K -> bool { (k: K) => true }

  /** Leaving out blank lines loses nothing: the listed values add up to the totals. */
  lemma {:induction false} LinesConserve<K, V>(keys: seq<K>, value: K -> V, blank: V, measure: V -> int,
                                               xs: seq<Keyed<K>>)
    requires measure(blank) == 0
    requires forall i :: 0 <= i < |keys| ==> measure(value(keys[i])) == Total(xs, keys[i])
    ensures SumOf(Lines(keys, value, blank), measure) == SumOfTotals(keys, xs, Always())
  {
    if keys != [] {
      var front, k := keys[..|keys| - 1], keys[|keys| - 1];
      LinesConserve(front, value, blank, measure, xs);
      var lines := Lines(front, value, blank);
      assert (lines + [Line(k, value(k))])[..|lines|] == lines;
      assert lines + [] == lines;
    }
  }

  /** The listed keys are the given ones without the blank ones, in the same order. */
  lemma {:induction false} LinesFaithful<K(!new), V>(keys: seq<K>, value: K -> V, blank: V, leq: (K, K) -> bool)
    requires Distinct(keys) && Sorted(keys, leq)
    ensures var lines := Lines(keys, value, blank);
      && Distinct(KeysOf(lines)) && Sorted(KeysOf(lines), leq)
      && (forall k :: k in KeysOf(lines) <==> k in keys && value(k) != blank)
      && (forall i :: 0 <= i < |lines| ==> lines[i].value == value(lines[i].key))
  {
    if keys != [] {
      var front, k := keys[..|keys| - 1], keys[|keys| - 1];
      LinesFaithful(front, value, blank, leq);
      var lines := Lines(front, value, blank);
      assert keys == front + [k];
      if value(k) != blank {
        LastKey(lines, Line(k, value(k)), front, leq);
      } else {
        assert lines + [] == lines;
      }
    }
  }

  lemma LastKey<K(!new), V>(lines: seq<Line<K, V>>, l: Line<K, V>, front: seq<K>, leq: (K, K) -> bool)
    requires Distinct(KeysOf(lines)) && Sorted(KeysOf(lines), leq)
    requires forall k :: k in KeysOf(lines) ==> k in front
    requires Distinct(front + [l.key]) && Sorted(front + [l.key], leq)
    ensures KeysOf(lines + [l]) == KeysOf(lines) + [l.key]
    ensures Distinct(KeysOf(lines + [l])) && Sorted(KeysOf(lines + [l]), leq)
  {
    var all := front + [l.key];
    forall k | k in KeysOf(lines) ensures leq(k, l.key) && k != l.key {
      var i :| 0 <= i < |front| && front[i] == k;
      assert all[i] == k && all[|front|] == l.key;
    }
    var keys := KeysOf(lines);
    forall i | 0 <= i < |keys| ensures leq(keys[i], l.key) && keys[i] != l.key { assert keys[i] in keys; }
    assert KeysOf(lines + [l]) == keys + [l.key];
  }

  /** Whoever is not listed among the keys is blank. */
  ghost predicate Covers<K(!new), V>(keys: seq<K>, value: K -> V, blank: V) {
    forall k :: k !in keys ==> value(k) == blank
  }

  lemma SameKeys<K(!new), V>(a: seq<Line<K, V>>, b: seq<Line<K, V>>, leq: (K, K) -> bool)
    requires TotalOrder(leq)
    requires Distinct(KeysOf(a)) && Sorted(KeysOf(a), leq) && Distinct(KeysOf(b)) && Sorted(KeysOf(b), leq)
    requires forall k :: k in KeysOf(a) <==> k in KeysOf(b)
    ensures KeysOf(a) == KeysOf(b)
  {
    assert ToSet(KeysOf(a)) == ToSet(KeysOf(b));
    DistinctSameSet(KeysOf(a), KeysOf(b));
    SortedUnique(KeysOf(a), KeysOf(b), leq);
  }

  /** Two tables are equal exactly when every key has the same value in both. */
  lemma LinesDetermineValues<K(!new), V(!new)>(keys1: seq<K>, value1: K -> V, keys2: seq<K>, value2: K -> V, blank: V,
                                               leq: (K, K) -> bool)
    requires TotalOrder(leq)
    requires Distinct(keys1) && Sorted(keys1, leq) && Covers(keys1, value1, blank)
    requires Distinct(keys2) && Sorted(keys2, leq) && Covers(keys2, value2, blank)
    ensures Lines(keys1, value1, blank) == Lines(keys2, value2, blank) <==> forall k :: value1(k) == value2(k)
  {
    var a, b := Lines(keys1, value1, blank), Lines(keys2, value2, blank);
    LinesFaithful(keys1, value1, blank, leq);
    LinesFaithful(keys2, value2, blank, leq);
    if forall k :: value1(k) == value2(k) {
      SameKeys(a, b, leq);
      SameLines(a, b, value1, value2);
    }
    if a == b {
      forall k ensures value1(k) == value2(k) {
        if k in KeysOf(a) { ValueAt(a, value1, k); ValueAt(b, value2, k); }
      }
    }
  }

  lemma ValueAt<K, V>(lines: seq<Line<K, V>>, value: K -> V, k: K)
    requires k in KeysOf(lines) && forall i :: 0 <= i < |lines| ==> lines[i].value == value(lines[i].key)
    ensures Line(k, value(k)) in lines
    ensures forall l :: l in lines && l.key == k ==> l.value == value(k)
  {
    var i :| 0 <= i < |lines| && KeysOf(lines)[i] == k;
    assert lines[i] == Line(k, value(k));
  }

  lemma SameLines<K(!new), V>(a: seq<Line<K, V>>, b: seq<Line<K, V>>, value1: K -> V, value2: K -> V)
    requires KeysOf(a) == KeysOf(b)
    requires forall i :: 0 <= i < |a| ==> a[i].value == value1(a[i].key)
    requires forall i :: 0 <= i < |b| ==> b[i].value == value2(b[i].key)
    requires forall k :: value1(k) == value2(k)
    ensures a == b
  {
    forall i | 0 <= i < |a| ensures a[i] == b[i] {
      assert KeysOf(a)[i] == KeysOf(b)[i];
    }
  }

  /** The sorted keys of some amounts cover every value that is blank where nothing is filed. */
  lemma SortedKeysCover<K(!new), V>(xs: seq<Keyed<K>>, leq: (K, K) -> bool, value: K -> V, blank: V)
    requires TotalOrder(leq)
    requires forall k :: k !in KeySet(xs) ==> value(k) == blank
    ensures var keys := SortedKeys(xs, leq); Distinct(keys) && Sorted(keys, leq) && Covers(keys, value, blank)
  {
    SortedKeysListKeys(xs, leq);
    SortByIsSorted(FirstKeys(xs), leq);
    forall k | k !in SortedKeys(xs, leq) ensures value(k) == blank { assert k !in ToSet(SortedKeys(xs, leq)); }
  }
}
