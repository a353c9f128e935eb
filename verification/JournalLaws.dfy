/** What a journal made by `Aggregate` promises: it balances, every line is the exact sum
    of its facts, and neither the order of the facts nor aggregating again changes it. */
module JournalLaws {
  import opened Grouping
  import opened Text
  import opened Ledger
  import opened Journal

  function DebitSum(items: seq<JournalItem>): int {
    if items == [] then 0 else DebitSum(items[..|items| - 1]) + items[|items| - 1].debit
  }

  function CreditSum(items: seq<JournalItem>): int {
    if items == [] then 0 else CreditSum(items[..|items| - 1]) + items[|items| - 1].credit
  }

  // ---------------------------------------------------------------------------
  // Lines and facts
  // ---------------------------------------------------------------------------

  function IsCreditKey(key: string): bool { !IsDebitKey(key) }

  lemma {:induction false} LinesSumByDirection(facts: seq<Fact>)
    ensures SumWhere(Lines(facts), IsDebitKey) == SumDirection(facts, Debit)
    ensures SumWhere(Lines(facts), IsCreditKey) == SumDirection(facts, Credit)
  {
    hide IsDebitKey, KeyAccount, LineKey;
    if facts != [] {
      var front, f := facts[..|facts| - 1], facts[|facts| - 1];
      LinesSumByDirection(front);
      assert Lines(facts)[..|facts| - 1] == Lines(front);
      LineKeyParses(f.account, f.direction);
    }
  }

  lemma {:induction false} LinesTotal(facts: seq<Fact>, account: int, direction: Direction)
    ensures Total(Lines(facts), LineKey(account, direction)) == AmountOn(facts, account, direction)
  {
    if facts != [] {
      var front, f := facts[..|facts| - 1], facts[|facts| - 1];
      LinesTotal(front, account, direction);
      assert Lines(facts)[..|facts| - 1] == Lines(front);
      LineKeyInjective(f.account, f.direction, account, direction);
    }
  }

  lemma {:induction false} ItemsSum(keys: seq<string>, lines: seq<Keyed<string>>)
    ensures DebitSum(ItemsFor(keys, lines)) == SumOfTotals(keys, lines, IsDebitKey)
    ensures CreditSum(ItemsFor(keys, lines)) == SumOfTotals(keys, lines, IsCreditKey)
  {
    if keys != [] {
      var front := keys[..|keys| - 1];
      ItemsSum(front, lines);
      assert ItemsFor(keys, lines)[..|keys| - 1] == ItemsFor(front, lines);
    }
  }

  /** Printing a day as lines keeps both sums. */
  lemma ItemsConserve(facts: seq<Fact>)
    ensures DebitSum(ItemsOf(Lines(facts))) == SumDirection(facts, Debit)
    ensures CreditSum(ItemsOf(Lines(facts))) == SumDirection(facts, Credit)
  {
    var lines := Lines(facts);
    var keys := SortedKeys(lines, StringLeq);
    SortedKeysListKeys(lines, StringLeq);
    ItemsSum(keys, lines);
    GroupingConserves(keys, lines, IsDebitKey);
    GroupingConserves(keys, lines, IsCreditKey);
    LinesSumByDirection(facts);
  }

  lemma RoundingCloses(facts: seq<Fact>, r: Fact, diff: int)
    requires diff == Difference(facts) && diff != 0
    requires r.amount == Abs(diff) && r.direction == if diff > 0 then Credit else Debit
    ensures Difference(facts + [r]) == 0
  {
    assert (facts + [r])[..|facts|] == facts;
  }

  // ---------------------------------------------------------------------------
  // The aggregate's promises
  // ---------------------------------------------------------------------------

  /** It fails exactly when the day is out of balance by more than the tolerance. Otherwise
      both sides of the journal are equal, and the rounding line is exactly the difference
      on the side that lacks it. */
  lemma AggregateBalances(facts: seq<Fact>, account: int, tolerance: int, id: nat)
    ensures var diff, r := Difference(facts), Aggregate(facts, account, tolerance, id);
      && (r.Unbalanced? <==> diff != 0 && Abs(diff) > tolerance)
      && (r.Balanced? ==>
        && DebitSum(r.items) == CreditSum(r.items) == r.debitTotal == r.creditTotal
        && Difference(WithRounding(facts, r.rounding)) == 0
        && (r.rounding.None? <==> diff == 0)
        && (r.rounding.Some? ==>
          && facts != []
          && r.rounding.value.account == account
          && r.rounding.value.amount == Abs(diff)
          && r.rounding.value.direction == (if diff > 0 then Credit else Debit)
          && r.rounding.value.date == facts[0].date
          && r.rounding.value.group == r.rounding.value.factType == "rounding"
          && r.rounding.value.status == Pending && r.rounding.value.taxCase == None && r.rounding.value.payload == None))
  {
    var r := Aggregate(facts, account, tolerance, id);
    if r.Balanced? {
      var all := WithRounding(facts, r.rounding);
      ItemsConserve(all);
      if r.rounding.Some? { RoundingCloses(facts, r.rounding.value, Difference(facts)); }
    }
  }

  predicate Occurs(facts: seq<Fact>, account: int, direction: Direction) {
    exists f :: f in facts && f.account == account && f.direction == direction
  }

  function LineItem(account: int, direction: Direction, amount: int): JournalItem {
    if direction == Debit then JournalItem(account, amount, 0) else JournalItem(account, 0, amount)
  }

  function HeadOf(key: string): (int, Direction) {
    (KeyAccount(key), if IsDebitKey(key) then Debit else Credit)
  }

  lemma KeyComesFromFact(facts: seq<Fact>, key: string)
    requires key in KeySet(Lines(facts))
    ensures key == LineKey(HeadOf(key).0, HeadOf(key).1)
    ensures Occurs(facts, HeadOf(key).0, HeadOf(key).1)
  {
    var l :| l in Lines(facts) && l.key == key;
    var j :| 0 <= j < |facts| && Lines(facts)[j] == l;
    LineKeyParses(facts[j].account, facts[j].direction);
  }

  lemma FactHasKey(facts: seq<Fact>, account: int, direction: Direction)
    requires Occurs(facts, account, direction)
    ensures LineKey(account, direction) in KeySet(Lines(facts))
    ensures HeadOf(LineKey(account, direction)) == (account, direction)
  {
    var f :| f in facts && f.account == account && f.direction == direction;
    var j :| 0 <= j < |facts| && facts[j] == f;
    assert Lines(facts)[j] == LineOf(f);
    LineKeyParses(account, direction);
  }

  function Heads(keys: seq<string>): (heads: seq<(int, Direction)>)
    ensures |heads| == |keys|
  {
    seq(|keys|, i requires 0 <= i < |keys| => HeadOf(keys[i]))
  }

  /** Every (account, direction) that occurs among the facts has exactly one line, every line belongs
      to one that occurs, its amount is the exact sum, and the lines are in the order of their keys. */
  lemma ItemsExact(facts: seq<Fact>) returns (heads: seq<(int, Direction)>)
    ensures Distinct(heads)
    ensures forall a, d :: (a, d) in heads <==> Occurs(facts, a, d)
    ensures |ItemsOf(Lines(facts))| == |heads|
    ensures forall i :: 0 <= i < |heads| ==>
      ItemsOf(Lines(facts))[i] == LineItem(heads[i].0, heads[i].1, AmountOn(facts, heads[i].0, heads[i].1))
    ensures forall i, j :: 0 <= i < j < |heads| ==> StringLeq(LineKey(heads[i].0, heads[i].1), LineKey(heads[j].0, heads[j].1))
  {
    StringOrder();
    SortByIsSorted(FirstKeys(Lines(facts)), StringLeq);
    var keys := SortedKeys(Lines(facts), StringLeq);
    heads := Heads(keys);
    SortedKeysListKeys(Lines(facts), StringLeq);
    forall i | 0 <= i < |keys|
      ensures keys[i] == LineKey(heads[i].0, heads[i].1) && Occurs(facts, heads[i].0, heads[i].1)
      ensures ItemsOf(Lines(facts))[i] == LineItem(heads[i].0, heads[i].1, AmountOn(facts, heads[i].0, heads[i].1))
    {
      assert keys[i] in ToSet(keys);
      KeyComesFromFact(facts, keys[i]);
      LinesTotal(facts, heads[i].0, heads[i].1);
    }
    forall a, d | Occurs(facts, a, d) ensures (a, d) in heads {
      FactHasKey(facts, a, d);
      assert LineKey(a, d) in ToSet(keys);
      var i :| 0 <= i < |keys| && keys[i] == LineKey(a, d);
      assert heads[i] == (a, d);
    }
  }

  // ---------------------------------------------------------------------------
  // Order and repetition
  // ---------------------------------------------------------------------------

  lemma LinesOfPermutation(a: seq<Fact>, b: seq<Fact>)
    requires multiset(a) == multiset(b)
    ensures multiset(Lines(a)) == multiset(Lines(b))
  {
    MapPermutation(LineOf, a, b);
    assert Lines(a) == MapSeq(LineOf, a) && Lines(b) == MapSeq(LineOf, b);
  }

  lemma {:induction false} SumOfTotalsPermutation(keys: seq<string>, a: seq<Keyed<string>>, b: seq<Keyed<string>>,
                                                  p: string -> bool)
    requires multiset(a) == multiset(b)
    ensures SumOfTotals(keys, a, p) == SumOfTotals(keys, b, p)
  {
    if keys != [] {
      SumOfTotalsPermutation(keys[..|keys| - 1], a, b, p);
      TotalPermutation(a, b, keys[|keys| - 1]);
    }
  }

  /** Facts with the same lines give the same items and the same difference. */
  lemma SameLinesSameJournal(a: seq<Fact>, b: seq<Fact>)
    requires multiset(Lines(a)) == multiset(Lines(b))
    ensures ItemsOf(Lines(a)) == ItemsOf(Lines(b))
    ensures SumDirection(a, Debit) == SumDirection(b, Debit)
    ensures SumDirection(a, Credit) == SumDirection(b, Credit)
  {
    StringOrder();
    SortedKeysPermutation(Lines(a), Lines(b), StringLeq);
    var keys := SortedKeys(Lines(a), StringLeq);
    forall k ensures Total(Lines(a), k) == Total(Lines(b), k) { TotalPermutation(Lines(a), Lines(b), k); }
    assert ItemsOf(Lines(a)) == ItemsOf(Lines(b));
    ItemsConserve(a);
    ItemsConserve(b);
  }

  lemma FirstDate(a: seq<Fact>, b: seq<Fact>, date: Date)
    requires multiset(a) == multiset(b) && a != []
    requires forall f :: f in a ==> f.date == date
    ensures b != [] && a[0].date == b[0].date == date
  {
    assert |b| == |multiset(b)| == |a|;
    assert a[0] in a;
    assert b[0] in multiset(b) && b[0] in multiset(a);
  }

  lemma SameJournalWith(a: seq<Fact>, b: seq<Fact>, f: Fact)
    requires multiset(a) == multiset(b)
    ensures ItemsOf(Lines(a + [f])) == ItemsOf(Lines(b + [f]))
    ensures SumDirection(a + [f], Debit) == SumDirection(b + [f], Debit)
    ensures SumDirection(a + [f], Credit) == SumDirection(b + [f], Credit)
  {
    LinesOfPermutation(a + [f], b + [f]);
    SameLinesSameJournal(a + [f], b + [f]);
  }

  lemma AggregateCases(a: seq<Fact>, account: int, tolerance: int, id: nat)
    ensures Difference(a) == 0 ==>
      Aggregate(a, account, tolerance, id) == Balanced(ItemsOf(Lines(a)), None, SumDirection(a, Debit), SumDirection(a, Credit))
    ensures Difference(a) != 0 ==> a != []
    ensures Difference(a) != 0 && Abs(Difference(a)) > tolerance ==>
      Aggregate(a, account, tolerance, id) == Unbalanced(SumDirection(a, Debit), SumDirection(a, Credit))
    ensures Difference(a) != 0 && Abs(Difference(a)) <= tolerance ==>
      var f := RoundingFact(id, a[0].date, Difference(a), account);
      Aggregate(a, account, tolerance, id)
        == Balanced(ItemsOf(Lines(a + [f])), Some(f), SumDirection(a + [f], Debit), SumDirection(a + [f], Credit))
  {}

  /** The order in which facts are listed does not matter. Only the date stamped on a
      rounding line is read from the first fact, so it takes one date for all of them. */
  lemma AggregatePermutation(a: seq<Fact>, b: seq<Fact>, account: int, tolerance: int, id: nat, date: Date)
    requires multiset(a) == multiset(b)
    requires forall f :: f in a ==> f.date == date
    ensures Aggregate(a, account, tolerance, id) == Aggregate(b, account, tolerance, id)
  {
    hide Aggregate, ItemsOf, Lines, SumDirection;
    AggregateCases(a, account, tolerance, id);
    AggregateCases(b, account, tolerance, id);
    LinesOfPermutation(a, b);
    SameLinesSameJournal(a, b);
    if Difference(a) != 0 {
      FirstDate(a, b, date);
      var f := RoundingFact(id, date, Difference(a), account);
      SameJournalWith(a, b, f);
    }
  }

  /** Aggregating what was booked, rounding line included, gives the same journal again,
      whatever the rounding account and the tolerance are by then. */
  lemma ReaggregateStable(facts: seq<Fact>, account: int, tolerance: int, id: nat, account': int, tolerance': int,
                          id': nat)
    requires Aggregate(facts, account, tolerance, id).Balanced?
    ensures var r := Aggregate(facts, account, tolerance, id);
      Aggregate(WithRounding(facts, r.rounding), account', tolerance', id')
        == Balanced(r.items, None, r.debitTotal, r.creditTotal)
  {
    AggregateBalances(facts, account, tolerance, id);
  }
}
