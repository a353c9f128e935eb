/** internal/accounting/journal.go: facts of one day become the lines of one journal. */
module Journal {
  import opened Grouping
  import opened Text
  import opened Ledger

  /** Amounts are in ore; Go divides by 100 when it fills the float fields. */
  datatype JournalItem = JournalItem(account: int, debit: int, credit: int)

  datatype Aggregation =
    | Balanced(items: seq<JournalItem>, rounding: Option<Fact>, debitTotal: int, creditTotal: int)
    | Unbalanced(debit: int, credit: int)

  // ---------------------------------------------------------------------------
  // The "account:direction" key
  // ---------------------------------------------------------------------------

  function LineKey(account: int, direction: Direction): string {
    DecInt(account) + ":" + direction.Text()
  }

  function Split(s: string, c: char): (parts: seq<string>)
    ensures parts != []
  {
    if s == [] then [""]
    else
      var rest := Split(s[1..], c);
      if s[0] == c then [""] + rest else [[s[0]] + rest[0]] + rest[1..]
  }

  function KeyAccount(key: string): int { ScanInt(Split(key, ':')[0]) }

  predicate IsDebitKey(key: string) {
    var parts := Split(key, ':');
    |parts| > 1 && parts[1] == "debit"
  }

  lemma {:induction false} SplitWithout(s: string, c: char)
    requires c !in s
    ensures Split(s, c) == [s]
  {
    if s != [] {
      SplitWithout(s[1..], c);
      assert s == [s[0]] + s[1..];
    }
  }

  lemma {:induction false} SplitOnce(a: string, b: string, c: char)
    requires c !in a && c !in b
    ensures Split(a + [c] + b, c) == [a, b]
  {
    if a == [] {
      assert a + [c] + b == [c] + b;
      assert ([c] + b)[1..] == b;
      SplitWithout(b, c);
    } else {
      SplitOnce(a[1..], b, c);
      assert (a + [c] + b)[1..] == a[1..] + [c] + b;
      assert a == [a[0]] + a[1..];
    }
  }

  lemma DecIntHasNoColon(n: int)
    ensures ':' !in DecInt(n)
  {
    var a: nat := if n < 0 then -n else n;
    assert ':' !in Dec(a) by { assert AllDigits(Dec(a)); }
  }

  /** Printing the key and parsing it back loses nothing. */
  lemma LineKeyParses(account: int, direction: Direction)
    ensures KeyAccount(LineKey(account, direction)) == account
    ensures IsDebitKey(LineKey(account, direction)) <==> direction == Debit
  {
    DecIntHasNoColon(account);
    SplitOnce(DecInt(account), direction.Text(), ':');
    ScanOfDecInt(account, "");
    assert DecInt(account) + "" == DecInt(account);
    assert "debit" != "credit" by { assert "debit"[0] != "credit"[0]; }
  }

  lemma LineKeyInjective(a1: int, d1: Direction, a2: int, d2: Direction)
    ensures LineKey(a1, d1) == LineKey(a2, d2) <==> a1 == a2 && d1 == d2
  {
    LineKeyParses(a1, d1);
    LineKeyParses(a2, d2);
  }

  // ---------------------------------------------------------------------------
  // Specification
  // ---------------------------------------------------------------------------

  function LineOf(f: Fact): Keyed<string> { Keyed(LineKey(f.account, f.direction), f.amount) }

  function Lines(facts: seq<Fact>): (lines: seq<Keyed<string>>)
    ensures |lines| == |facts|
    ensures forall i :: 0 <= i < |facts| ==> lines[i] == LineOf(facts[i])
  {
    seq(|facts|, i requires 0 <= i < |facts| => LineOf(facts[i]))
  }

  /** What one account carries in one direction, summed straight from the facts. */
  function AmountOn(facts: seq<Fact>, account: int, direction: Direction): int {
    if facts == [] then 0
    else
      var f := facts[|facts| - 1];
      AmountOn(facts[..|facts| - 1], account, direction)
      + if f.account == account && f.direction == direction then f.amount else 0
  }

  function SumDirection(facts: seq<Fact>, direction: Direction): int {
    if facts == [] then 0
    else
      var f := facts[|facts| - 1];
      SumDirection(facts[..|facts| - 1], direction) + if f.direction == direction then f.amount else 0
  }

  function Difference(facts: seq<Fact>): int {
    SumDirection(facts, Debit) - SumDirection(facts, Credit)
  }

  function ItemOf(key: string, total: int): JournalItem {
    if IsDebitKey(key) then JournalItem(KeyAccount(key), total, 0)
    else JournalItem(KeyAccount(key), 0, total)
  }

  function ItemsFor(keys: seq<string>, lines: seq<Keyed<string>>): (items: seq<JournalItem>)
    ensures |items| == |keys|
  {
    seq(|keys|, i requires 0 <= i < |keys| => ItemOf(keys[i], Total(lines, keys[i])))
  }

  function ItemsOf(lines: seq<Keyed<string>>): seq<JournalItem> {
    ItemsFor(SortedKeys(lines, StringLeq), lines)
  }

  /** The line added to a day that does not balance. */
  function RoundingFact(id: nat, date: Date, diff: int, account: int): Fact {
    Fact(id, None, "rounding", "", "", "rounding", date, Abs(diff), account,
         if diff > 0 then Credit else Debit, Pending, None, None)
  }

  function Aggregate(facts: seq<Fact>, roundingAccount: int, tolerance: int, roundingId: nat): Aggregation {
    var debit, credit := SumDirection(facts, Debit), SumDirection(facts, Credit);
    if debit == credit then Balanced(ItemsOf(Lines(facts)), None, debit, credit)
    else if Abs(debit - credit) > tolerance then Unbalanced(debit, credit)
    else
      assert facts != [];
      var r := RoundingFact(roundingId, facts[0].date, debit - credit, roundingAccount);
      var all := facts + [r];
      Balanced(ItemsOf(Lines(all)), Some(r), SumDirection(all, Debit), SumDirection(all, Credit))
  }

  /** The facts a journal is made of: the listed ones and the rounding line, if any. */
  function WithRounding(facts: seq<Fact>, rounding: Option<Fact>): seq<Fact> {
    match rounding case None => facts case Some(r) => facts + [r]
  }

  // ---------------------------------------------------------------------------
  // The code
  // ---------------------------------------------------------------------------

  lemma LinesSnoc(facts: seq<Fact>, f: Fact)
    ensures Lines(facts + [f]) == Lines(facts) + [LineOf(f)]
  {}

  lemma SnocSums(facts: seq<Fact>, i: nat)
    requires i < |facts|
    ensures Lines(facts[..i + 1]) == Lines(facts[..i]) + [LineOf(facts[i])]
    ensures SumDirection(facts[..i + 1], Debit) == SumDirection(facts[..i], Debit) + if facts[i].direction == Debit then facts[i].amount else 0
    ensures SumDirection(facts[..i + 1], Credit) == SumDirection(facts[..i], Credit) + if facts[i].direction == Credit then facts[i].amount else 0
  {
    assert facts[..i + 1] == facts[..i] + [facts[i]];
    LinesSnoc(facts[..i], facts[i]);
    assert (facts[..i + 1])[..i] == facts[..i];
  }

  /** One journal item per key, the account read back from the key's text. */
  method PrintItems(keys: seq<string>, totals: map<string, int>, ghost lines: seq<Keyed<string>>)
    returns (items: seq<JournalItem>)
    requires Tabulates(totals, lines)
    requires ToSet(keys) == totals.Keys
    ensures items == ItemsFor(keys, lines)
  {
    items := [];
    for i := 0 to |keys|
      invariant items == ItemsFor(keys[..i], lines)
    {
      assert keys[i] in ToSet(keys);
      var parts := Split(keys[i], ':');
      var account := ScanInt(parts[0]);
      var item;
      if |parts| > 1 && parts[1] == "debit" {
        item := JournalItem(account, totals[keys[i]], 0);
      } else {
        item := JournalItem(account, 0, totals[keys[i]]);
      }
      items := items + [item];
    }
    assert keys[..|keys|] == keys;
  }

  /** Adds every fact to its key's total and to the total of its side. */
  method SumLines(facts: seq<Fact>) returns (totals: map<string, int>, debitTotal: int, creditTotal: int)
    ensures Tabulates(totals, Lines(facts))
    ensures debitTotal == SumDirection(facts, Debit) && creditTotal == SumDirection(facts, Credit)
  {
    totals, debitTotal, creditTotal := map[], 0, 0;
    for i := 0 to |facts|
      invariant Tabulates(totals, Lines(facts[..i]))
      invariant debitTotal == SumDirection(facts[..i], Debit)
      invariant creditTotal == SumDirection(facts[..i], Credit)
    {
      var fact := facts[i];
      SnocSums(facts, i);
      AddTabulates(totals, Lines(facts[..i]), LineOf(fact));
      totals := Add(totals, LineKey(fact.account, fact.direction), fact.amount);
      if fact.direction == Debit {
        debitTotal := debitTotal + fact.amount;
      } else {
        creditTotal := creditTotal + fact.amount;
      }
    }
    assert facts[..|facts|] == facts;
  }

  method AggregateJournalItems(facts: seq<Fact>, roundingAccount: int, tolerance: int, roundingId: nat)
    returns (r: Aggregation)
    ensures r == Aggregate(facts, roundingAccount, tolerance, roundingId)
  {
    hide SortedKeys, ItemsFor, LineKey, TotalOrder;
    var totals, debitTotal, creditTotal := SumLines(facts);
    ghost var all := facts;
    var rounding: Option<Fact> := None;
    var diff := debitTotal - creditTotal;
    if diff != 0 {
      if Abs(diff) > tolerance {
        return Unbalanced(debitTotal, creditTotal);
      }
      var fact := RoundingFact(roundingId, facts[0].date, diff, roundingAccount);
      all := facts + [fact];
      RoundingAdds(facts, fact, totals);
      if diff > 0 {
        creditTotal := creditTotal + fact.amount;
      } else {
        debitTotal := debitTotal + fact.amount;
      }
      rounding := Some(fact);
      totals := Add(totals, LineKey(fact.account, fact.direction), fact.amount);
    }
    StringOrder();
    var keys := SortedMapKeys(totals.Keys, StringLeq, Lines(all));
    var items := PrintItems(keys, totals, Lines(all));
    return Balanced(items, rounding, debitTotal, creditTotal);
  }

  lemma RoundingAdds(facts: seq<Fact>, f: Fact, totals: map<string, int>)
    requires Tabulates(totals, Lines(facts))
    ensures Tabulates(Add(totals, LineKey(f.account, f.direction), f.amount), Lines(facts + [f]))
    ensures SumDirection(facts + [f], Debit) == SumDirection(facts, Debit) + if f.direction == Debit then f.amount else 0
    ensures SumDirection(facts + [f], Credit) == SumDirection(facts, Credit) + if f.direction == Credit then f.amount else 0
  {
    assert (facts + [f])[..|facts|] == facts;
    LinesSnoc(facts, f);
    AddTabulates(totals, Lines(facts), LineOf(f));
  }
}
