/** From the fact builder to the table: when the facts of a charge can be stored. */
module Ingest {
  import opened Ledger
  import opened Store
  import opened StoreLaws
  import opened FactBuilders

  /** The ids count up from `id`, and every fact has its payload. */
  predicate Numbered(facts: seq<Fact>, id: nat) {
    forall i :: 0 <= i < |facts| ==> facts[i].id == id + i && facts[i].payload.Some?
  }

  predicate OneGroup(facts: seq<Fact>, group: string) {
    forall f :: f in facts ==> f.group == group
  }

  lemma NumberedConcat(a: seq<Fact>, b: seq<Fact>, id: nat)
    requires Numbered(a, id) && Numbered(b, id + |a|)
    ensures Numbered(a + b, id)
  {}

  /** Facts of different groups do not clash. */
  lemma NoClashAcross(a: seq<Fact>, b: seq<Fact>, id: nat)
    requires NoClash(a) && NoClash(b) && Numbered(a + b, id)
    requires forall x, y :: x in a && y in b ==> x.group != y.group
    ensures NoClash(a + b)
  {
    var all := a + b;
    forall i, j | 0 <= i < j < |all| ensures all[i].id != all[j].id && !SameKey(all[i], all[j]) {
      if j < |a| { assert all[i] == a[i] && all[j] == a[j]; }
      else if i >= |a| { assert all[i] == b[i - |a|] && all[j] == b[j - |a|]; }
      else { assert all[i] == a[i] && a[i] in a && all[j] == b[j - |a|] && b[j - |a|] in b; }
    }
  }

  lemma SaleGroupStores(s: SaleInput, id: nat)
    ensures Numbered(s.SaleGroup(id), id) && NoClash(s.SaleGroup(id)) && OneGroup(s.SaleGroup(id), s.prefix + ":sale")
  {
    assert |"sale_revenue"| != |"sale_output_vat"|;
  }

  lemma FeeGroupStores(s: SaleInput, id: nat)
    ensures Numbered(s.FeeGroup(id), id) && NoClash(s.FeeGroup(id)) && OneGroup(s.FeeGroup(id), s.prefix + ":fee")
  {
    assert |"stripe_fee_expense"| != |"stripe_fee_input_vat"| && |"stripe_fee_balance"| != |"stripe_fee_output_vat"|;
  }

  lemma AvailableGroupStores(s: SaleInput, id: nat)
    ensures Numbered(s.AvailableGroup(id), id) && NoClash(s.AvailableGroup(id))
    ensures OneGroup(s.AvailableGroup(id), s.prefix + ":available")
  {}

  /** A charge's own facts never stand in each other's way. */
  lemma SaleFactsDoNotClash(s: SaleInput, id: nat)
    ensures NoClash(s.Facts(id)) && Numbered(s.Facts(id), id)
  {
    hide SaleInput.SaleGroup, SaleInput.FeeGroup, SaleInput.AvailableGroup, SameKey;
    var sale := s.SaleGroup(id);
    var fees := s.FeeGroup(id + |sale|);
    var available := s.AvailableGroup(id + |sale| + |fees|);
    SaleGroupStores(s, id);
    FeeGroupStores(s, id + |sale|);
    AvailableGroupStores(s, id + |sale| + |fees|);
    NumberedConcat(sale, fees, id);
    NumberedConcat(sale + fees, available, id);
    assert |s.prefix + ":sale"| != |s.prefix + ":fee"| && |s.prefix + ":sale"| != |s.prefix + ":available"|
      && |s.prefix + ":fee"| != |s.prefix + ":available"|;
    NoClashAcross(sale, fees, id);
    NoClashAcross(sale + fees, available, id);
  }

  /** With ids that nobody uses, the facts of a charge are stored exactly when none of the
      charge's groups holds a locked or attached fact: whatever else the table holds. */
  lemma ChargeIngestCondition(db: Db, s: SaleInput, id: nat)
    requires forall k :: id <= k ==> k !in db.facts
    ensures UpsertFacts(db, s.Facts(id)).Some? <==> Replaceable(db, InGroups(db.facts, GroupsOf(s.Facts(id))))
  {
    var facts := s.Facts(id);
    SaleFactsDoNotClash(s, id);
    UpsertCondition(db, facts);
    hide SaleInput.Facts, UpsertFacts, NoClash, Replaceable, InGroups;
    forall f | f in facts ensures f.id >= id && f.payload.Some? {
      var i :| 0 <= i < |facts| && facts[i] == f;
    }
  }
}
