/** internal/stripe/service_webhook.go: facts are rebound to the tax case that the database
    kept, and what that means for the filing entries that are synced right afterwards. */
module Webhook {
  import opened Grouping
  import opened Ledger
  import opened Periods
  import opened Filing
  import opened Entries
  import opened EntryTables
  import opened EntryLaws

  /** A tax case as it was just built; `root` names the object it is about. */
  datatype BuiltCase = BuiltCase(id: nat, root: string, taxCase: TaxCase)

  /** The first case with the id. */
  function FirstCase(cases: seq<BuiltCase>, id: nat): Option<BuiltCase> {
    if cases == [] then None
    else if cases[0].id == id then Some(cases[0])
    else FirstCase(cases[1..], id)
  }

  /** `persisted`: the id under which the database keeps the case of each root. */
  function Rebound(cases: seq<BuiltCase>, persisted: map<string, nat>): Fact -> Fact {
    (f: Fact) =>
      if f.taxCase.None? then f
      else
        match FirstCase(cases, f.taxCase.value)
        case None => f
        case Some(c) => if c.root in persisted then f.(taxCase := Some(persisted[c.root])) else f
  }

  method RebindFactTaxCaseIds(facts: array<Fact>, cases: seq<BuiltCase>, persisted: map<string, nat>)
    modifies facts
    ensures facts[..] == MapSeq(Rebound(cases, persisted), old(facts[..]))
  {
    for i := 0 to facts.Length
      invariant forall k :: i <= k < facts.Length ==> facts[k] == old(facts[k])
      invariant facts[..i] == MapSeq(Rebound(cases, persisted), old(facts[..i]))
    {
      var f := facts[i];
      if f.taxCase.Some? {
        var j := 0;
        while j < |cases| && cases[j].id != f.taxCase.value
          invariant j <= |cases|
          invariant FirstCase(cases[j..], f.taxCase.value) == FirstCase(cases, f.taxCase.value)
        {
          j := j + 1;
        }
        if j < |cases| && cases[j].root in persisted {
          facts[i] := f.(taxCase := Some(persisted[cases[j].root]));
        }
      }
      assert f == old(facts[i]);
      assert facts[i] == Rebound(cases, persisted)(f);
      assert old(facts[..i + 1]) == old(facts[..i]) + [f];
      assert facts[..i + 1] == facts[..i] + [facts[i]];
    }
    assert facts[..facts.Length] == facts[..];
    assert old(facts[..facts.Length]) == old(facts[..]);
  }

  /** The cases that the sync can look up are the built ones, by the ids they were built with. */
  function SourceOf(cases: seq<BuiltCase>): map<nat, TaxCase> {
    if cases == [] then map[] else SourceOf(cases[..|cases| - 1])[cases[|cases| - 1].id := cases[|cases| - 1].taxCase]
  }

  lemma {:induction false} SourceIds(cases: seq<BuiltCase>, id: nat)
    ensures id in SourceOf(cases) <==> exists i :: 0 <= i < |cases| && cases[i].id == id
  {
    if cases != [] { SourceIds(cases[..|cases| - 1], id); }
  }

  lemma {:induction false} FirstCaseIsBuilt(cases: seq<BuiltCase>, id: nat)
    ensures FirstCase(cases, id).Some? ==> FirstCase(cases, id).value in cases && FirstCase(cases, id).value.id == id
  {
    if cases != [] { FirstCaseIsBuilt(cases[1..], id); }
  }

  lemma {:induction false} FirstCaseIsFirst(cases: seq<BuiltCase>, i: nat)
    requires i < |cases| && forall j :: 0 <= j < i ==> cases[j].id != cases[i].id
    ensures FirstCase(cases, cases[i].id) == Some(cases[i])
  {
    if i > 0 { FirstCaseIsFirst(cases[1..], i - 1); }
  }

  /** A fact is rebound to the id that the database keeps for the root of the first case with its id;
      without one, and without an id, it stays as it is, and nothing else of it ever changes. */
  lemma {:induction false} ReboundTo(f: Fact, cases: seq<BuiltCase>, persisted: map<string, nat>)
    ensures Rebound(cases, persisted)(f).(taxCase := None) == f.(taxCase := None)
    ensures f.taxCase == None || (forall c :: c in cases ==> f.taxCase != Some(c.id)) ==> Rebound(cases, persisted)(f) == f
    ensures forall i :: (
      0 <= i < |cases| && f.taxCase == Some(cases[i].id) && (forall j :: 0 <= j < i ==> cases[j].id != cases[i].id) ==>
      Rebound(cases, persisted)(f).taxCase == (if cases[i].root in persisted then Some(persisted[cases[i].root]) else f.taxCase))
  {
    if f.taxCase.Some? { FirstCaseIsBuilt(cases, f.taxCase.value); }
    forall i | 0 <= i < |cases| && f.taxCase == Some(cases[i].id) && forall j :: 0 <= j < i ==> cases[j].id != cases[i].id
      ensures Rebound(cases, persisted)(f).taxCase == if cases[i].root in persisted then Some(persisted[cases[i].root]) else f.taxCase
    {
      FirstCaseIsFirst(cases, i);
    }
  }

  /** Whether the sync finds the tax case of a rebound fact: exactly when the database kept it
      under the id of some built case, as it does unless another delivery stored it first. */
  lemma {:induction false} LookupAfterRebinding(f: Fact, c: BuiltCase, cases: seq<BuiltCase>,
                                                persisted: map<string, nat>)
    requires f.taxCase == Some(c.id) && FirstCase(cases, c.id) == Some(c) && c.root in persisted
    ensures Rebound(cases, persisted)(f).taxCase == Some(persisted[c.root])
    ensures persisted[c.root] in SourceOf(cases) <==> exists i :: 0 <= i < |cases| && cases[i].id == persisted[c.root]
  {
    SourceIds(cases, persisted[c.root]);
  }

  /** A group whose tax case the sync cannot find is filed nowhere: the sync takes its rows away
      until a backfill, which looks cases up in the database, puts them back. */
  lemma UnknownCaseIsNotFiled(s: Settings, facts: seq<FilingFact>, cases: map<nat, TaxCase>, g: string, id: nat)
    requires Entries.Dated(facts)
    requires forall f :: f in facts && f.fact.group == g ==> f.fact.taxCase.Some? && f.fact.taxCase.value !in cases
    ensures OssRow(s, facts, cases, g, id).None? && PsRow(facts, cases, g, id).None?
  {
    GroupFactsDated(facts, g);
    var own := GroupFacts(facts, g);
    if own != [] {
      var arranged := SortBy(own, FactLeq);
      SortByMultiset(own, FactLeq);
      assert |arranged| == |multiset(arranged)| == |own|;
      assert arranged[0] in multiset(arranged) && arranged[0] in multiset(own);
      assert arranged[0] in own;
      hide Summarized, SortBy, FactLeq;
      assert ContextOf(own, cases).value.status == "";
      assert !HasPrefix("", "EU_");
    }
  }

  // ---------------------------------------------------------------------------
  // The sync after a webhook
  // ---------------------------------------------------------------------------

  /** Tax cases that are filed in either table, whatever the amounts. */
  predicate OssCase(c: TaxCase) { HasPrefix(c.status, "EU_") && HasSuffix(c.status, "_B2C") }

  predicate PsCase(c: TaxCase) { HasPrefix(c.status, "EU_") && HasSuffix(c.status, "_B2B") && c.buyer != "" }

  lemma FirstSorted(facts: seq<FilingFact>, cases: map<nat, TaxCase>) returns (rep: FilingFact, s: Summary)
    requires facts != []
    ensures rep in facts && ContextOf(facts, cases) == Some(ContextFor(rep, s, cases))
  {
    var arranged := SortBy(facts, FactLeq);
    SortByMultiset(facts, FactLeq);
    assert |arranged| == |multiset(arranged)| == |facts|;
    assert arranged[0] in multiset(arranged) && arranged[0] in multiset(facts);
    rep, s := arranged[0], Summarized(arranged);
  }

  /** A group whose facts all name one tax case has a row exactly if the case is found and is of
      the table's kind. */
  lemma RowsOfOneCase(s: Settings, facts: seq<FilingFact>, cases: map<nat, TaxCase>, g: string, taxCase: nat)
    requires Entries.Dated(facts) && GroupFacts(facts, g) != []
    requires forall f :: f in facts && f.fact.group == g ==> f.fact.taxCase == Some(taxCase)
    ensures OssRow(s, facts, cases, g, 0).Some? <==> taxCase in cases && OssCase(cases[taxCase])
    ensures PsRow(facts, cases, g, 0).Some? <==> taxCase in cases && PsCase(cases[taxCase])
  {
    GroupFactsDated(facts, g);
    var rep, sum := FirstSorted(GroupFacts(facts, g), cases);
    hide ContextOf, GroupFacts, Entries.Dated, OssEntryFor, PsEntryFor;
    assert !HasPrefix("", "EU_");
  }

  function FactOf(f: FilingFact): Fact { f.fact }

  lemma {:induction false} ReboundFacts(facts: seq<Fact>, listing: seq<FilingFact>, c: BuiltCase, cases: seq<BuiltCase>,
                                        persisted: map<string, nat>, g: string)
    requires MapSeq(FactOf, listing) == MapSeq(Rebound(cases, persisted), facts)
    requires forall f :: f in facts && f.group == g ==> f.taxCase == Some(c.id)
    requires FirstCase(cases, c.id) == Some(c) && c.root in persisted
    ensures forall f :: f in listing && f.fact.group == g ==> f.fact.taxCase == Some(persisted[c.root])
    ensures (exists f :: f in facts && f.group == g) ==> exists f :: f in listing && f.fact.group == g
    ensures (exists f :: f in facts && f.group == g) ==>
      (persisted[c.root] in SourceOf(cases) <==> exists i :: 0 <= i < |cases| && cases[i].id == persisted[c.root])
  {
    hide SourceOf;
    forall f | f in listing && f.fact.group == g ensures f.fact.taxCase == Some(persisted[c.root]) {
      var i :| 0 <= i < |listing| && listing[i] == f;
      assert FactOf(listing[i]) == MapSeq(FactOf, listing)[i] == Rebound(cases, persisted)(facts[i]);
      assert facts[i] in facts;
      LookupAfterRebinding(facts[i], c, cases, persisted);
    }
    if f :| f in facts && f.group == g {
      var i :| 0 <= i < |facts| && facts[i] == f;
      assert FactOf(listing[i]) == MapSeq(FactOf, listing)[i] == Rebound(cases, persisted)(facts[i]);
      assert listing[i] in listing;
      LookupAfterRebinding(f, c, cases, persisted);
    }
  }

  lemma {:induction false} GroupIsThere(facts: seq<FilingFact>, f: FilingFact)
    requires f in facts
    ensures GroupFacts(facts, f.fact.group) != []
    ensures IsFilingGroup(f.fact.group) ==> f.fact.group in KeySet(Collect(GroupOf, facts))
  {
    var front, last := facts[..|facts| - 1], facts[|facts| - 1];
    if f != last { GroupIsThere(front, f); }
    if IsFilingGroup(last.fact.group) { KeySetSnoc(Collect(GroupOf, front), Keyed(last.fact.group, 0)); }
  }

  /** What a webhook leaves in the filing tables. The facts are rebound to the case that the
      database kept, and synced against the cases that the webhook built: a filed group then has a
      row if and only if the kept case is one of the built ones and of the table's kind. If another
      delivery stored its case first, under another id, the group is filed nowhere. */
  lemma {:induction false} FiledAfterRebinding(t: Tables, s: Settings, facts: seq<Fact>, listing: seq<FilingFact>,
                                               c: BuiltCase, cases: seq<BuiltCase>, persisted: map<string, nat>,
                                               g: string, firstId: nat)
    requires MapSeq(FactOf, listing) == MapSeq(Rebound(cases, persisted), facts) && Entries.Dated(listing)
    requires IsFilingGroup(g) && exists f :: f in facts && f.group == g
    requires forall f :: f in facts && f.group == g ==> f.taxCase == Some(c.id)
    requires FirstCase(cases, c.id) == Some(c) && c.root in persisted
    requires SyncTx(t, s, listing, SourceOf(cases), firstId).Some?
    ensures var t', kept := SyncTx(t, s, listing, SourceOf(cases), firstId).value, persisted[c.root];
      && (g in t'.oss <==> kept in SourceOf(cases) && OssCase(SourceOf(cases)[kept]))
      && (g in t'.ps <==> kept in SourceOf(cases) && PsCase(SourceOf(cases)[kept]))
      && (kept in SourceOf(cases) <==> exists i :: 0 <= i < |cases| && cases[i].id == kept)
  {
    ReboundFacts(facts, listing, c, cases, persisted, g);
    var f :| f in listing && f.fact.group == g;
    GroupIsThere(listing, f);
    GroupsAreDistinct(listing);
    SyncAgrees(t, s, listing, SourceOf(cases), firstId);
    hide SyncTx, Entries.Dated, OssRow, PsRow, FilingGroups, SourceOf, OssCase, PsCase, GroupFacts, IsFilingGroup,
         MapSeq, Rebound;
    RowsOfOneCase(s, listing, SourceOf(cases), g, persisted[c.root]);
    assert g in ToSet(FilingGroups(listing));
  }

  // ---------------------------------------------------------------------------
  // Two first deliveries
  // ---------------------------------------------------------------------------

  lemma {:induction false} NothingFiled(s: Settings, facts: seq<FilingFact>, cases: map<nat, TaxCase>, groups: seq<string>,
                                        firstId: nat)
    requires Entries.Dated(facts)
    requires forall f :: f in facts ==> f.fact.taxCase.Some? && f.fact.taxCase.value !in cases
    ensures AllOss(s, facts, cases, groups, firstId) == [] && AllPs(facts, cases, groups, firstId) == []
  {
    hide OssRow, PsRow;
    if groups != [] {
      var n := |groups| - 1;
      NothingFiled(s, facts, cases, groups[..n], firstId);
      UnknownCaseIsNotFiled(s, facts, cases, groups[n], firstId + 2 * n);
      UnknownCaseIsNotFiled(s, facts, cases, groups[n], firstId + 2 * n + 1);
    }
  }

  lemma EmptyReplaced(groups: seq<string>)
    ensures ReplaceBoth(Tables(map[], map[], map[]), groups, [], [], {}) == Some(Tables(map[], map[], map[]))
  {
    var noOss: map<string, OssEntry>, noPs: map<string, PsEntry> := map[], map[];
    assert noOss - ToSet(groups) == noOss && noPs - ToSet(groups) == noPs;
    UpsertNone(noOss);
    UpsertNoPs(noPs, []);
  }

  /** The case of payment pi_1, built under id 1 by an event that found none, while another event
      about the same payment stored it under id 2: the charge's sale is not filed. */
  lemma RacedDelivery(s: Settings, f: Fact, c: TaxCase, firstId: nat)
    requires f.group == "charge:1:sale" && f.taxCase == Some(1) && CivilDate(f.date)
    ensures var rebound := Rebound([BuiltCase(1, "payment_intent:pi_1", c)], map["payment_intent:pi_1" := 2])(f);
      var listing := [FilingFact(rebound, 0, None)];
      && rebound.taxCase == Some(2) && Entries.Dated(listing)
      && var r := SyncTx(Tables(map[], map[], map[]), s, listing, SourceOf([BuiltCase(1, "payment_intent:pi_1", c)]), firstId);
         r.Some? && r.value.oss == map[] && r.value.ps == map[]
  {
    var cases, persisted := [BuiltCase(1, "payment_intent:pi_1", c)], map["payment_intent:pi_1" := 2];
    var rebound := Rebound(cases, persisted)(f);
    var listing := [FilingFact(rebound, 0, None)];
    assert FirstCase(cases, 1) == Some(cases[0]);
    SourceIds(cases, 2);
    hide SourceOf, FilingGroups, AllOss, AllPs, Rebound, ReplaceBoth;
    NothingFiled(s, listing, SourceOf(cases), FilingGroups(listing), firstId);
    assert OssPeriods([]) + PsPeriods([]) == {};
    EmptyReplaced(FilingGroups(listing));
  }
}
