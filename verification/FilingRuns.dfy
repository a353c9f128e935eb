/** From the stored facts to the file that is sent: the rows of a period as they are listed, what
    they print, and RunPeriod, which rebuilds a period and then evaluates it. */
module FilingRuns {
  import opened Grouping
  import opened Store
  import opened Periods
  import opened Filing
  import opened Entries
  import opened EntryTables
  import opened EntryLaws
  import opened EntryMeaning
  import opened Render
  import opened RenderLaws
  import opened StoredFiles
  import opened Exports
  import opened Evaluation

  // ---------------------------------------------------------------------------
  // Listing a period
  // ---------------------------------------------------------------------------

  /** ListOSSUnionEntriesByPeriod: each row of the period once. */
  ghost predicate ListsOss(listing: seq<OssEntry>, table: map<string, OssEntry>, period: string) {
    && (forall i, j :: 0 <= i < j < |listing| ==> listing[i].group != listing[j].group)
    && (forall e :: e in listing <==> e.group in table && table[e.group] == e && e.filingPeriod == period)
  }

  ghost predicate ListsPs(listing: seq<PsEntry>, table: map<string, PsEntry>, period: string) {
    && (forall i, j :: 0 <= i < j < |listing| ==> listing[i].group != listing[j].group)
    && (forall e :: e in listing <==> e.group in table && table[e.group] == e && e.filingPeriod == period)
  }

  /** A row is stored under its group. */
  predicate OssKeyed(table: map<string, OssEntry>) { forall g :: g in table ==> table[g].group == g }

  predicate PsKeyed(table: map<string, PsEntry>) { forall g :: g in table ==> table[g].group == g }

  method ListOss(table: map<string, OssEntry>, period: string) returns (listing: seq<OssEntry>)
    requires OssKeyed(table)
    ensures ListsOss(listing, table, period)
  {
    listing := [];
    var rest := table.Keys;
    while rest != {}
      invariant rest <= table.Keys
      invariant forall i, j :: 0 <= i < j < |listing| ==> listing[i].group != listing[j].group
      invariant forall e :: e in listing <==>
        e.group in table && e.group !in rest && table[e.group] == e && e.filingPeriod == period
      decreases rest
    {
      var g :| g in rest;
      if table[g].filingPeriod == period {
        forall i | 0 <= i < |listing| ensures listing[i].group != g { assert listing[i] in listing; }
        listing := listing + [table[g]];
      }
      rest := rest - {g};
    }
  }

  method ListPs(table: map<string, PsEntry>, period: string) returns (listing: seq<PsEntry>)
    requires PsKeyed(table)
    ensures ListsPs(listing, table, period)
  {
    listing := [];
    var rest := table.Keys;
    while rest != {}
      invariant rest <= table.Keys
      invariant forall i, j :: 0 <= i < j < |listing| ==> listing[i].group != listing[j].group
      invariant forall e :: e in listing <==>
        e.group in table && e.group !in rest && table[e.group] == e && e.filingPeriod == period
      decreases rest
    {
      var g :| g in rest;
      if table[g].filingPeriod == period {
        forall i | 0 <= i < |listing| ensures listing[i].group != g { assert listing[i] in listing; }
        listing := listing + [table[g]];
      }
      rest := rest - {g};
    }
  }

  // ---------------------------------------------------------------------------
  // What the tables hold
  // ---------------------------------------------------------------------------

  /** Every row is stored under its group and in the form that the columns give it. */
  predicate TableStored(table: map<string, OssEntry>) {
    forall g :: g in table ==> table[g].group == g && StoredRow(table[g])
  }

  lemma PutKeepsStored(table: map<string, OssEntry>, e: OssEntry)
    requires TableStored(table) && OssStorable(e) && |e.origin| == 2 && e.correctionTarget.None?
    ensures TableStored(PutOss(table, e))
  {}

  lemma {:induction false} UpsertKeepsStored(table: map<string, OssEntry>, entries: seq<OssEntry>)
    requires TableStored(table) && UpsertOss(table, entries).Some?
    requires forall e :: e in entries ==> |e.origin| == 2 && e.correctionTarget.None?
    ensures TableStored(UpsertOss(table, entries).value)
  {
    hide PutOss, TableStored, OssStorable;
    if entries != [] {
      var front := entries[..|entries| - 1];
      UpsertKeepsStored(table, front);
      PutKeepsStored(UpsertOss(table, front).value, entries[|entries| - 1]);
    }
  }

  lemma {:induction false} BuiltEntries(s: Settings, facts: seq<FilingFact>, cases: map<nat, TaxCase>,
                                        groups: seq<string>, firstId: nat)
    requires Entries.Dated(facts)
    ensures forall e :: e in AllOss(s, facts, cases, groups, firstId) ==> e.origin == s.origin && e.correctionTarget.None?
  {
    hide ContextOf, QuarterPeriod, RateOf, GroupFacts, Entries.Dated;
    if groups != [] {
      var n := |groups| - 1;
      BuiltEntries(s, facts, cases, groups[..n], firstId);
      GroupFactsDated(facts, groups[n]);
      if OssRow(s, facts, cases, groups[n], firstId + 2 * n).Some? {
        RefundsNeverCorrect(s, GroupFacts(facts, groups[n]), cases, firstId + 2 * n);
      }
    }
  }

  lemma {:induction false} FilteredEntries(entries: seq<OssEntry>, period: string)
    ensures forall e :: e in OssOfPeriod(entries, period) ==> e in entries
  {
    if entries != [] { FilteredEntries(entries[..|entries| - 1], period); }
  }

  lemma RemovedKeepsStored(table: map<string, OssEntry>, groups: set<string>)
    requires TableStored(table)
    ensures TableStored(table - groups)
  {}

  /** With the two-letter origin that the configuration must have, a sync and a backfill leave rows
      of the form that makes a file readable, whatever the facts say. */
  lemma TablesStayStored(t: Tables, s: Settings, kind: Kind, period: string, facts: seq<FilingFact>,
                         cases: map<nat, TaxCase>, firstId: nat)
    requires Entries.Dated(facts) && TableStored(t.oss) && |s.origin| == 2
    ensures SyncTx(t, s, facts, cases, firstId).Some? ==> TableStored(SyncTx(t, s, facts, cases, firstId).value.oss)
    ensures BackfillTx(t, s, kind, period, facts, cases, firstId).Some? ==>
      TableStored(BackfillTx(t, s, kind, period, facts, cases, firstId).value.oss)
  {
    SyncStaysStored(t, s, facts, cases, firstId);
    PeriodFactsAreItsOwn(kind, period, facts);
    BackfillReads(t, s, kind, period, facts, cases, firstId);
    RebuildStaysStored(t, s, kind, period, PeriodFacts(kind, period, facts), cases, firstId);
  }

  lemma SyncStaysStored(t: Tables, s: Settings, facts: seq<FilingFact>, cases: map<nat, TaxCase>, firstId: nat)
    requires Entries.Dated(facts) && TableStored(t.oss) && |s.origin| == 2
    ensures SyncTx(t, s, facts, cases, firstId).Some? ==> TableStored(SyncTx(t, s, facts, cases, firstId).value.oss)
  {
    var groups := FilingGroups(facts);
    BuiltEntries(s, facts, cases, groups, firstId);
    RemovedKeepsStored(t.oss, ToSet(groups));
    hide FilingGroups, AllOss, AllPs, UpsertOss, UpsertPs, TableStored, OssPeriods, PsPeriods, UpsertPeriods;
    if SyncTx(t, s, facts, cases, firstId).Some? {
      UpsertKeepsStored(t.oss - ToSet(groups), AllOss(s, facts, cases, groups, firstId));
    }
  }

  lemma RebuildStaysStored(t: Tables, s: Settings, kind: Kind, period: string, facts: seq<FilingFact>,
                           cases: map<nat, TaxCase>, firstId: nat)
    requires Entries.Dated(facts) && TableStored(t.oss) && |s.origin| == 2
    ensures BackfillFrom(t, s, kind, period, facts, cases, firstId).Some? ==>
      TableStored(BackfillFrom(t, s, kind, period, facts, cases, firstId).value.oss)
  {
    var groups := FilingGroups(facts);
    BuiltEntries(s, facts, cases, groups, firstId);
    FilteredEntries(AllOss(s, facts, cases, groups, firstId), period);
    RemovedKeepsStored(t.oss, ToSet(groups));
    hide FilingGroups, AllOss, AllPs, UpsertOss, UpsertPs, TableStored, OssOfPeriod, PsOfPeriod, UpsertPeriods;
    if BackfillFrom(t, s, kind, period, facts, cases, firstId).Some? && facts != [] && kind.OssUnion? {
      UpsertKeepsStored(t.oss - ToSet(groups), OssOfPeriod(AllOss(s, facts, cases, groups, firstId), period));
    }
  }

  lemma ListedRowsAreStored(listing: seq<OssEntry>, table: map<string, OssEntry>, period: string)
    requires TableStored(table) && ListsOss(listing, table, period)
    ensures StoredRows(listing)
  {
    hide StoredRow;
  }

  /** Two listings of stored rows give the same file exactly when they have the same totals, and both
      or neither have a correction section. */
  lemma ListedFileDetermined(a: seq<OssEntry>, tableA: map<string, OssEntry>, periodA: string,
                             b: seq<OssEntry>, tableB: map<string, OssEntry>, periodB: string,
                             identifier: string, period: string)
    requires TableStored(tableA) && ListsOss(a, tableA, periodA) && TableStored(tableB) && ListsOss(b, tableB, periodB)
    ensures OssFile(identifier, period, a).Some? ==>
      (OssFile(identifier, period, a) == OssFile(identifier, period, b) <==>
        SameTotals(a, b) && SameCorrections(a, b) && (Corrections(a) == [] <==> Corrections(b) == []))
  {
    hide TableStored, ListsOss, SameTotals, SameCorrections, Corrections, OssFile;
    ListedRowsAreStored(a, tableA, periodA);
    ListedRowsAreStored(b, tableB, periodB);
    StoredFileDetermined(identifier, period, a, b);
  }

  // ---------------------------------------------------------------------------
  // What is rendered
  // ---------------------------------------------------------------------------

  lemma {:induction false} CollectTwice<A, B>(f: A -> Option<B>, keep: A -> Option<A>, s: seq<A>)
    requires forall x :: keep(x) == Some(x) || (keep(x).None? && f(x).None?)
    ensures Collect(f, Collect(keep, s)) == Collect(f, s)
  {
    if s != [] {
      var front, x := s[..|s| - 1], s[|s| - 1];
      CollectTwice(f, keep, front);
      if keep(x).Some? { CollectSnoc(f, Collect(keep, front), x); }
    }
  }

  lemma {:induction false} NothingKept<A>(keep: A -> Option<A>, s: seq<A>)
    ensures Collect(keep, s) == [] <==> forall x :: x in s ==> keep(x).None?
  {
    if s != [] {
      NothingKept(keep, s[..|s| - 1]);
      assert s == s[..|s| - 1] + [s[|s| - 1]];
    }
  }

  /** A period has nothing to send exactly if none of its rows is ready; otherwise it sends what the
      renderer makes of all its rows, in which those that are not ready do not show. */
  lemma OnlyReadyShow(identifier: string, reporter: Reporter, period: string, oss: seq<OssEntry>, ps: seq<PsEntry>)
    ensures OssInput(identifier, period, oss) ==
      if forall e :: e in oss ==> e.state != Ready then Nothing else FileInput(OssFile(identifier, period, oss))
    ensures PsInput(reporter, period, ps) ==
      if forall e :: e in ps ==> e.state != Ready then Nothing else FileInput(PsFile(reporter, period, ps))
  {
    CollectTwice(TaxableOf, IfReadyOss, oss);
    CollectTwice(VatOf, IfReadyOss, oss);
    CollectTwice(CorrectionOf, IfReadyOss, oss);
    CollectTwice(BuyerOf, IfReadyPs, ps);
    CollectTwice(SaleOf("goods"), IfReadyPs, ps);
    CollectTwice(SaleOf("services"), IfReadyPs, ps);
    NothingKept(IfReadyOss, oss);
    NothingKept(IfReadyPs, ps);
    hide Collect, Encode, OssHeader, ScanQuarter, PsHeader;
    SameLinesSameFile(identifier, period, Collect(IfReadyOss, oss), oss);
  }
  // ---------------------------------------------------------------------------
  // Ids and order do not show
  // ---------------------------------------------------------------------------

  function BareOss(e: OssEntry): OssEntry { e.(id := 0) }

  function BarePs(e: PsEntry): PsEntry { e.(id := 0) }

  lemma {:induction false} CollectBare<A, B>(f: A -> Option<B>, bare: A -> A, s: seq<A>)
    requires forall x :: f(bare(x)) == f(x)
    ensures Collect(f, MapSeq(bare, s)) == Collect(f, s)
  {
    if s != [] {
      CollectBare(f, bare, s[..|s| - 1]);
      assert MapSeq(bare, s)[..|s| - 1] == MapSeq(bare, s[..|s| - 1]);
    }
  }

  lemma {:induction false} ReadyBare<A>(f: A -> Option<A>, bare: A -> A, s: seq<A>)
    requires forall x :: f(bare(x)) == match f(x) case None => None case Some(y) => Some(bare(y))
    ensures Collect(f, MapSeq(bare, s)) == MapSeq(bare, Collect(f, s))
  {
    if s != [] {
      var front, x := s[..|s| - 1], s[|s| - 1];
      ReadyBare(f, bare, front);
      assert MapSeq(bare, s)[..|s| - 1] == MapSeq(bare, front);
      if f(x).Some? {
        assert MapSeq(bare, Collect(f, front) + [f(x).value]) == MapSeq(bare, Collect(f, front)) + [bare(f(x).value)];
      }
    }
  }

  lemma OssFileBare(identifier: string, period: string, entries: seq<OssEntry>)
    ensures OssFile(identifier, period, MapSeq(BareOss, entries)) == OssFile(identifier, period, entries)
  {
    CollectBare(TaxableOf, BareOss, entries);
    CollectBare(VatOf, BareOss, entries);
    CollectBare(CorrectionOf, BareOss, entries);
    hide Collect, Encode, OssHeader, ScanQuarter;
    SameLinesSameFile(identifier, period, MapSeq(BareOss, entries), entries);
  }

  lemma PsFileBare(r: Reporter, period: string, entries: seq<PsEntry>)
    ensures PsFile(r, period, MapSeq(BarePs, entries)) == PsFile(r, period, entries)
  {
    CollectBare(BuyerOf, BarePs, entries);
    CollectBare(SaleOf("goods"), BarePs, entries);
    CollectBare(SaleOf("services"), BarePs, entries);
    hide Collect, Encode, PsHeader;
  }

  lemma NoneOfSame<T>(a: seq<T>, b: seq<T>)
    requires multiset(a) == multiset(b)
    ensures a == [] <==> b == []
  {
    assert |a| == |multiset(a)| == |multiset(b)| == |b|;
  }

  lemma OssInputUpTo(identifier: string, period: string, a: seq<OssEntry>, b: seq<OssEntry>)
    requires multiset(MapSeq(BareOss, a)) == multiset(MapSeq(BareOss, b))
    ensures OssInput(identifier, period, a) == OssInput(identifier, period, b)
  {
    ReadyBare(IfReadyOss, BareOss, a);
    ReadyBare(IfReadyOss, BareOss, b);
    CollectPermutation(IfReadyOss, MapSeq(BareOss, a), MapSeq(BareOss, b));
    var ra, rb := Collect(IfReadyOss, a), Collect(IfReadyOss, b);
    hide Collect, OssFile;
    NoneOfSame(MapSeq(BareOss, ra), MapSeq(BareOss, rb));
    OssFilePermutation(identifier, period, MapSeq(BareOss, ra), MapSeq(BareOss, rb));
    OssFileBare(identifier, period, ra);
    OssFileBare(identifier, period, rb);
    assert ra == [] <==> MapSeq(BareOss, ra) == [];
    assert rb == [] <==> MapSeq(BareOss, rb) == [];
  }

  lemma PsInputUpTo(r: Reporter, period: string, a: seq<PsEntry>, b: seq<PsEntry>)
    requires multiset(MapSeq(BarePs, a)) == multiset(MapSeq(BarePs, b))
    ensures PsInput(r, period, a) == PsInput(r, period, b)
  {
    ReadyBare(IfReadyPs, BarePs, a);
    ReadyBare(IfReadyPs, BarePs, b);
    CollectPermutation(IfReadyPs, MapSeq(BarePs, a), MapSeq(BarePs, b));
    var ra, rb := Collect(IfReadyPs, a), Collect(IfReadyPs, b);
    hide Collect, PsFile;
    NoneOfSame(MapSeq(BarePs, ra), MapSeq(BarePs, rb));
    PsFilePermutation(r, period, MapSeq(BarePs, ra), MapSeq(BarePs, rb));
    PsFileBare(r, period, ra);
    PsFileBare(r, period, rb);
    assert ra == [] <==> MapSeq(BarePs, ra) == [];
    assert rb == [] <==> MapSeq(BarePs, rb) == [];
  }

  // ---------------------------------------------------------------------------
  // The rows of a period after a backfill
  // ---------------------------------------------------------------------------

  ghost predicate OneOssPerGroup(entries: seq<OssEntry>) {
    forall i, j :: 0 <= i < j < |entries| ==> entries[i].group != entries[j].group
  }

  ghost predicate OnePsPerGroup(entries: seq<PsEntry>) {
    forall i, j :: 0 <= i < j < |entries| ==> entries[i].group != entries[j].group
  }

  /** The built entries: one for each group that has a row of its own. */
  ghost predicate OssOfGroups(entries: seq<OssEntry>, s: Settings, facts: seq<FilingFact>, cases: map<nat, TaxCase>,
                              groups: seq<string>)
    requires Entries.Dated(facts)
  {
    && OneOssPerGroup(entries)
    && (forall e :: e in entries ==> e.group in groups && OssRow(s, facts, cases, e.group, 0) == Some(BareOss(e)))
    && (forall g :: g in groups && OssRow(s, facts, cases, g, 0).Some? ==> exists e :: e in entries && e.group == g)
  }

  ghost predicate PsOfGroups(entries: seq<PsEntry>, facts: seq<FilingFact>, cases: map<nat, TaxCase>, groups: seq<string>)
    requires Entries.Dated(facts)
  {
    && OnePsPerGroup(entries)
    && (forall e :: e in entries ==> e.group in groups && PsRow(facts, cases, e.group, 0) == Some(BarePs(e)))
    && (forall g :: g in groups && PsRow(facts, cases, g, 0).Some? ==> exists e :: e in entries && e.group == g)
  }

  lemma OssOfGroupsSnoc(entries: seq<OssEntry>, s: Settings, facts: seq<FilingFact>, cases: map<nat, TaxCase>,
                        front: seq<string>, g: string, r: Option<OssEntry>)
    requires Entries.Dated(facts) && OssOfGroups(entries, s, facts, cases, front) && g !in front
    requires match r case None => OssRow(s, facts, cases, g, 0).None?
                    case Some(e) => e.group == g && OssRow(s, facts, cases, g, 0) == Some(BareOss(e))
    ensures OssOfGroups(entries + match r case None => [] case Some(e) => [e], s, facts, cases, front + [g])
  {
    hide OssRow;
    var all := entries + match r case None => [] case Some(e) => [e];
    forall i | 0 <= i < |entries| ensures entries[i].group != g { assert entries[i] in entries; }
    forall k | k in front + [g] && OssRow(s, facts, cases, k, 0).Some? ensures exists e :: e in all && e.group == k {
      if k in front {
        var e :| e in entries && e.group == k;
        assert e in all;
      } else {
        assert r.value in all;
      }
    }
  }

  lemma PsOfGroupsSnoc(entries: seq<PsEntry>, facts: seq<FilingFact>, cases: map<nat, TaxCase>,
                       front: seq<string>, g: string, r: Option<PsEntry>)
    requires Entries.Dated(facts) && PsOfGroups(entries, facts, cases, front) && g !in front
    requires match r case None => PsRow(facts, cases, g, 0).None?
                    case Some(e) => e.group == g && PsRow(facts, cases, g, 0) == Some(BarePs(e))
    ensures PsOfGroups(entries + match r case None => [] case Some(e) => [e], facts, cases, front + [g])
  {
    hide PsRow;
    var all := entries + match r case None => [] case Some(e) => [e];
    forall i | 0 <= i < |entries| ensures entries[i].group != g { assert entries[i] in entries; }
    forall k | k in front + [g] && PsRow(facts, cases, k, 0).Some? ensures exists e :: e in all && e.group == k {
      if k in front {
        var e :| e in entries && e.group == k;
        assert e in all;
      } else {
        assert r.value in all;
      }
    }
  }

  lemma {:induction false} AllOfGroups(s: Settings, facts: seq<FilingFact>, cases: map<nat, TaxCase>, groups: seq<string>,
                                       firstId: nat)
    requires Entries.Dated(facts) && Distinct(groups)
    ensures OssOfGroups(AllOss(s, facts, cases, groups, firstId), s, facts, cases, groups)
    ensures PsOfGroups(AllPs(facts, cases, groups, firstId), facts, cases, groups)
  {
    hide OssRow, PsRow, OssOfGroups, PsOfGroups;
    if groups == [] {
      NothingOfGroups(s, facts, cases);
    } else {
      var n := |groups| - 1;
      var front, g := groups[..n], groups[n];
      assert groups == front + [g];
      AllOfGroups(s, facts, cases, front, firstId);
      OssRowOfGroup(s, facts, cases, g, firstId + 2 * n);
      PsRowOfGroup(facts, cases, g, firstId + 2 * n + 1);
      OssOfGroupsSnoc(AllOss(s, facts, cases, front, firstId), s, facts, cases, front, g,
                      OssRow(s, facts, cases, g, firstId + 2 * n));
      PsOfGroupsSnoc(AllPs(facts, cases, front, firstId), facts, cases, front, g,
                     PsRow(facts, cases, g, firstId + 2 * n + 1));
    }
  }

  lemma NothingOfGroups(s: Settings, facts: seq<FilingFact>, cases: map<nat, TaxCase>)
    requires Entries.Dated(facts)
    ensures OssOfGroups([], s, facts, cases, []) && PsOfGroups([], facts, cases, [])
  {}

  /** The rows of the period that belong to none of the groups. */
  ghost predicate OtherOss(others: seq<OssEntry>, table: map<string, OssEntry>, period: string, groups: seq<string>) {
    && OneOssPerGroup(others)
    && (forall e :: e in others <==>
        e.group in table && table[e.group] == e && e.filingPeriod == period && e.group !in groups)
  }

  ghost predicate OtherPs(others: seq<PsEntry>, table: map<string, PsEntry>, period: string, groups: seq<string>) {
    && OnePsPerGroup(others)
    && (forall e :: e in others <==>
        e.group in table && table[e.group] == e && e.filingPeriod == period && e.group !in groups)
  }

  lemma DistinctBareOss(entries: seq<OssEntry>)
    requires OneOssPerGroup(entries)
    ensures Distinct(MapSeq(BareOss, entries))
  {
    var bare := MapSeq(BareOss, entries);
    forall i, j | 0 <= i < j < |bare| ensures bare[i] != bare[j] {
      assert bare[i].group == entries[i].group && bare[j].group == entries[j].group;
    }
  }

  lemma DistinctBarePs(entries: seq<PsEntry>)
    requires OnePsPerGroup(entries)
    ensures Distinct(MapSeq(BarePs, entries))
  {
    var bare := MapSeq(BarePs, entries);
    forall i, j | 0 <= i < j < |bare| ensures bare[i] != bare[j] {
      assert bare[i].group == entries[i].group && bare[j].group == entries[j].group;
    }
  }

  lemma InMap<A, B>(f: A -> B, s: seq<A>, x: A)
    requires x in s
    ensures f(x) in MapSeq(f, s)
  {
    var i :| 0 <= i < |s| && s[i] == x;
    assert MapSeq(f, s)[i] == f(x);
  }

  lemma OfMap<A, B>(f: A -> B, s: seq<A>, y: B) returns (x: A)
    requires y in MapSeq(f, s)
    ensures x in s && f(x) == y
  {
    var i :| 0 <= i < |s| && MapSeq(f, s)[i] == y;
    x := s[i];
  }

  /** What is listed after a rebuild: the built rows in the form of the columns, and the rows of the
      period that belong to other groups. */
  lemma OssRowsListed(before: map<string, OssEntry>, after: map<string, OssEntry>, s: Settings, facts: seq<FilingFact>,
                      cases: map<nat, TaxCase>, groups: seq<string>, period: string,
                      built: seq<OssEntry>, others: seq<OssEntry>, listing: seq<OssEntry>)
    requires Entries.Dated(facts) && OssRowsAgree(before, after, s, facts, cases, groups)
    requires OssOfGroups(built, s, facts, cases, groups) && (forall e :: e in built ==> e.filingPeriod == period)
    requires OtherOss(others, before, period, groups) && ListsOss(listing, after, period)
    ensures multiset(MapSeq(BareOss, listing)) == multiset(MapSeq(BareOss, MapSeq(AsColumns, built) + others))
  {
    hide OssRow, Filled;
    var rows := MapSeq(AsColumns, built) + others;
    forall i, j | 0 <= i < j < |rows| ensures rows[i].group != rows[j].group {
      if i < |built| { assert built[i] in built && rows[i].group == built[i].group; }
      if j >= |built| { assert rows[j] in others; }
    }
    DistinctBareOss(rows);
    DistinctBareOss(listing);
    var a, b := MapSeq(BareOss, listing), MapSeq(BareOss, rows);
    forall x | x in a ensures x in b {
      var e := OfMap(BareOss, listing, x);
      if e.group in groups {
        assert OssAgrees(after, s, facts, cases, e.group);
        var o :| o in built && o.group == e.group;
        InMap(AsColumns, built, o);
        assert BareOss(AsColumns(o)) == AsColumns(BareOss(o)) == x;
        InMap(BareOss, rows, AsColumns(o));
      } else {
        assert e.group !in ToSet(groups);
        assert e in others && e in rows;
        InMap(BareOss, rows, e);
      }
    }
    forall x | x in b ensures x in a {
      var r := OfMap(BareOss, rows, x);
      if r in others {
        assert r.group !in ToSet(groups);
        assert r in listing;
        InMap(BareOss, listing, r);
      } else {
        var o := OfMap(AsColumns, built, r);
        assert OssAgrees(after, s, facts, cases, o.group);
        var e := after[o.group];
        assert e.(id := 0) == AsColumns(BareOss(o)) == x;
        assert e.group == x.group == o.group && e.filingPeriod == x.filingPeriod == o.filingPeriod;
        assert e in listing;
        InMap(BareOss, listing, e);
      }
    }
    assert ToSet(a) == ToSet(b);
    DistinctSameSet(a, b);
  }

  lemma PsRowsListed(before: map<string, PsEntry>, after: map<string, PsEntry>, facts: seq<FilingFact>,
                     cases: map<nat, TaxCase>, groups: seq<string>, period: string,
                     built: seq<PsEntry>, others: seq<PsEntry>, listing: seq<PsEntry>)
    requires Entries.Dated(facts) && PsRowsAgree(before, after, facts, cases, groups)
    requires PsOfGroups(built, facts, cases, groups) && (forall e :: e in built ==> e.filingPeriod == period)
    requires OtherPs(others, before, period, groups) && ListsPs(listing, after, period)
    ensures multiset(MapSeq(BarePs, listing)) == multiset(MapSeq(BarePs, built + others))
  {
    hide PsRow;
    var rows := built + others;
    forall i, j | 0 <= i < j < |rows| ensures rows[i].group != rows[j].group {
      if i < |built| { assert built[i] in built; }
      if j >= |built| { assert rows[j] in others; }
    }
    DistinctBarePs(rows);
    DistinctBarePs(listing);
    var a, b := MapSeq(BarePs, listing), MapSeq(BarePs, rows);
    forall x | x in a ensures x in b {
      var e := OfMap(BarePs, listing, x);
      if e.group in groups {
        assert PsAgrees(after, facts, cases, e.group);
        var o :| o in built && o.group == e.group;
        assert o in rows;
        InMap(BarePs, rows, o);
      } else {
        assert e.group !in ToSet(groups);
        assert e in others && e in rows;
        InMap(BarePs, rows, e);
      }
    }
    forall x | x in b ensures x in a {
      var r := OfMap(BarePs, rows, x);
      if r in others {
        assert r.group !in ToSet(groups);
        assert r in listing;
        InMap(BarePs, listing, r);
      } else {
        assert PsAgrees(after, facts, cases, r.group);
        var e := after[r.group];
        assert e.(id := 0) == x;
        assert e.group == x.group == r.group && e.filingPeriod == x.filingPeriod == r.filingPeriod;
        assert e in listing;
        InMap(BarePs, listing, e);
      }
    }
    assert ToSet(a) == ToSet(b);
    DistinctSameSet(a, b);
  }

  // ---------------------------------------------------------------------------
  // RunPeriod
  // ---------------------------------------------------------------------------

  lemma {:induction false} FilteredPeriod(entries: seq<OssEntry>, ps: seq<PsEntry>, period: string)
    ensures forall e :: e in OssOfPeriod(entries, period) ==> e.filingPeriod == period
    ensures forall e :: e in PsOfPeriod(ps, period) ==> e.filingPeriod == period
    decreases |entries| + |ps|
  {
    if entries != [] { FilteredPeriod(entries[..|entries| - 1], ps, period); }
    if ps != [] { FilteredPeriod(entries, ps[..|ps| - 1], period); }
  }

  /** What the facts themselves build, as the table would hold it. */
  function OssFromFacts(s: Settings, facts: seq<FilingFact>, cases: map<nat, TaxCase>): seq<OssEntry>
    requires Entries.Dated(facts)
  {
    MapSeq(AsColumns, AllOss(s, facts, cases, FilingGroups(facts), 0))
  }

  function PsFromFacts(facts: seq<FilingFact>, cases: map<nat, TaxCase>): seq<PsEntry>
    requires Entries.Dated(facts)
  {
    AllPs(facts, cases, FilingGroups(facts), 0)
  }

  lemma OssListedInput(t: Tables, t': Tables, s: Settings, period: string, facts: seq<FilingFact>,
                       cases: map<nat, TaxCase>, others: seq<OssEntry>, listing: seq<OssEntry>, identifier: string)
    requires Entries.Dated(facts) && AllOf(facts, OssUnion, period) && KindAgrees(t, t', s, OssUnion, facts, cases)
    requires OtherOss(others, t.oss, period, FilingGroups(facts)) && ListsOss(listing, t'.oss, period)
    ensures OssInput(identifier, period, listing) == OssInput(identifier, period, OssFromFacts(s, facts, cases) + others)
  {
    var groups := FilingGroups(facts);
    GroupsAreDistinct(facts);
    hide FilingGroups, AllOss, AllPs, OssInput, OssRowsAgree, OssOfGroups, PsOfGroups, OssOfPeriod, PsOfPeriod, AllOf,
         Entries.Dated, MapSeq, OtherOss, ListsOss;
    AllOfGroups(s, facts, cases, groups, 0);
    var built := AllOss(s, facts, cases, groups, 0);
    OssFilterDropsNothing(s, facts, cases, groups, 0, period, period);
    FilteredPeriod(built, [], period);
    OssRowsListed(t.oss, t'.oss, s, facts, cases, groups, period, built, others, listing);
    OssInputUpTo(identifier, period, listing, OssFromFacts(s, facts, cases) + others);
  }

  lemma PsListedInput(t: Tables, t': Tables, s: Settings, period: string, facts: seq<FilingFact>,
                      cases: map<nat, TaxCase>, others: seq<PsEntry>, listing: seq<PsEntry>, reporter: Reporter)
    requires Entries.Dated(facts) && AllOf(facts, PeriodicSummary, period)
    requires KindAgrees(t, t', s, PeriodicSummary, facts, cases)
    requires OtherPs(others, t.ps, period, FilingGroups(facts)) && ListsPs(listing, t'.ps, period)
    ensures PsInput(reporter, period, listing) == PsInput(reporter, period, PsFromFacts(facts, cases) + others)
  {
    var groups := FilingGroups(facts);
    GroupsAreDistinct(facts);
    hide FilingGroups, AllOss, AllPs, PsInput, PsRowsAgree, OssOfGroups, PsOfGroups, OssOfPeriod, PsOfPeriod, AllOf,
         Entries.Dated, MapSeq, OtherPs, ListsPs;
    AllOfGroups(s, facts, cases, groups, 0);
    var built := AllPs(facts, cases, groups, 0);
    PsFilterDropsNothing(facts, cases, groups, 0, period);
    FilteredPeriod([], built, period);
    PsRowsListed(t.ps, t'.ps, facts, cases, groups, period, built, others, listing);
    PsInputUpTo(reporter, period, listing, PsFromFacts(facts, cases) + others);
  }

  /** What a period's file is made of: the rows that its facts build, and the rows that are filed in
      it for groups without facts in it. */
  function FromFacts(kind: Kind, identifier: string, reporter: Reporter, period: string, s: Settings,
                     facts: seq<FilingFact>, cases: map<nat, TaxCase>, otherOss: seq<OssEntry>,
                     otherPs: seq<PsEntry>): Input
    requires Entries.Dated(facts)
  {
    match kind
    case OssUnion => OssInput(identifier, period, OssFromFacts(s, facts, cases) + otherOss)
    case PeriodicSummary => PsInput(reporter, period, PsFromFacts(facts, cases) + otherPs)
  }

  /** After a committed backfill of a canonically named period, what is listed for it prints what the
      stored facts build, together with the rows of groups that have no facts in it. */
  lemma BackfilledInput(t: Tables, s: Settings, kind: Kind, period: string, stored: seq<FilingFact>,
                        cases: map<nat, TaxCase>, firstId: nat, otherOss: seq<OssEntry>, otherPs: seq<PsEntry>,
                        listedOss: seq<OssEntry>, listedPs: seq<PsEntry>, identifier: string, reporter: Reporter)
    requires Entries.Dated(stored) && CanonicalName(kind, period) == period
    requires BackfillTx(t, s, kind, period, stored, cases, firstId).Some?
    requires var facts := PeriodFacts(kind, period, stored);
      var t' := BackfillTx(t, s, kind, period, stored, cases, firstId).value;
      && OtherOss(otherOss, t.oss, period, FilingGroups(facts)) && OtherPs(otherPs, t.ps, period, FilingGroups(facts))
      && ListsOss(listedOss, t'.oss, period) && ListsPs(listedPs, t'.ps, period)
    ensures Entries.Dated(PeriodFacts(kind, period, stored))
    ensures (match kind
             case OssUnion => OssInput(identifier, period, listedOss)
             case PeriodicSummary => PsInput(reporter, period, listedPs))
      == FromFacts(kind, identifier, reporter, period, s, PeriodFacts(kind, period, stored), cases, otherOss, otherPs)
  {
    PeriodFactsAreItsOwn(kind, period, stored);
    BackfillAgrees(t, s, kind, period, stored, cases, firstId);
    var facts, t' := PeriodFacts(kind, period, stored), BackfillTx(t, s, kind, period, stored, cases, firstId).value;
    hide PeriodFacts, BackfillTx, CanonicalName, Entries.Dated, KindAgrees, AllOf, OtherOss, OtherPs, ListsOss, ListsPs,
         OssInput, PsInput, FilingGroups, OssFromFacts, PsFromFacts;
    match kind
    case OssUnion => OssListedInput(t, t', s, period, facts, cases, otherOss, listedOss, identifier);
    case PeriodicSummary => PsListedInput(t, t', s, period, facts, cases, otherPs, listedPs, reporter);
  }

  lemma {:induction false} UpsertsKeepKeys(oss: map<string, OssEntry>, ps: map<string, PsEntry>,
                                           ossEntries: seq<OssEntry>, psEntries: seq<PsEntry>)
    requires OssKeyed(oss) && PsKeyed(ps)
    ensures UpsertOss(oss, ossEntries).Some? ==> OssKeyed(UpsertOss(oss, ossEntries).value)
    ensures UpsertPs(ps, psEntries).Some? ==> PsKeyed(UpsertPs(ps, psEntries).value)
    decreases |ossEntries| + |psEntries|
  {
    hide Filled, OssStorable, PsStorable;
    if ossEntries != [] { UpsertsKeepKeys(oss, ps, ossEntries[..|ossEntries| - 1], psEntries); }
    if psEntries != [] { UpsertsKeepKeys(oss, ps, ossEntries, psEntries[..|psEntries| - 1]); }
  }

  lemma BackfillKeepsKeys(t: Tables, s: Settings, kind: Kind, period: string, stored: seq<FilingFact>,
                          cases: map<nat, TaxCase>, firstId: nat)
    requires Entries.Dated(stored) && OssKeyed(t.oss) && PsKeyed(t.ps)
    ensures BackfillTx(t, s, kind, period, stored, cases, firstId).Some? ==>
      var t' := BackfillTx(t, s, kind, period, stored, cases, firstId).value; OssKeyed(t'.oss) && PsKeyed(t'.ps)
  {
    PeriodFactsAreItsOwn(kind, period, stored);
    BackfillReads(t, s, kind, period, stored, cases, firstId);
    var facts := PeriodFacts(kind, period, stored);
    var groups := FilingGroups(facts);
    hide PeriodFacts, BackfillTx, FilingGroups, AllOss, AllPs, UpsertOss, UpsertPs, OssOfPeriod, PsOfPeriod, UpsertPeriods,
         PeriodDateRange, Entries.Dated;
    UpsertsKeepKeys(t.oss - ToSet(groups), t.ps - ToSet(groups),
                    OssOfPeriod(AllOss(s, facts, cases, groups, firstId), period),
                    PsOfPeriod(AllPs(facts, cases, groups, firstId), period));
  }

  /** Rebuilds a period from the stored facts and evaluates it whatever the time. `store` holds the
      entries of all periods, `p` the exports of this one; `otherOss` and `otherPs` are the rows that
      are filed in the period for groups without facts in it. */
  method RunPeriod(store: FilingStore, p: PeriodExports, s: Settings, stored: seq<FilingFact>, cases: map<nat, TaxCase>,
                   firstId: nat, backfill: Outcome, env: Environment,
                   ghost otherOss: seq<OssEntry>, ghost otherPs: seq<PsEntry>)
    returns (r: Answer)
    requires p.Valid() && Exports.At(p.machine, 0).Idle?
    requires Entries.Dated(stored) && Entries.Dated(PeriodFacts(p.kind, p.period, stored))
    requires OssKeyed(store.oss) && PsKeyed(store.ps)
    requires OtherOss(otherOss, store.oss, p.period, FilingGroups(PeriodFacts(p.kind, p.period, stored)))
    requires OtherPs(otherPs, store.ps, p.period, FilingGroups(PeriodFacts(p.kind, p.period, stored)))
    modifies store, p
    ensures p.Valid() && Exports.At(p.machine, 0).Idle?
    ensures var attempt := BackfillTx(old(store.Content()), s, p.kind, p.period, stored, cases, firstId);
      store.Content() == Kept(old(store.Content()), attempt, backfill)
    ensures var facts := PeriodFacts(p.kind, p.period, stored);
      var input := FromFacts(p.kind, p.identifier, p.reporter, p.period, s, facts, cases, otherOss, otherPs);
      CanonicalName(p.kind, p.period) == p.period && !old(p.row).submitted && r != Failed && input.Content? ==>
        Shows(p.exports, Sha(input.text))
    ensures var facts := PeriodFacts(p.kind, p.period, stored);
      var input := FromFacts(p.kind, p.identifier, p.reporter, p.period, s, facts, cases, otherOss, otherPs);
      (&& CanonicalName(p.kind, p.period) == p.period && !input.Broken?
       && BackfillTx(old(store.Content()), s, p.kind, p.period, stored, cases, firstId).Some? && backfill.Done?
       && env.Faultless() && env.newId !in old(p.exports)) ==> r != Failed
  {
    hide BackfillTx, PeriodFacts, Entries.Dated, FilingGroups, OtherOss, OtherPs, OssInput, PsInput, Exports.Run,
         Exports.Init, Shows, ShowsFile, CanonicalName, OssFromFacts, PsFromFacts, OssKeyed, PsKeyed, ListsOss, ListsPs;
    ghost var t := store.Content();
    var rebuilt := store.BackfillPeriod(s, p.kind, p.period, stored, cases, firstId, backfill);
    if !rebuilt { return Failed; }
    BackfillKeepsKeys(t, s, p.kind, p.period, stored, cases, firstId);
    var listedOss := ListOss(store.oss, p.period);
    var listedPs := ListPs(store.ps, p.period);
    if CanonicalName(p.kind, p.period) == p.period {
      BackfilledInput(t, s, p.kind, p.period, stored, cases, firstId, otherOss, otherPs, listedOss, listedPs,
                      p.identifier, p.reporter);
    }
    p.ReplaceEntries(listedOss, listedPs);
    r := p.EvaluatePeriod(true, env);
  }
}
