/** What a backfill adds to what the webhooks' syncs have left: nothing, where they saw the same
    facts and tax cases. */
module BackfillLaws {
  import opened Grouping
  import opened Ledger
  import opened FactBuilders
  import opened Periods
  import opened Entries
  import opened EntryTables
  import opened EntryLaws
  import opened EntryMeaning

  // ---------------------------------------------------------------------------
  // A group lies in one period
  // ---------------------------------------------------------------------------

  predicate OneDate(facts: seq<FilingFact>, g: string) {
    forall a, b :: a in facts && b in facts && a.fact.group == g && b.fact.group == g ==> a.fact.date == b.fact.date
  }

  /** Every group that the builders make has one date. */
  lemma BuiltGroupsHaveOneDate(s: SaleInput, r: RefundInput, t: Transfer, id: nat)
    ensures forall f :: f in s.SaleGroup(id) ==> f.date == s.chargeDate
    ensures forall f :: f in r.Facts(id) ==> f.date == r.date
    ensures forall f :: f in t.Facts(id) ==> f.date == t.date
  {}

  lemma {:induction false} GroupWithin(stored: seq<FilingFact>, range: (Date, Date), g: string)
    requires FilingRelevant(g)
    requires forall f :: f in stored && f.fact.group == g ==> Within(f.fact.date, range)
    ensures GroupFacts(Collect(RelevantIn(range), stored), g) == GroupFacts(stored, g)
  {
    hide Within, FilingRelevant;
    if stored != [] {
      var front, f := stored[..|stored| - 1], stored[|stored| - 1];
      GroupWithin(front, range, g);
      var kept := Collect(RelevantIn(range), front);
      CollectSnoc(InGroup(g), kept, f);
    }
  }

  /** A relevant group of one date is read whole or not at all. */
  lemma WholeGroup(kind: Kind, period: string, stored: seq<FilingFact>, g: string)
    requires Entries.Dated(stored) && OneDate(stored, g) && g in FilingGroups(PeriodFacts(kind, period, stored))
    ensures GroupFacts(PeriodFacts(kind, period, stored), g) == GroupFacts(stored, g)
  {
    var facts := PeriodFacts(kind, period, stored);
    var f := FactOfGroup(facts, g);
    hide PeriodDateRange, FilingGroups, Within, FilingRelevant, GroupFacts;
    match PeriodDateRange(kind, period)
    case None =>
    case Some(range) =>
      RelevantFacts(stored, range);
      GroupWithin(stored, range, g);
  }

  lemma FactOfGroup(facts: seq<FilingFact>, g: string) returns (f: FilingFact)
    requires g in FilingGroups(facts)
    ensures f in facts && f.fact.group == g
  {
    GroupsAreDistinct(facts);
    hide FilingGroups;
    assert g in ToSet(FilingGroups(facts));
    var x :| x in Collect(GroupOf, facts) && x.key == g;
    f := GroupedFact(facts, x);
  }

  lemma {:induction false} GroupedFact(facts: seq<FilingFact>, x: Keyed<string>) returns (f: FilingFact)
    requires x in Collect(GroupOf, facts)
    ensures f in facts && f.fact.group == x.key
  {
    if GroupOf(facts[|facts| - 1]) == Some(x) {
      f := facts[|facts| - 1];
    } else {
      f := GroupedFact(facts[..|facts| - 1], x);
    }
  }

  /** After a committed backfill each group of one date with facts in the period has the row that
      all of its stored facts build. */
  lemma BackfillFilesWholeGroups(t: Tables, s: Settings, kind: Kind, period: string, stored: seq<FilingFact>,
                                 cases: map<nat, TaxCase>, firstId: nat, g: string)
    requires Entries.Dated(stored) && CanonicalName(kind, period) == period
    requires BackfillTx(t, s, kind, period, stored, cases, firstId).Some?
    requires g in FilingGroups(PeriodFacts(kind, period, stored)) && OneDate(stored, g)
    ensures var t' := BackfillTx(t, s, kind, period, stored, cases, firstId).value;
      match kind
      case OssUnion => OssAgrees(t'.oss, s, stored, cases, g)
      case PeriodicSummary => PsAgrees(t'.ps, stored, cases, g)
  {
    BackfillAgrees(t, s, kind, period, stored, cases, firstId);
    WholeGroup(kind, period, stored, g);
    hide BackfillTx, PeriodFacts, FilingGroups, GroupFacts, OssOfGroup, PsOfGroup, Entries.Dated;
    var facts := PeriodFacts(kind, period, stored);
    assert OssRow(s, facts, cases, g, 0) == OssRow(s, stored, cases, g, 0);
    assert PsRow(facts, cases, g, 0) == PsRow(stored, cases, g, 0);
  }

  // ---------------------------------------------------------------------------
  // The same facts build the same row
  // ---------------------------------------------------------------------------

  /** A fact without the time at which its row was created. */
  function Untimed(f: FilingFact): FilingFact { f.(createdAt := 0) }

  lemma {:induction false} UntimedSummary(facts: seq<FilingFact>)
    ensures Summarized(MapSeq(Untimed, facts)) == Summarized(facts)
  {
    hide Noted;
    if facts != [] {
      UntimedSummary(facts[..|facts| - 1]);
      assert MapSeq(Untimed, facts)[..|facts| - 1] == MapSeq(Untimed, facts[..|facts| - 1]);
    }
  }

  lemma UntimedUniform(facts: seq<FilingFact>)
    requires Uniform(facts)
    ensures Uniform(MapSeq(Untimed, facts))
  {
    hide IsGross, IsRevenue, IsVat;
    var u := MapSeq(Untimed, facts);
    forall a, b | a in u && b in u ensures Alike(a, b) {
      var i :| 0 <= i < |u| && u[i] == a;
      var j :| 0 <= j < |u| && u[j] == b;
      assert facts[i] in facts && facts[j] in facts && Alike(facts[i], facts[j]);
      assert HeaderOf(facts[i]) == HeaderOf(a) && HeaderOf(facts[j]) == HeaderOf(b);
    }
  }

  /** Both sources of tax cases give the same case for a fact's reference. */
  predicate SameCase(f: FilingFact, cases: map<nat, TaxCase>, cases': map<nat, TaxCase>) {
    f.fact.taxCase.Some? ==>
      var id := f.fact.taxCase.value; (id in cases <==> id in cases') && (id in cases ==> cases[id] == cases'[id])
  }

  /** Two readings of one event's facts, in whatever order and with whatever creation times, give
      the same context. */
  lemma SameContext(a: seq<FilingFact>, b: seq<FilingFact>, cases: map<nat, TaxCase>, cases': map<nat, TaxCase>)
    requires Uniform(a) && Uniform(b) && multiset(MapSeq(Untimed, a)) == multiset(MapSeq(Untimed, b))
    requires forall f :: f in b ==> SameCase(f, cases, cases')
    ensures ContextOf(a, cases) == ContextOf(b, cases')
  {
    var ua, ub := MapSeq(Untimed, a), MapSeq(Untimed, b);
    SameMembers(ua, ub);
    if a == [] {
      assert b == [];
    } else {
      UntimedSummary(a);
      UntimedSummary(b);
      UntimedUniform(a);
      UntimedUniform(b);
      hide Alike, Summarized;
      SummarizedSums(ua);
      SummarizedSums(ub);
      SumsUnique(ua, ub, Summarized(ua), Summarized(ub));
      hide Sums;
      ContextIgnoresOrder(a, a, cases);
      ContextIgnoresOrder(b, b, cases');
      assert ub[0] in ub && ub[0] in ua;
      var k :| 0 <= k < |ua| && ua[k] == ub[0];
      assert a[0] in a && a[k] in a && Alike(a[0], a[k]);
      AlikeUntimed(a[0], a[k], b[0]);
      SameRepresentative(a[0], b[0], Summarized(a), cases);
      assert b[0] in b;
      hide ContextOf;
      CaseDecides(b[0], Summarized(b), cases, cases');
    }
  }

  lemma AlikeUntimed(a: FilingFact, b: FilingFact, c: FilingFact)
    requires Alike(a, b) && Untimed(b) == Untimed(c)
    ensures Alike(a, c)
  {
    hide IsGross, IsRevenue, IsVat;
    assert b.fact == Untimed(b).fact == c.fact && b.charged == Untimed(b).charged == c.charged;
  }

  lemma CaseDecides(f: FilingFact, s: Summary, cases: map<nat, TaxCase>, cases': map<nat, TaxCase>)
    requires SameCase(f, cases, cases')
    ensures ContextFor(f, s, cases) == ContextFor(f, s, cases')
  {}

  /** Two readings hold the same facts of a group and find the same tax case for it. */
  ghost predicate SameGroup(facts: seq<FilingFact>, cases: map<nat, TaxCase>,
                            facts': seq<FilingFact>, cases': map<nat, TaxCase>, g: string) {
    var a, b := GroupFacts(facts, g), GroupFacts(facts', g);
    && Uniform(a) && Uniform(b) && multiset(MapSeq(Untimed, a)) == multiset(MapSeq(Untimed, b))
    && forall f :: f in b ==> SameCase(f, cases, cases')
  }

  lemma SameRow(s: Settings, facts: seq<FilingFact>, cases: map<nat, TaxCase>,
                facts': seq<FilingFact>, cases': map<nat, TaxCase>, g: string)
    requires Entries.Dated(facts) && Entries.Dated(facts') && SameGroup(facts, cases, facts', cases', g)
    ensures OssRow(s, facts, cases, g, 0) == OssRow(s, facts', cases', g, 0)
    ensures PsRow(facts, cases, g, 0) == PsRow(facts', cases', g, 0)
  {
    GroupFactsDated(facts, g);
    GroupFactsDated(facts', g);
    var a, b := GroupFacts(facts, g), GroupFacts(facts', g);
    SameMembers(MapSeq(Untimed, a), MapSeq(Untimed, b));
    SameContext(a, b, cases, cases');
    hide ContextOf, GroupFacts, Uniform, OssEntryFor, PsEntryFor, Entries.Dated, SameGroup;
  }

  // ---------------------------------------------------------------------------
  // A backfill after the syncs
  // ---------------------------------------------------------------------------

  /** A backfill of a period whose rows already agree with its facts changes nothing but row ids. */
  lemma BackfillOfAgreement(t: Tables, s: Settings, kind: Kind, period: string, stored: seq<FilingFact>,
                            cases: map<nat, TaxCase>, firstId: nat)
    requires Entries.Dated(stored) && Entries.Dated(PeriodFacts(kind, period, stored))
    requires CanonicalName(kind, period) == period
    requires BackfillTx(t, s, kind, period, stored, cases, firstId).Some?
    requires forall g :: g in FilingGroups(PeriodFacts(kind, period, stored)) ==>
      match kind
      case OssUnion => OssAgrees(t.oss, s, PeriodFacts(kind, period, stored), cases, g)
      case PeriodicSummary => PsAgrees(t.ps, PeriodFacts(kind, period, stored), cases, g)
    ensures var t' := BackfillTx(t, s, kind, period, stored, cases, firstId).value;
      SameOssRows(t.oss, t'.oss) && SamePsRows(t.ps, t'.ps)
  {
    BackfillAgrees(t, s, kind, period, stored, cases, firstId);
    var facts, t' := PeriodFacts(kind, period, stored), BackfillTx(t, s, kind, period, stored, cases, firstId).value;
    hide PeriodFacts, BackfillTx, CanonicalName, Entries.Dated, OssAgrees, PsAgrees, FilingGroups, SameOssRows, SamePsRows;
    match kind
    case OssUnion =>
      OssAgreementIsUnique(t.oss, t.oss, t'.oss, s, facts, cases, FilingGroups(facts));
      KeptPs(t.ps);
    case PeriodicSummary =>
      PsAgreementIsUnique(t.ps, t.ps, t'.ps, facts, cases, FilingGroups(facts));
      KeptOss(t.oss);
  }

  lemma {:induction false} RowsStorable(s: Settings, facts: seq<FilingFact>, cases: map<nat, TaxCase>, groups: seq<string>,
                                        firstId: nat)
    requires Entries.Dated(facts)
    ensures OssAllStorable(AllOss(s, facts, cases, groups, firstId)) <==>
      forall g :: g in groups && OssRow(s, facts, cases, g, 0).Some? ==> OssStorable(OssRow(s, facts, cases, g, 0).value)
    ensures PsAllStorable(AllPs(facts, cases, groups, firstId)) <==>
      forall g :: g in groups && PsRow(facts, cases, g, 0).Some? ==> PsStorable(PsRow(facts, cases, g, 0).value)
  {
    hide OssRow, PsRow, OssAllStorable, PsAllStorable, OssStorable, PsStorable;
    if groups == [] {
      NothingStorable();
    } else {
      var n := |groups| - 1;
      var front, g := groups[..n], groups[n];
      assert groups == front + [g];
      RowsStorable(s, facts, cases, front, firstId);
      OssRowOfGroup(s, facts, cases, g, firstId + 2 * n);
      PsRowOfGroup(facts, cases, g, firstId + 2 * n + 1);
      var o, p := OssRow(s, facts, cases, g, firstId + 2 * n), PsRow(facts, cases, g, firstId + 2 * n + 1);
      var oss, ps := AllOss(s, facts, cases, front, firstId), AllPs(facts, cases, front, firstId);
      if o.Some? { StorableSnocOss(oss, o.value); } else { assert oss + [] == oss; }
      if p.Some? { StorableSnocPs(ps, p.value); } else { assert ps + [] == ps; }
    }
  }

  lemma NothingStorable()
    ensures OssAllStorable([]) && PsAllStorable([])
  {}

  lemma RebuildOfStorable(t: Tables, s: Settings, kind: Kind, period: string, facts: seq<FilingFact>,
                          cases: map<nat, TaxCase>, firstId: nat)
    requires Entries.Dated(facts) && AllOf(facts, kind, period)
    requires OssAllStorable(AllOss(s, facts, cases, FilingGroups(facts), firstId))
    requires PsAllStorable(AllPs(facts, cases, FilingGroups(facts), firstId))
    ensures BackfillFrom(t, s, kind, period, facts, cases, firstId).Some?
  {
    var groups := FilingGroups(facts);
    hide FilingGroups, AllOss, AllPs, UpsertOss, UpsertPs, OssOfPeriod, PsOfPeriod, UpsertPeriods, AllOf, Entries.Dated,
         OssAllStorable, PsAllStorable;
    match kind
    case OssUnion =>
      OssFilterDropsNothing(s, facts, cases, groups, firstId, period, period);
      OssCommits(t.oss - ToSet(groups), AllOss(s, facts, cases, groups, firstId));
    case PeriodicSummary =>
      PsFilterDropsNothing(facts, cases, groups, firstId, period);
      PsCommits(t.ps - ToSet(groups), AllPs(facts, cases, groups, firstId));
  }

  /** A backfill after a webhook's sync commits and changes nothing but row ids, if the webhook brought
      the facts that are stored for the period and the sync found the tax cases that the database
      keeps. */
  lemma BackfillAfterSync(t: Tables, s: Settings, facts: seq<FilingFact>, cases: map<nat, TaxCase>, id1: nat,
                          kind: Kind, period: string, stored: seq<FilingFact>, kept: map<nat, TaxCase>, id2: nat)
    requires Entries.Dated(facts) && Entries.Dated(stored)
    requires PeriodDateRange(kind, period).Some? && CanonicalName(kind, period) == period
    requires SyncTx(t, s, facts, cases, id1).Some?
    requires forall g :: g in FilingGroups(PeriodFacts(kind, period, stored)) ==>
      g in FilingGroups(facts) && SameGroup(facts, cases, PeriodFacts(kind, period, stored), kept, g)
    ensures var t' := SyncTx(t, s, facts, cases, id1).value; var r := BackfillTx(t', s, kind, period, stored, kept, id2);
      r.Some? && SameOssRows(t'.oss, r.value.oss) && SamePsRows(t'.ps, r.value.ps)
  {
    PeriodFactsAreItsOwn(kind, period, stored);
    SyncAgrees(t, s, facts, cases, id1);
    SyncCommits(t, s, facts, cases, id1);
    var inPeriod, t' := PeriodFacts(kind, period, stored), SyncTx(t, s, facts, cases, id1).value;
    BackfillReads(t', s, kind, period, stored, kept, id2);
    hide PeriodFacts, PeriodDateRange, BackfillTx, BackfillFrom, SyncTx, CanonicalName, Entries.Dated, FilingGroups,
         SameGroup, OssRow, PsRow, SameOssRows, SamePsRows, AllOf, OssAllStorable, PsAllStorable, OssStorable, PsStorable;
    RowsStorable(s, facts, cases, FilingGroups(facts), id1);
    forall g | g in FilingGroups(inPeriod)
      ensures OssRow(s, facts, cases, g, 0) == OssRow(s, inPeriod, kept, g, 0)
      ensures PsRow(facts, cases, g, 0) == PsRow(inPeriod, kept, g, 0)
      ensures OssAgrees(t'.oss, s, inPeriod, kept, g) && PsAgrees(t'.ps, inPeriod, kept, g)
    {
      SameRow(s, facts, cases, inPeriod, kept, g);
      assert OssAgrees(t'.oss, s, facts, cases, g) && PsAgrees(t'.ps, facts, cases, g);
    }
    RowsStorable(s, inPeriod, kept, FilingGroups(inPeriod), id2);
    RebuildOfStorable(t', s, kind, period, inPeriod, kept, id2);
    BackfillOfAgreement(t', s, kind, period, stored, kept, id2);
  }
}
