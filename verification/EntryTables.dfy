/** The filing tables and the two ways they are filled: from a webhook's facts, and again from
    all stored facts of a period. internal/filings/service_run.go, build_helpers.go and
    internal/store/filing_entry_queries.go. */
module EntryTables {
  import opened Grouping
  import opened Text
  import opened Ledger
  import opened Store
  import opened Periods
  import opened Filing
  import opened Entries

  // ---------------------------------------------------------------------------
  // Building all entries
  // ---------------------------------------------------------------------------

  function GroupOf(f: FilingFact): Option<Keyed<string>> {
    if IsFilingGroup(f.fact.group) then Some(Keyed(f.fact.group, 0)) else None
  }

  function InGroup(g: string): FilingFact -> Option<FilingFact> {
    (f: FilingFact) => if f.fact.group == g then Some(f) else None
  }

  /** The facts of one group, in the order given. */
  function GroupFacts(facts: seq<FilingFact>, g: string): seq<FilingFact> { Collect(InGroup(g), facts) }

  /** filingSourceGroups: the groups that are filed, each once, in order. */
  function FilingGroups(facts: seq<FilingFact>): seq<string> { SortedKeys(Collect(GroupOf, facts), StringLeq) }

  lemma {:induction false} GroupFactsDated(facts: seq<FilingFact>, g: string)
    requires Dated(facts)
    ensures Dated(GroupFacts(facts, g))
    ensures forall f :: f in GroupFacts(facts, g) ==> f in facts && f.fact.group == g
  {
    if facts != [] { GroupFactsDated(facts[..|facts| - 1], g); }
  }

  function OssRow(s: Settings, facts: seq<FilingFact>, cases: map<nat, TaxCase>, g: string, id: nat): Option<OssEntry>
    requires Dated(facts)
  {
    GroupFactsDated(facts, g);
    OssOfGroup(s, GroupFacts(facts, g), cases, id)
  }

  function PsRow(facts: seq<FilingFact>, cases: map<nat, TaxCase>, g: string, id: nat): Option<PsEntry>
    requires Dated(facts)
  {
    GroupFactsDated(facts, g);
    PsOfGroup(GroupFacts(facts, g), cases, id)
  }

  function AllOss(s: Settings, facts: seq<FilingFact>, cases: map<nat, TaxCase>, groups: seq<string>,
                  firstId: nat): seq<OssEntry>
    requires Dated(facts)
  {
    if groups == [] then []
    else
      var n := |groups| - 1;
      AllOss(s, facts, cases, groups[..n], firstId)
      + match OssRow(s, facts, cases, groups[n], firstId + 2 * n) case None => [] case Some(e) => [e]
  }

  function AllPs(facts: seq<FilingFact>, cases: map<nat, TaxCase>, groups: seq<string>, firstId: nat): seq<PsEntry>
    requires Dated(facts)
  {
    if groups == [] then []
    else
      var n := |groups| - 1;
      AllPs(facts, cases, groups[..n], firstId)
      + match PsRow(facts, cases, groups[n], firstId + 2 * n + 1) case None => [] case Some(e) => [e]
  }

  function OssPeriods(entries: seq<OssEntry>): set<(Kind, string)> { set e | e in entries :: (OssUnion, e.filingPeriod) }

  function PsPeriods(entries: seq<PsEntry>): set<(Kind, string)> { set e | e in entries :: (PeriodicSummary,
                     e.filingPeriod) }

  ghost predicate Grouped(grouped: map<string, seq<FilingFact>>, facts: seq<FilingFact>) {
    && grouped.Keys == KeySet(Collect(GroupOf, facts))
    && forall g :: g in grouped ==> grouped[g] == GroupFacts(facts, g)
  }

  lemma {:induction false} NoFactsOfAbsentGroup(facts: seq<FilingFact>, g: string)
    requires IsFilingGroup(g) && g !in KeySet(Collect(GroupOf, facts))
    ensures GroupFacts(facts, g) == []
  {
    if facts != [] {
      var front, f := facts[..|facts| - 1], facts[|facts| - 1];
      if IsFilingGroup(f.fact.group) { KeySetSnoc(Collect(GroupOf, front), Keyed(f.fact.group, 0)); }
      NoFactsOfAbsentGroup(front, g);
    }
  }

  lemma AddToGroup(grouped: map<string, seq<FilingFact>>, facts: seq<FilingFact>, f: FilingFact)
    requires Grouped(grouped, facts)
    ensures !IsFilingGroup(f.fact.group) ==> Grouped(grouped, facts + [f])
    ensures var g := f.fact.group; IsFilingGroup(g) ==>
      Grouped(grouped[g := (if g in grouped then grouped[g] else []) + [f]], facts + [f])
  {
    var g := f.fact.group;
    assert (facts + [f])[..|facts|] == facts;
    if IsFilingGroup(g) {
      KeySetSnoc(Collect(GroupOf, facts), Keyed(g, 0));
      if g !in grouped { NoFactsOfAbsentGroup(facts, g); }
    } else {
      assert forall k :: k in grouped ==> IsFilingGroup(k) by { GroupsAreFiled(facts); }
    }
  }

  lemma {:induction false} GroupsAreFiled(facts: seq<FilingFact>)
    ensures forall k :: k in KeySet(Collect(GroupOf, facts)) ==> IsFilingGroup(k)
  {
    if facts != [] {
      var front, f := facts[..|facts| - 1], facts[|facts| - 1];
      GroupsAreFiled(front);
      if IsFilingGroup(f.fact.group) { KeySetSnoc(Collect(GroupOf, front), Keyed(f.fact.group, 0)); }
    }
  }

  method GroupBySource(facts: seq<FilingFact>) returns (grouped: map<string, seq<FilingFact>>)
    ensures Grouped(grouped, facts)
  {
    hide Grouped, IsFilingGroup;
    grouped := map[];
    NothingGrouped();
    for i := 0 to |facts|
      invariant Grouped(grouped, facts[..i])
    {
      var fact := facts[i];
      assert facts[..i + 1] == facts[..i] + [fact];
      AddToGroup(grouped, facts[..i], fact);
      if !IsFilingGroup(fact.fact.group) { continue; }
      var g := fact.fact.group;
      grouped := grouped[g := (if g in grouped then grouped[g] else []) + [fact]];
    }
    assert facts[..|facts|] == facts;
  }

  lemma NothingGrouped()
    ensures Grouped(map[], [])
  {}

  lemma OssPeriodsSnoc(entries: seq<OssEntry>, e: OssEntry)
    ensures OssPeriods(entries + [e]) == OssPeriods(entries) + {(OssUnion, e.filingPeriod)}
  {
    assert forall x :: x in entries + [e] <==> x in entries || x == e;
    assert e in entries + [e];
  }

  lemma PsPeriodsSnoc(entries: seq<PsEntry>, e: PsEntry)
    ensures PsPeriods(entries + [e]) == PsPeriods(entries) + {(PeriodicSummary, e.filingPeriod)}
  {
    assert forall x :: x in entries + [e] <==> x in entries || x == e;
    assert e in entries + [e];
  }

  lemma NoGroups(s: Settings, facts: seq<FilingFact>, cases: map<nat, TaxCase>, firstId: nat)
    requires Dated(facts)
    ensures AllOss(s, facts, cases, [], firstId) == [] && AllPs(facts, cases, [], firstId) == []
    ensures OssPeriods([]) + PsPeriods([]) == {}
  {}

  lemma AllSnoc(s: Settings, facts: seq<FilingFact>, cases: map<nat, TaxCase>, groups: seq<string>, i: nat, firstId: nat)
    requires Dated(facts) && i < |groups|
    ensures AllOss(s, facts, cases, groups[..i + 1], firstId) == AllOss(s, facts, cases, groups[..i], firstId)
      + match OssRow(s, facts, cases, groups[i], firstId + 2 * i) case None => [] case Some(e) => [e]
    ensures AllPs(facts, cases, groups[..i + 1], firstId) == AllPs(facts, cases, groups[..i], firstId)
      + match PsRow(facts, cases, groups[i], firstId + 2 * i + 1) case None => [] case Some(e) => [e]
  {
    hide OssRow, PsRow;
    assert groups[..i + 1][..i] == groups[..i];
  }

  /** One group: its context, and an entry in each table that it is a candidate for. */
  method BuildGroup(s: Settings, facts: seq<FilingFact>, cases: map<nat, TaxCase>,
                    id: nat) returns (oss: Option<OssEntry>, ps: Option<PsEntry>)
    requires Dated(facts)
    ensures oss == OssOfGroup(s, facts, cases, id)
    ensures ps == PsOfGroup(facts, cases, id + 1)
  {
    oss, ps := None, None;
    hide OssEntryFor, PsEntryFor, SortBy;
    var context := BuildGroupContext(facts, cases);
    if context.None? {
      if facts != [] { ContextIsValid(facts, cases); }
      return;
    }
    ContextIsValid(facts, cases);
    if IsOssCandidate(context.value) {
      var e := BuildOssUnionEntry(s, context.value, id);
      oss := Some(e);
    }
    if IsPsCandidate(context.value) {
      var e := BuildPeriodicSummaryEntry(context.value, id + 1);
      ps := Some(e);
    }
  }

  method BuildGroups(s: Settings, groups: seq<string>, grouped: map<string, seq<FilingFact>>,
                     ghost facts: seq<FilingFact>,
                     cases: map<nat, TaxCase>, firstId: nat)
    returns (oss: seq<OssEntry>, ps: seq<PsEntry>, periods: set<(Kind, string)>)
    requires Dated(facts) && Grouped(grouped, facts) && ToSet(groups) == grouped.Keys
    ensures oss == AllOss(s, facts, cases, groups, firstId)
    ensures ps == AllPs(facts, cases, groups, firstId)
    ensures periods == OssPeriods(oss) + PsPeriods(ps)
  {
    hide OssOfGroup, PsOfGroup, Dated, GroupFacts, AllOss, AllPs;
    oss, ps, periods := [], [], {};
    NoGroups(s, facts, cases, firstId);
    for i := 0 to |groups|
      invariant oss == AllOss(s, facts, cases, groups[..i], firstId)
      invariant ps == AllPs(facts, cases, groups[..i], firstId)
      invariant periods == OssPeriods(oss) + PsPeriods(ps)
    {
      assert groups[i] in ToSet(groups);
      AllSnoc(s, facts, cases, groups, i, firstId);
      GroupFactsDated(facts, groups[i]);
      var ossEntry, psEntry := BuildGroup(s, grouped[groups[i]], cases, firstId + 2 * i);
      if ossEntry.Some? {
        OssPeriodsSnoc(oss, ossEntry.value);
        oss := oss + [ossEntry.value];
        periods := periods + {(OssUnion, ossEntry.value.filingPeriod)};
      }
      if psEntry.Some? {
        PsPeriodsSnoc(ps, psEntry.value);
        ps := ps + [psEntry.value];
        periods := periods + {(PeriodicSummary, psEntry.value.filingPeriod)};
      }
    }
    assert groups[..|groups|] == groups;
  }

  method BuildEntries(s: Settings, facts: seq<FilingFact>, cases: map<nat, TaxCase>, firstId: nat)
    returns (oss: seq<OssEntry>, ps: seq<PsEntry>, periods: set<(Kind, string)>)
    requires Dated(facts)
    ensures oss == AllOss(s, facts, cases, FilingGroups(facts), firstId)
    ensures ps == AllPs(facts, cases, FilingGroups(facts), firstId)
    ensures periods == OssPeriods(oss) + PsPeriods(ps)
  {
    var grouped := GroupBySource(facts);
    StringOrder();
    hide TotalOrder, SortedKeys, Dated, GroupFacts, AllOss, AllPs, OssPeriods, PsPeriods;
    var groups := SortedMapKeys(grouped.Keys, StringLeq, Collect(GroupOf, facts));
    oss, ps, periods := BuildGroups(s, groups, grouped, facts, cases, firstId);
  }

  // ---------------------------------------------------------------------------
  // The tables as values
  // ---------------------------------------------------------------------------

  /** One row per source group, as the unique constraint has it. */
  datatype Tables = Tables(oss: map<string, OssEntry>, ps: map<string, PsEntry>, periods: map<(Kind, string), PeriodRow>)

  /** The CHECK constraints and column widths. */
  predicate OssStorable(e: OssEntry) { e.saleType in {"GOODS", "SERVICES"} && |e.country| <= 2 && |e.origin| <= 2 }

  predicate PsStorable(e: PsEntry) { e.rowType in {"goods", "services"} }

  /** The column for the country is two characters wide; shorter texts are filled with blanks. */
  function Filled(s: string): string {
    if |s| == 0 then "  " else if |s| == 1 then s + " " else s
  }

  function AsColumns(e: OssEntry): OssEntry { e.(country := Filled(e.country)) }

  /** Inserting a row of a group that is already there keeps that row's id. */
  function PutOss(m: map<string, OssEntry>, e: OssEntry): map<string, OssEntry> {
    var row := AsColumns(e);
    m[row.group := if row.group in m then row.(id := m[row.group].id) else row]
  }

  function UpsertOss(table: map<string, OssEntry>, entries: seq<OssEntry>): Option<map<string, OssEntry>> {
    if entries == [] then Some(table)
    else
      match UpsertOss(table, entries[..|entries| - 1])
      case None => None
      case Some(m) =>
        var e := entries[|entries| - 1];
        if OssStorable(e) then Some(PutOss(m, e)) else None
  }

  function UpsertPs(table: map<string, PsEntry>, entries: seq<PsEntry>): Option<map<string, PsEntry>> {
    if entries == [] then Some(table)
    else
      match UpsertPs(table, entries[..|entries| - 1])
      case None => None
      case Some(m) =>
        var e := entries[|entries| - 1];
        if PsStorable(e) then Some(m[e.group := if e.group in m then e.(id := m[e.group].id) else e]) else None
  }

  /** A period that is known keeps its row. */
  function UpsertPeriods(rows: map<(Kind, string), PeriodRow>,
                         periods: set<(Kind, string)>): map<(Kind, string), PeriodRow> {
    map p | p in rows.Keys + periods :: if p in rows then rows[p] else PeriodRow(NotEvaluated, false, false)
  }

  /** The rows of some groups replaced in both tables. */
  function ReplaceBoth(t: Tables, groups: seq<string>, oss: seq<OssEntry>, ps: seq<PsEntry>,
                       periods: set<(Kind, string)>): Option<Tables> {
    match UpsertOss(t.oss - ToSet(groups), oss)
    case None => None
    case Some(ossTable) =>
      match UpsertPs(t.ps - ToSet(groups), ps)
      case None => None
      case Some(psTable) => Some(Tables(ossTable, psTable, UpsertPeriods(t.periods, periods)))
  }

  /** SyncWebhookEntries. */
  function SyncTx(t: Tables, s: Settings, facts: seq<FilingFact>, cases: map<nat, TaxCase>, firstId: nat): Option<Tables>
    requires Dated(facts)
  {
    var groups := FilingGroups(facts);
    var oss, ps := AllOss(s, facts, cases, groups, firstId), AllPs(facts, cases, groups, firstId);
    ReplaceBoth(t, groups, oss, ps, OssPeriods(oss) + PsPeriods(ps))
  }

  /** The facts that a backfill reads: those of charges' sales and of refunds in a range. */
  predicate FilingRelevant(group: string) {
    (HasPrefix(group, "charge:") && HasSuffix(group, ":sale") && |group| >= |"charge:"| + |":sale"|) || HasPrefix(group, "refund:")
  }

  function RelevantIn(range: (Date, Date)): FilingFact -> Option<FilingFact> {
    (f: FilingFact) => if FilingRelevant(f.fact.group) && Within(f.fact.date, range) then Some(f) else None
  }

  function OssOfPeriod(entries: seq<OssEntry>, period: string): seq<OssEntry> {
    if entries == [] then []
    else
      var e := entries[|entries| - 1];
      OssOfPeriod(entries[..|entries| - 1], period) + if e.filingPeriod == period then [e] else []
  }

  function PsOfPeriod(entries: seq<PsEntry>, period: string): seq<PsEntry> {
    if entries == [] then []
    else
      var e := entries[|entries| - 1];
      PsOfPeriod(entries[..|entries| - 1], period) + if e.filingPeriod == period then [e] else []
  }

  lemma {:induction false} RelevantFacts(facts: seq<FilingFact>, range: (Date, Date))
    requires Dated(facts)
    ensures Dated(Collect(RelevantIn(range), facts))
    ensures forall f :: f in Collect(RelevantIn(range), facts) ==> f in facts && FilingRelevant(f.fact.group) && Within(f.fact.date, range)
  {
    if facts != [] { RelevantFacts(facts[..|facts| - 1], range); }
  }

  /** The rows of some groups replaced in the table of one kind by those of one period. */
  function ReplaceKind(t: Tables, kind: Kind, period: string, groups: seq<string>, oss: seq<OssEntry>,
                       ps: seq<PsEntry>): Option<Tables> {
    match kind
    case OssUnion =>
      (match UpsertOss(t.oss - ToSet(groups), OssOfPeriod(oss, period))
       case None => None
       case Some(m) => Some(t.(oss := m, periods := UpsertPeriods(t.periods, {(kind, period)}))))
    case PeriodicSummary =>
      (match UpsertPs(t.ps - ToSet(groups), PsOfPeriod(ps, period))
       case None => None
       case Some(m) => Some(t.(ps := m, periods := UpsertPeriods(t.periods, {(kind, period)}))))
  }

  function BackfillFrom(t: Tables, s: Settings, kind: Kind, period: string, facts: seq<FilingFact>,
                        cases: map<nat, TaxCase>, firstId: nat): Option<Tables>
    requires Dated(facts)
  {
    if facts == [] then Some(if kind.OssUnion? then t.(periods := UpsertPeriods(t.periods, {(kind, period)})) else t)
    else
      var groups := FilingGroups(facts);
      ReplaceKind(t, kind, period, groups, AllOss(s, facts, cases, groups, firstId), AllPs(facts, cases, groups, firstId))
  }

  /** BackfillPeriod; None for an invalid period or a row that cannot be stored. */
  function BackfillTx(t: Tables, s: Settings, kind: Kind, period: string, stored: seq<FilingFact>,
                      cases: map<nat, TaxCase>, firstId: nat): Option<Tables>
    requires Dated(stored)
  {
    match PeriodDateRange(kind, period)
    case None => None
    case Some(range) =>
      RelevantFacts(stored, range);
      BackfillFrom(t, s, kind, period, Collect(RelevantIn(range), stored), cases, firstId)
  }

  // ---------------------------------------------------------------------------
  // The tables themselves
  // ---------------------------------------------------------------------------

  class FilingStore {
    var oss: map<string, OssEntry>
    var ps: map<string, PsEntry>
    var periods: map<(Kind, string), PeriodRow>

    constructor ()
      ensures Content() == Tables(map[], map[], map[])
    {
      oss, ps, periods := map[], map[], map[];
    }

    function Content(): Tables
      reads this
    {
      Tables(oss, ps, periods)
    }

    method DeleteOssBySourceGroups(groups: seq<string>)
      modifies this`oss
      ensures oss == old(oss) - ToSet(groups)
    {
      for i := 0 to |groups|
        invariant oss == old(oss) - ToSet(groups[..i])
      {
        assert ToSet(groups[..i + 1]) == ToSet(groups[..i]) + {groups[i]};
        oss := oss - {groups[i]};
      }
      assert groups[..|groups|] == groups;
    }

    method DeletePsBySourceGroups(groups: seq<string>)
      modifies this`ps
      ensures ps == old(ps) - ToSet(groups)
    {
      for i := 0 to |groups|
        invariant ps == old(ps) - ToSet(groups[..i])
      {
        assert ToSet(groups[..i + 1]) == ToSet(groups[..i]) + {groups[i]};
        ps := ps - {groups[i]};
      }
      assert groups[..|groups|] == groups;
    }

    method UpsertOssEntries(entries: seq<OssEntry>) returns (ok: bool)
      modifies this`oss
      ensures ok <==> UpsertOss(old(oss), entries).Some?
      ensures ok ==> Some(oss) == UpsertOss(old(oss), entries)
      ensures forall g :: g in old(oss) ==> g in oss && oss[g].id == old(oss)[g].id
    {
      for i := 0 to |entries|
        invariant UpsertOss(old(oss), entries[..i]) == Some(oss)
        invariant forall g :: g in old(oss) ==> g in oss && oss[g].id == old(oss)[g].id
      {
        var e := entries[i];
        assert entries[..i + 1][..i] == entries[..i];
        if !OssStorable(e) {
          OssFailureStays(old(oss), entries, i + 1);
          return false;
        }
        var row := AsColumns(e);
        oss := oss[row.group := if row.group in oss then row.(id := oss[row.group].id) else row];
      }
      assert entries[..|entries|] == entries;
      return true;
    }

    method UpsertPsEntries(entries: seq<PsEntry>) returns (ok: bool)
      modifies this`ps
      ensures ok <==> UpsertPs(old(ps), entries).Some?
      ensures ok ==> Some(ps) == UpsertPs(old(ps), entries)
      ensures forall g :: g in old(ps) ==> g in ps && ps[g].id == old(ps)[g].id
    {
      for i := 0 to |entries|
        invariant UpsertPs(old(ps), entries[..i]) == Some(ps)
        invariant forall g :: g in old(ps) ==> g in ps && ps[g].id == old(ps)[g].id
      {
        var e := entries[i];
        assert entries[..i + 1][..i] == entries[..i];
        if !PsStorable(e) {
          PsFailureStays(old(ps), entries, i + 1);
          return false;
        }
        ps := ps[e.group := if e.group in ps then e.(id := ps[e.group].id) else e];
      }
      assert entries[..|entries|] == entries;
      return true;
    }

    method UpsertFilingPeriods(added: set<(Kind, string)>)
      modifies this`periods
      ensures periods == UpsertPeriods(old(periods), added)
      ensures periods.Keys == old(periods).Keys + added
      ensures forall p :: p in old(periods) ==> periods[p] == old(periods)[p]
      ensures forall p :: p in added && p !in old(periods) ==> periods[p] == PeriodRow(NotEvaluated, false, false)
    {
      var rest := added;
      while rest != {}
        invariant rest <= added
        invariant periods == UpsertPeriods(old(periods), added - rest)
        decreases rest
      {
        var p :| p in rest;
        rest := rest - {p};
        if p !in periods { periods := periods[p := PeriodRow(NotEvaluated, false, false)]; }
      }
      assert added - rest == added;
    }

    method Restore(saved: Tables)
      modifies this
      ensures Content() == saved
    {
      oss, ps, periods := saved.oss, saved.ps, saved.periods;
    }

    method ReplaceBothRows(groups: seq<string>, ossEntries: seq<OssEntry>, psEntries: seq<PsEntry>,
                           found: set<(Kind, string)>) returns (ok: bool)
      modifies this
      ensures ok <==> ReplaceBoth(old(Content()), groups, ossEntries, psEntries, found).Some?
      ensures ok ==> Some(Content()) == ReplaceBoth(old(Content()), groups, ossEntries, psEntries, found)
    {
      hide UpsertOss, UpsertPs, UpsertPeriods;
      DeleteOssBySourceGroups(groups);
      DeletePsBySourceGroups(groups);
      ok := UpsertOssEntries(ossEntries);
      if ok { ok := UpsertPsEntries(psEntries); }
      if ok { UpsertFilingPeriods(found); }
    }

    method ReplaceKindRows(kind: Kind, period: string, groups: seq<string>, ossEntries: seq<OssEntry>,
                           psEntries: seq<PsEntry>) returns (ok: bool)
      modifies this
      ensures ok <==> ReplaceKind(old(Content()), kind, period, groups, ossEntries, psEntries).Some?
      ensures ok ==> Some(Content()) == ReplaceKind(old(Content()), kind, period, groups, ossEntries, psEntries)
    {
      hide UpsertOss, UpsertPs, UpsertPeriods, OssOfPeriod, PsOfPeriod;
      match kind {
        case OssUnion =>
          DeleteOssBySourceGroups(groups);
          ok := UpsertOssEntries(OssOfPeriod(ossEntries, period));
        case PeriodicSummary =>
          DeletePsBySourceGroups(groups);
          ok := UpsertPsEntries(PsOfPeriod(psEntries, period));
      }
      if ok { UpsertFilingPeriods({(kind, period)}); }
    }

    /** Replaces the rows of every group that the facts name, in one transaction. */
    method SyncWebhookEntries(s: Settings, facts: seq<FilingFact>, cases: map<nat, TaxCase>, firstId: nat,
                              outcome: Outcome)
      returns (acknowledged: bool)
      requires Dated(facts)
      modifies this
      ensures var attempt := SyncTx(old(Content()), s, facts, cases, firstId);
        && Content() == (if attempt.Some? && (outcome.Done? || outcome.Lost?) then attempt.value else old(Content()))
        && Content() == Kept(old(Content()), attempt, outcome)
        && acknowledged == (outcome.Done? && attempt.Some?)
    {
      hide FilingGroups, AllOss, AllPs, ReplaceBoth, OssPeriods, PsPeriods, Dated;
      var sourceGroups := FilingGroups(facts);
      var ossEntries, psEntries, found := BuildEntries(s, facts, cases, firstId);
      var saved := Content();
      var ok := ReplaceBothRows(sourceGroups, ossEntries, psEntries, found);
      if !ok || outcome.Aborted? { Restore(saved); }
      acknowledged := ok && outcome.Done?;
    }

    /** Rebuilds the rows of one kind from the facts of one period, in one transaction. */
    method Rebuild(s: Settings, kind: Kind, period: string, facts: seq<FilingFact>, cases: map<nat, TaxCase>,
                   firstId: nat, outcome: Outcome)
      returns (acknowledged: bool)
      requires Dated(facts)
      modifies this
      ensures var attempt := BackfillFrom(old(Content()), s, kind, period, facts, cases, firstId);
        && Content() == (if attempt.Some? && (outcome.Done? || outcome.Lost?) then attempt.value else old(Content()))
        && Content() == Kept(old(Content()), attempt, outcome)
        && (acknowledged <==> attempt.Some? && (outcome.Done? || (facts == [] && kind.PeriodicSummary?)))
        && (acknowledged ==> attempt == Some(Content()))
    {
      hide FilingGroups, AllOss, AllPs, ReplaceKind, Dated, UpsertPeriods;
      if |facts| == 0 {
        if kind == PeriodicSummary { return true; }
        if outcome != Aborted { UpsertFilingPeriods({(kind, period)}); }
        return outcome == Done;
      }
      var ossEntries, psEntries, found := BuildEntries(s, facts, cases, firstId);
      var saved := Content();
      var ok := ReplaceKindRows(kind, period, FilingGroups(facts), ossEntries, psEntries);
      if !ok || outcome.Aborted? { Restore(saved); }
      acknowledged := ok && outcome.Done?;
    }

    /** Reads the period's facts and rebuilds the rows of its kind. */
    method BackfillPeriod(s: Settings, kind: Kind, period: string, stored: seq<FilingFact>, cases: map<nat, TaxCase>,
                          firstId: nat, outcome: Outcome)
      returns (acknowledged: bool)
      requires Dated(stored)
      modifies this
      ensures var attempt := BackfillTx(old(Content()), s, kind, period, stored, cases, firstId);
        && Content() == (if attempt.Some? && (outcome.Done? || outcome.Lost?) then attempt.value else old(Content()))
        && Content() == Kept(old(Content()), attempt, outcome)
        && (acknowledged ==> attempt == Some(Content())) && (outcome.Done? ==> (acknowledged <==> attempt.Some?))
    {
      hide PeriodDateRange, BackfillFrom, Collect, RelevantIn, Dated;
      var range := PeriodDateRange(kind, period);
      if range.None? { return false; }
      RelevantFacts(stored, range.value);
      acknowledged := Rebuild(s, kind, period, Collect(RelevantIn(range.value), stored), cases, firstId, outcome);
    }
  }

  /** The tables after a transaction that would leave `attempt`. */
  function Kept(t: Tables, attempt: Option<Tables>, outcome: Outcome): Tables {
    if outcome.Aborted? || attempt.None? then t else attempt.value
  }

  lemma {:induction false} OssFailureStays(table: map<string, OssEntry>, entries: seq<OssEntry>, i: nat)
    requires i <= |entries| && UpsertOss(table, entries[..i]).None?
    ensures UpsertOss(table, entries).None?
    decreases |entries|
  {
    if i < |entries| {
      assert entries[..|entries| - 1][..i] == entries[..i];
      OssFailureStays(table, entries[..|entries| - 1], i);
    } else {
      assert entries[..i] == entries;
    }
  }

  lemma {:induction false} PsFailureStays(table: map<string, PsEntry>, entries: seq<PsEntry>, i: nat)
    requires i <= |entries| && UpsertPs(table, entries[..i]).None?
    ensures UpsertPs(table, entries).None?
    decreases |entries|
  {
    if i < |entries| {
      assert entries[..|entries| - 1][..i] == entries[..i];
      PsFailureStays(table, entries[..|entries| - 1], i);
    } else {
      assert entries[..i] == entries;
    }
  }
}
