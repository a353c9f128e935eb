/** The filing tables agree with the facts: after a sync or a backfill every touched group has
    the one row that its facts build on their own, and nothing else has changed. */
module EntryLaws {
  import opened Grouping
  import opened Text
  import opened Periods
  import opened PeriodLaws
  import opened Filing
  import opened Entries
  import opened EntryTables

  // ---------------------------------------------------------------------------
  // Rows built one by one
  // ---------------------------------------------------------------------------

  lemma OssRowOfGroup(s: Settings, facts: seq<FilingFact>, cases: map<nat, TaxCase>, g: string, id: nat)
    requires Dated(facts)
    ensures var r, r0 := OssRow(s, facts, cases, g, id), OssRow(s, facts, cases, g, 0);
      (r.Some? <==> r0.Some?) && (r.Some? ==>
        r.value.group == g && r.value.(id := 0) == r0.value && (OssStorable(r.value) <==> OssStorable(r0.value)))
  {
    hide ContextOf, IsOssCandidate;
    GroupFactsDated(facts, g);
    if GroupFacts(facts, g) != [] { ContextIsValid(GroupFacts(facts, g), cases); }
  }

  lemma PsRowOfGroup(facts: seq<FilingFact>, cases: map<nat, TaxCase>, g: string, id: nat)
    requires Dated(facts)
    ensures var r, r0 := PsRow(facts, cases, g, id), PsRow(facts, cases, g, 0);
      (r.Some? <==> r0.Some?) && (r.Some? ==>
        r.value.group == g && r.value.(id := 0) == r0.value && (PsStorable(r.value) <==> PsStorable(r0.value)))
  {
    hide ContextOf, IsPsCandidate;
    GroupFactsDated(facts, g);
    if GroupFacts(facts, g) != [] { ContextIsValid(GroupFacts(facts, g), cases); }
  }

  /** The row of group `g` is what the group's own facts build, up to the row's id and the
      filling of its columns. */
  ghost predicate OssAgrees(table: map<string, OssEntry>, s: Settings, facts: seq<FilingFact>,
                            cases: map<nat, TaxCase>, g: string)
    requires Dated(facts)
  {
    var own := OssRow(s, facts, cases, g, 0);
    (g in table <==> own.Some?) && (g in table ==> table[g].(id := 0) == AsColumns(own.value))
  }

  ghost predicate PsAgrees(table: map<string, PsEntry>, facts: seq<FilingFact>, cases: map<nat, TaxCase>, g: string)
    requires Dated(facts)
  {
    var own := PsRow(facts, cases, g, 0);
    (g in table <==> own.Some?) && (g in table ==> table[g].(id := 0) == own.value)
  }

  ghost predicate SameElsewhere<V>(before: map<string, V>, after: map<string, V>, groups: set<string>) {
    forall g :: g !in groups ==> (g in after <==> g in before) && (g in after ==> after[g] == before[g])
  }

  ghost predicate OssRowsAgree(before: map<string, OssEntry>, after: map<string, OssEntry>, s: Settings,
                               facts: seq<FilingFact>,
                               cases: map<nat, TaxCase>, groups: seq<string>)
    requires Dated(facts)
  {
    (forall g :: g in groups ==> OssAgrees(after, s, facts, cases, g)) && SameElsewhere(before, after, ToSet(groups))
  }

  ghost predicate PsRowsAgree(before: map<string, PsEntry>, after: map<string, PsEntry>, facts: seq<FilingFact>,
                              cases: map<nat, TaxCase>, groups: seq<string>)
    requires Dated(facts)
  {
    (forall g :: g in groups ==> PsAgrees(after, facts, cases, g)) && SameElsewhere(before, after, ToSet(groups))
  }

  lemma ToSetSnoc(front: seq<string>, g: string)
    ensures ToSet(front + [g]) == ToSet(front) + {g}
  {}

  lemma UpsertOssNothing(table: map<string, OssEntry>, front: seq<OssEntry>)
    ensures UpsertOss(table, front + []) == UpsertOss(table, front)
  {
    assert front + [] == front;
  }

  lemma UpsertOssSnoc(table: map<string, OssEntry>, front: seq<OssEntry>, e: OssEntry)
    ensures UpsertOss(table, front + [e]) ==
      match UpsertOss(table, front)
      case None => None
      case Some(m) => if OssStorable(e) then Some(PutOss(m, e)) else None
  {
    assert (front + [e])[..|front|] == front;
  }

  lemma UpsertPsSnoc(table: map<string, PsEntry>, front: seq<PsEntry>, e: PsEntry)
    ensures UpsertPs(table, front + [e]) ==
      match UpsertPs(table, front)
      case None => None
      case Some(m) => if PsStorable(e) then Some(m[e.group := if e.group in m then e.(id := m[e.group].id) else e]) else None
  {
    assert (front + [e])[..|front|] == front;
  }

  lemma OssStep(before: map<string, OssEntry>, mid: map<string, OssEntry>, s: Settings, facts: seq<FilingFact>,
                cases: map<nat, TaxCase>,
                front: seq<string>, g: string, e: OssEntry)
    requires Dated(facts) && g !in front && g !in before
    requires OssRowsAgree(before, mid, s, facts, cases, front)
    requires OssRow(s, facts, cases, g, 0) == Some(e.(id := 0)) && e.group == g
    ensures g !in mid && OssRowsAgree(before, PutOss(mid, e), s, facts, cases, front + [g])
  {
    hide OssRow, Filled;
    ToSetSnoc(front, g);
    forall k | k in front + [g] ensures OssAgrees(PutOss(mid, e), s, facts, cases, k) {
      if k != g { assert k in front && OssAgrees(mid, s, facts, cases, k); }
    }
  }

  lemma OssSkip(before: map<string, OssEntry>, mid: map<string, OssEntry>, s: Settings, facts: seq<FilingFact>,
                cases: map<nat, TaxCase>,
                front: seq<string>, g: string)
    requires Dated(facts) && g !in front && g !in before
    requires OssRowsAgree(before, mid, s, facts, cases, front)
    requires OssRow(s, facts, cases, g, 0).None?
    ensures OssRowsAgree(before, mid, s, facts, cases, front + [g])
  {
    hide OssRow;
    ToSetSnoc(front, g);
    forall k | k in front + [g] ensures OssAgrees(mid, s, facts, cases, k) {
      if k != g { assert k in front; }
    }
  }

  /** Storing every group's row in a table without those groups. */
  lemma {:induction false} OssStored(before: map<string, OssEntry>, s: Settings, facts: seq<FilingFact>,
                                     cases: map<nat, TaxCase>,
                                     groups: seq<string>, firstId: nat)
    requires Dated(facts) && Distinct(groups) && ToSet(groups) !! before.Keys
    requires UpsertOss(before, AllOss(s, facts, cases, groups, firstId)).Some?
    ensures OssRowsAgree(before, UpsertOss(before, AllOss(s, facts, cases, groups, firstId)).value, s, facts, cases, groups)
  {
    hide OssRow, UpsertOss, OssStorable, OssRowsAgree, PutOss, Dated;
    if groups == [] {
      UpsertNone(before);
      NothingToAgree(before, s, facts, cases);
    } else {
      var n := |groups| - 1;
      var front, g := groups[..n], groups[n];
      assert groups == front + [g];
      assert g in ToSet(groups) && ToSet(front) <= ToSet(groups);
      OssRowOfGroup(s, facts, cases, g, firstId + 2 * n);
      var r := OssRow(s, facts, cases, g, firstId + 2 * n);
      if r.None? {
        UpsertOssNothing(before, AllOss(s, facts, cases, front, firstId));
        OssStored(before, s, facts, cases, front, firstId);
        OssSkip(before, UpsertOss(before, AllOss(s, facts, cases, front, firstId)).value, s, facts, cases, front, g);
      } else {
        UpsertOssSnoc(before, AllOss(s, facts, cases, front, firstId), r.value);
        OssStored(before, s, facts, cases, front, firstId);
        OssStep(before, UpsertOss(before, AllOss(s, facts, cases, front, firstId)).value, s, facts, cases, front, g, r.value);
      }
    }
  }

  lemma UpsertNone(table: map<string, OssEntry>)
    ensures UpsertOss(table, []) == Some(table)
  {}

  lemma NothingToAgree(table: map<string, OssEntry>, s: Settings, facts: seq<FilingFact>, cases: map<nat, TaxCase>)
    requires Dated(facts)
    ensures OssRowsAgree(table, table, s, facts, cases, [])
  {}

  lemma NoPsToAgree(table: map<string, PsEntry>, facts: seq<FilingFact>, cases: map<nat, TaxCase>)
    requires Dated(facts)
    ensures PsRowsAgree(table, table, facts, cases, [])
  {}

  lemma PsStep(before: map<string, PsEntry>, mid: map<string, PsEntry>, facts: seq<FilingFact>, cases: map<nat, TaxCase>,
               front: seq<string>, g: string, e: PsEntry)
    requires Dated(facts) && g !in front && g !in before
    requires PsRowsAgree(before, mid, facts, cases, front)
    requires PsRow(facts, cases, g, 0) == Some(e.(id := 0)) && e.group == g
    ensures g !in mid && PsRowsAgree(before, mid[g := e], facts, cases, front + [g])
  {
    hide PsRow;
    ToSetSnoc(front, g);
    forall k | k in front + [g] ensures PsAgrees(mid[g := e], facts, cases, k) {
      if k != g { assert k in front && PsAgrees(mid, facts, cases, k); }
    }
  }

  lemma PsSkip(before: map<string, PsEntry>, mid: map<string, PsEntry>, facts: seq<FilingFact>, cases: map<nat, TaxCase>,
               front: seq<string>, g: string)
    requires Dated(facts) && g !in front && g !in before
    requires PsRowsAgree(before, mid, facts, cases, front)
    requires PsRow(facts, cases, g, 0).None?
    ensures PsRowsAgree(before, mid, facts, cases, front + [g])
  {
    hide PsRow;
    ToSetSnoc(front, g);
    forall k | k in front + [g] ensures PsAgrees(mid, facts, cases, k) {
      if k != g { assert k in front; }
    }
  }

  lemma UpsertNoPs(table: map<string, PsEntry>, front: seq<PsEntry>)
    ensures UpsertPs(table, []) == Some(table)
    ensures UpsertPs(table, front + []) == UpsertPs(table, front)
  {
    assert front + [] == front;
  }

  lemma {:induction false} PsStored(before: map<string, PsEntry>, facts: seq<FilingFact>, cases: map<nat, TaxCase>,
                                    groups: seq<string>, firstId: nat)
    requires Dated(facts) && Distinct(groups) && ToSet(groups) !! before.Keys
    requires UpsertPs(before, AllPs(facts, cases, groups, firstId)).Some?
    ensures PsRowsAgree(before, UpsertPs(before, AllPs(facts, cases, groups, firstId)).value, facts, cases, groups)
  {
    hide PsRow, UpsertPs, PsStorable, PsRowsAgree, Dated;
    if groups == [] {
      UpsertNoPs(before, []);
      NoPsToAgree(before, facts, cases);
    } else {
      var n := |groups| - 1;
      var front, g := groups[..n], groups[n];
      assert groups == front + [g];
      assert g in ToSet(groups) && ToSet(front) <= ToSet(groups);
      PsRowOfGroup(facts, cases, g, firstId + 2 * n + 1);
      var r := PsRow(facts, cases, g, firstId + 2 * n + 1);
      if r.None? {
        UpsertNoPs(before, AllPs(facts, cases, front, firstId));
        PsStored(before, facts, cases, front, firstId);
        PsSkip(before, UpsertPs(before, AllPs(facts, cases, front, firstId)).value, facts, cases, front, g);
      } else {
        UpsertPsSnoc(before, AllPs(facts, cases, front, firstId), r.value);
        PsStored(before, facts, cases, front, firstId);
        PsStep(before, UpsertPs(before, AllPs(facts, cases, front, firstId)).value, facts, cases, front, g, r.value);
      }
    }
  }

  // ---------------------------------------------------------------------------
  // Sync
  // ---------------------------------------------------------------------------

  lemma GroupsAreDistinct(facts: seq<FilingFact>)
    ensures Distinct(FilingGroups(facts)) && ToSet(FilingGroups(facts)) == KeySet(Collect(GroupOf, facts))
  {
    SortedKeysListKeys(Collect(GroupOf, facts), StringLeq);
  }

  lemma ElsewhereThrough<V>(t: map<string, V>, after: map<string, V>, groups: set<string>)
    requires SameElsewhere(t - groups, after, groups)
    ensures SameElsewhere(t, after, groups)
  {}

  /** After a committed sync every group that the webhook's facts name has, in each table, at
      most one row, namely the one its own facts build; all other groups are unchanged. */
  lemma SyncAgrees(t: Tables, s: Settings, facts: seq<FilingFact>, cases: map<nat, TaxCase>, firstId: nat)
    requires Dated(facts) && SyncTx(t, s, facts, cases, firstId).Some?
    ensures var t' := SyncTx(t, s, facts, cases, firstId).value; var groups := FilingGroups(facts);
      OssRowsAgree(t.oss, t'.oss, s, facts, cases, groups) && PsRowsAgree(t.ps, t'.ps, facts, cases, groups)
  {
    var groups := FilingGroups(facts);
    GroupsAreDistinct(facts);
    hide FilingGroups, AllOss, AllPs, UpsertOss, UpsertPs, OssAgrees, PsAgrees, OssPeriods, PsPeriods, UpsertPeriods;
    OssStored(t.oss - ToSet(groups), s, facts, cases, groups, firstId);
    PsStored(t.ps - ToSet(groups), facts, cases, groups, firstId);
    var t' := SyncTx(t, s, facts, cases, firstId).value;
    ElsewhereThrough(t.oss, t'.oss, ToSet(groups));
    ElsewhereThrough(t.ps, t'.ps, ToSet(groups));
  }

  ghost predicate SameOssRows(a: map<string, OssEntry>, b: map<string, OssEntry>) {
    a.Keys == b.Keys && forall g :: g in a ==> a[g].(id := 0) == b[g].(id := 0)
  }

  ghost predicate SamePsRows(a: map<string, PsEntry>, b: map<string, PsEntry>) {
    a.Keys == b.Keys && forall g :: g in a ==> a[g].(id := 0) == b[g].(id := 0)
  }

  lemma OssAgreementIsUnique(before: map<string, OssEntry>, a: map<string, OssEntry>, b: map<string, OssEntry>,
                             s: Settings,
                             facts: seq<FilingFact>, cases: map<nat, TaxCase>, groups: seq<string>)
    requires Dated(facts)
    requires OssRowsAgree(before, a, s, facts, cases, groups) && OssRowsAgree(a, b, s, facts, cases, groups)
    ensures SameOssRows(a, b)
  {
    hide OssRow;
    forall g ensures (g in a <==> g in b) && (g in a ==> a[g].(id := 0) == b[g].(id := 0)) {
      if g in groups { assert OssAgrees(a, s, facts, cases, g) && OssAgrees(b, s, facts, cases, g); }
      else { assert g !in ToSet(groups); }
    }
  }

  lemma PsAgreementIsUnique(before: map<string, PsEntry>, a: map<string, PsEntry>, b: map<string, PsEntry>,
                            facts: seq<FilingFact>, cases: map<nat, TaxCase>, groups: seq<string>)
    requires Dated(facts)
    requires PsRowsAgree(before, a, facts, cases, groups) && PsRowsAgree(a, b, facts, cases, groups)
    ensures SamePsRows(a, b)
  {
    hide PsRow;
    forall g ensures (g in a <==> g in b) && (g in a ==> a[g].(id := 0) == b[g].(id := 0)) {
      if g in groups { assert PsAgrees(a, facts, cases, g) && PsAgrees(b, facts, cases, g); }
      else { assert g !in ToSet(groups); }
    }
  }

  predicate OssAllStorable(entries: seq<OssEntry>) { forall e :: e in entries ==> OssStorable(e) }

  predicate PsAllStorable(entries: seq<PsEntry>) { forall e :: e in entries ==> PsStorable(e) }

  lemma {:induction false} OssCommits(table: map<string, OssEntry>, entries: seq<OssEntry>)
    ensures UpsertOss(table, entries).Some? <==> OssAllStorable(entries)
  {
    if entries != [] {
      OssCommits(table, entries[..|entries| - 1]);
      assert entries == entries[..|entries| - 1] + [entries[|entries| - 1]];
    }
  }

  lemma {:induction false} PsCommits(table: map<string, PsEntry>, entries: seq<PsEntry>)
    ensures UpsertPs(table, entries).Some? <==> PsAllStorable(entries)
  {
    if entries != [] {
      PsCommits(table, entries[..|entries| - 1]);
      assert entries == entries[..|entries| - 1] + [entries[|entries| - 1]];
    }
  }

  lemma StorableSnocOss(front: seq<OssEntry>, e: OssEntry)
    ensures OssAllStorable(front + [e]) <==> OssAllStorable(front) && OssStorable(e)
    ensures OssAllStorable(front + []) <==> OssAllStorable(front)
  {
    assert forall x :: x in front + [e] <==> x in front || x == e;
    assert front + [] == front;
  }

  lemma StorableSnocPs(front: seq<PsEntry>, e: PsEntry)
    ensures PsAllStorable(front + [e]) <==> PsAllStorable(front) && PsStorable(e)
    ensures PsAllStorable(front + []) <==> PsAllStorable(front)
  {
    assert forall x :: x in front + [e] <==> x in front || x == e;
    assert front + [] == front;
  }

  lemma {:induction false} StorableWhateverIds(s: Settings, facts: seq<FilingFact>, cases: map<nat, TaxCase>,
                                               groups: seq<string>, id1: nat, id2: nat)
    requires Dated(facts)
    ensures OssAllStorable(AllOss(s, facts, cases, groups, id1)) <==> OssAllStorable(AllOss(s, facts, cases, groups, id2))
    ensures PsAllStorable(AllPs(facts, cases, groups, id1)) <==> PsAllStorable(AllPs(facts, cases, groups, id2))
  {
    hide OssRow, PsRow, OssAllStorable, PsAllStorable, OssStorable, PsStorable;
    if groups != [] {
      var n := |groups| - 1;
      var front, g := groups[..n], groups[n];
      StorableWhateverIds(s, facts, cases, front, id1, id2);
      OssRowOfGroup(s, facts, cases, g, id1 + 2 * n);
      OssRowOfGroup(s, facts, cases, g, id2 + 2 * n);
      PsRowOfGroup(facts, cases, g, id1 + 2 * n + 1);
      PsRowOfGroup(facts, cases, g, id2 + 2 * n + 1);
      var o1, o2 := OssRow(s, facts, cases, g, id1 + 2 * n), OssRow(s, facts, cases, g, id2 + 2 * n);
      var p1, p2 := PsRow(facts, cases, g, id1 + 2 * n + 1), PsRow(facts, cases, g, id2 + 2 * n + 1);
      if o1.Some? {
        StorableSnocOss(AllOss(s, facts, cases, front, id1), o1.value);
        StorableSnocOss(AllOss(s, facts, cases, front, id2), o2.value);
      }
      if p1.Some? {
        StorableSnocPs(AllPs(facts, cases, front, id1), p1.value);
        StorableSnocPs(AllPs(facts, cases, front, id2), p2.value);
      }
      assert AllOss(s, facts, cases, front, id1) + [] == AllOss(s, facts, cases, front, id1);
      assert AllOss(s, facts, cases, front, id2) + [] == AllOss(s, facts, cases, front, id2);
      assert AllPs(facts, cases, front, id1) + [] == AllPs(facts, cases, front, id1);
      assert AllPs(facts, cases, front, id2) + [] == AllPs(facts, cases, front, id2);
    }
  }

  lemma {:induction false} PeriodsWhateverIds(s: Settings, facts: seq<FilingFact>, cases: map<nat, TaxCase>,
                                              groups: seq<string>, id1: nat, id2: nat)
    requires Dated(facts)
    ensures OssPeriods(AllOss(s, facts, cases, groups, id1)) == OssPeriods(AllOss(s, facts, cases, groups, id2))
    ensures PsPeriods(AllPs(facts, cases, groups, id1)) == PsPeriods(AllPs(facts, cases, groups, id2))
  {
    hide OssRow, PsRow, OssPeriods, PsPeriods;
    if groups != [] {
      var n := |groups| - 1;
      var front, g := groups[..n], groups[n];
      PeriodsWhateverIds(s, facts, cases, front, id1, id2);
      OssRowOfGroup(s, facts, cases, g, id1 + 2 * n);
      OssRowOfGroup(s, facts, cases, g, id2 + 2 * n);
      PsRowOfGroup(facts, cases, g, id1 + 2 * n + 1);
      PsRowOfGroup(facts, cases, g, id2 + 2 * n + 1);
      var o1, o2 := OssRow(s, facts, cases, g, id1 + 2 * n), OssRow(s, facts, cases, g, id2 + 2 * n);
      var p1, p2 := PsRow(facts, cases, g, id1 + 2 * n + 1), PsRow(facts, cases, g, id2 + 2 * n + 1);
      if o1.Some? {
        assert o1.value.filingPeriod == o1.value.(id := 0).filingPeriod == o2.value.(id := 0).filingPeriod;
        OssPeriodsSnoc(AllOss(s, facts, cases, front, id1), o1.value);
        OssPeriodsSnoc(AllOss(s, facts, cases, front, id2), o2.value);
      }
      if p1.Some? {
        assert p1.value.filingPeriod == p1.value.(id := 0).filingPeriod == p2.value.(id := 0).filingPeriod;
        PsPeriodsSnoc(AllPs(facts, cases, front, id1), p1.value);
        PsPeriodsSnoc(AllPs(facts, cases, front, id2), p2.value);
      }
      assert AllOss(s, facts, cases, front, id1) + [] == AllOss(s, facts, cases, front, id1);
      assert AllOss(s, facts, cases, front, id2) + [] == AllOss(s, facts, cases, front, id2);
      assert AllPs(facts, cases, front, id1) + [] == AllPs(facts, cases, front, id1);
      assert AllPs(facts, cases, front, id2) + [] == AllPs(facts, cases, front, id2);
    }
  }

  lemma PeriodsAddedTwice(rows: map<(Kind, string), PeriodRow>, periods: set<(Kind, string)>)
    ensures UpsertPeriods(UpsertPeriods(rows, periods), periods) == UpsertPeriods(rows, periods)
  {}

  lemma SyncedPeriods(t: Tables, s: Settings, facts: seq<FilingFact>, cases: map<nat, TaxCase>, firstId: nat)
    requires Dated(facts) && SyncTx(t, s, facts, cases, firstId).Some?
    ensures SyncTx(t, s, facts, cases, firstId).value.periods
      == UpsertPeriods(t.periods, OssPeriods(AllOss(s, facts, cases, FilingGroups(facts), firstId))
                                  + PsPeriods(AllPs(facts, cases, FilingGroups(facts), firstId)))
  {
    hide FilingGroups, AllOss, AllPs, OssPeriods, PsPeriods, UpsertPeriods, UpsertOss, UpsertPs;
  }

  lemma SyncCommits(t: Tables, s: Settings, facts: seq<FilingFact>, cases: map<nat, TaxCase>, firstId: nat)
    requires Dated(facts)
    ensures SyncTx(t, s, facts, cases, firstId).Some? <==>
      && OssAllStorable(AllOss(s, facts, cases, FilingGroups(facts), firstId))
      && PsAllStorable(AllPs(facts, cases, FilingGroups(facts), firstId))
  {
    var groups := FilingGroups(facts);
    OssCommits(t.oss - ToSet(groups), AllOss(s, facts, cases, groups, firstId));
    PsCommits(t.ps - ToSet(groups), AllPs(facts, cases, groups, firstId));
  }

  /** A webhook delivered again leaves the same rows, up to their ids, and the same periods. */
  lemma SyncIdempotent(t: Tables, s: Settings, facts: seq<FilingFact>, cases: map<nat, TaxCase>, id1: nat, id2: nat)
    requires Dated(facts) && SyncTx(t, s, facts, cases, id1).Some?
    ensures var t' := SyncTx(t, s, facts, cases, id1).value;
      && SyncTx(t', s, facts, cases, id2).Some?
      && SameOssRows(t'.oss, SyncTx(t', s, facts, cases, id2).value.oss)
      && SamePsRows(t'.ps, SyncTx(t', s, facts, cases, id2).value.ps)
      && SyncTx(t', s, facts, cases, id2).value.periods == t'.periods
  {
    hide SyncTx, UpsertPeriods, OssPeriods, PsPeriods, OssAllStorable, PsAllStorable, OssRowsAgree, PsRowsAgree,
         SameOssRows, SamePsRows, FilingGroups;
    var t' := SyncTx(t, s, facts, cases, id1).value;
    SyncCommits(t, s, facts, cases, id1);
    SyncCommits(t', s, facts, cases, id2);
    StorableWhateverIds(s, facts, cases, FilingGroups(facts), id1, id2);
    SyncAgrees(t, s, facts, cases, id1);
    SyncAgrees(t', s, facts, cases, id2);
    OssAgreementIsUnique(t.oss, t'.oss, SyncTx(t', s, facts, cases, id2).value.oss, s, facts, cases, FilingGroups(facts));
    PsAgreementIsUnique(t.ps, t'.ps, SyncTx(t', s, facts, cases, id2).value.ps, facts, cases, FilingGroups(facts));
    SyncedPeriods(t, s, facts, cases, id1);
    SyncedPeriods(t', s, facts, cases, id2);
    PeriodsWhateverIds(s, facts, cases, FilingGroups(facts), id1, id2);
    PeriodsAddedTwice(t.periods, OssPeriods(AllOss(s, facts, cases, FilingGroups(facts), id1))
                                 + PsPeriods(AllPs(facts, cases, FilingGroups(facts), id1)));
  }

  // ---------------------------------------------------------------------------
  // Backfill
  // ---------------------------------------------------------------------------

  lemma OssRowPeriod(s: Settings, facts: seq<FilingFact>, cases: map<nat, TaxCase>, g: string, id: nat)
    requires Dated(facts) && OssRow(s, facts, cases, g, id).Some?
    ensures exists f ::
      && f in facts && CivilDate(f.fact.date)
      && OssRow(s, facts, cases, g, id).value.filingPeriod == PeriodOf(OssUnion, f.fact.date)
  {
    GroupFactsDated(facts, g);
    ContextIsValid(GroupFacts(facts, g), cases);
    hide ContextOf, QuarterPeriod;
    var c := ContextOf(GroupFacts(facts, g), cases).value;
    var f :| f in GroupFacts(facts, g) && c.group == f.fact.group && c.postingDate == f.fact.date;
    assert f in facts;
  }

  lemma PsRowPeriod(facts: seq<FilingFact>, cases: map<nat, TaxCase>, g: string, id: nat)
    requires Dated(facts) && PsRow(facts, cases, g, id).Some?
    ensures exists f ::
      && f in facts && CivilDate(f.fact.date)
      && PsRow(facts, cases, g, id).value.filingPeriod == PeriodOf(PeriodicSummary, f.fact.date)
  {
    GroupFactsDated(facts, g);
    ContextIsValid(GroupFacts(facts, g), cases);
    hide ContextOf, MonthPeriod;
    var c := ContextOf(GroupFacts(facts, g), cases).value;
    var f :| f in GroupFacts(facts, g) && c.group == f.fact.group && c.postingDate == f.fact.date;
    assert f in facts;
  }

  /** The period that every fact belongs to, by its date, is `name`. */
  predicate AllOf(facts: seq<FilingFact>, kind: Kind, name: string) {
    forall f :: f in facts && CivilDate(f.fact.date) ==> PeriodOf(kind, f.fact.date) == name
  }

  lemma OssRowIn(s: Settings, facts: seq<FilingFact>, cases: map<nat, TaxCase>, g: string, id: nat, name: string)
    requires Dated(facts) && AllOf(facts, OssUnion, name) && OssRow(s, facts, cases, g, id).Some?
    ensures OssRow(s, facts, cases, g, id).value.filingPeriod == name
  {
    hide OssRow, PeriodOf;
    OssRowPeriod(s, facts, cases, g, id);
  }

  lemma PsRowIn(facts: seq<FilingFact>, cases: map<nat, TaxCase>, g: string, id: nat, name: string)
    requires Dated(facts) && AllOf(facts, PeriodicSummary, name) && PsRow(facts, cases, g, id).Some?
    ensures PsRow(facts, cases, g, id).value.filingPeriod == name
  {
    hide PsRow, PeriodOf;
    PsRowPeriod(facts, cases, g, id);
  }

  lemma OssFilterSnoc(oss: seq<OssEntry>, o: OssEntry, period: string)
    ensures OssOfPeriod(oss + [o], period) == OssOfPeriod(oss, period) + if o.filingPeriod == period then [o] else []
  {
    assert (oss + [o])[..|oss|] == oss;
  }

  lemma PsFilterSnoc(ps: seq<PsEntry>, p: PsEntry, period: string)
    ensures PsOfPeriod(ps + [p], period) == PsOfPeriod(ps, period) + if p.filingPeriod == period then [p] else []
  {
    assert (ps + [p])[..|ps|] == ps;
  }

  lemma NothingFiltered(period: string)
    ensures OssOfPeriod([], period) == [] && PsOfPeriod([], period) == []
  {}

  /** The period filter keeps every entry if the period is named as the code names it, and
      none if it is not. */
  lemma {:induction false} OssFilterDropsNothing(s: Settings, facts: seq<FilingFact>, cases: map<nat, TaxCase>,
                                                 groups: seq<string>,
                                                 firstId: nat, name: string, period: string)
    requires Dated(facts) && AllOf(facts, OssUnion, name)
    ensures OssOfPeriod(AllOss(s, facts, cases, groups, firstId), period)
      == if name == period then AllOss(s, facts, cases, groups, firstId) else []
  {
    hide OssRow, AllOf, Dated, OssOfPeriod;
    NothingFiltered(period);
    if groups != [] {
      var n := |groups| - 1;
      OssFilterDropsNothing(s, facts, cases, groups[..n], firstId, name, period);
      var front := AllOss(s, facts, cases, groups[..n], firstId);
      var r := OssRow(s, facts, cases, groups[n], firstId + 2 * n);
      if r.Some? {
        OssRowIn(s, facts, cases, groups[n], firstId + 2 * n, name);
        OssFilterSnoc(front, r.value, period);
      } else {
        assert front + [] == front;
      }
    }
  }

  lemma {:induction false} PsFilterDropsNothing(facts: seq<FilingFact>, cases: map<nat, TaxCase>, groups: seq<string>,
                                                firstId: nat, period: string)
    requires Dated(facts) && AllOf(facts, PeriodicSummary, period)
    ensures PsOfPeriod(AllPs(facts, cases, groups, firstId), period) == AllPs(facts, cases, groups, firstId)
  {
    hide PsRow, AllOf, Dated, PsOfPeriod;
    NothingFiltered(period);
    if groups != [] {
      var n := |groups| - 1;
      PsFilterDropsNothing(facts, cases, groups[..n], firstId, period);
      var front := AllPs(facts, cases, groups[..n], firstId);
      var r := PsRow(facts, cases, groups[n], firstId + 2 * n + 1);
      if r.Some? {
        PsRowIn(facts, cases, groups[n], firstId + 2 * n + 1, period);
        PsFilterSnoc(front, r.value, period);
      } else {
        assert front + [] == front;
      }
    }
  }

  /** What a backfill reads; nothing for an invalid period. */
  function PeriodFacts(kind: Kind, period: string, stored: seq<FilingFact>): seq<FilingFact> {
    match PeriodDateRange(kind, period) case None => [] case Some(range) => Collect(RelevantIn(range), stored)
  }

  lemma PeriodFactsAreItsOwn(kind: Kind, period: string, stored: seq<FilingFact>)
    requires Dated(stored)
    ensures Dated(PeriodFacts(kind, period, stored)) && AllOf(PeriodFacts(kind, period, stored), kind, CanonicalName(kind, period))
  {
    hide PeriodDateRange, RelevantIn, Within, FilingRelevant, PeriodOf, CanonicalName;
    match PeriodDateRange(kind, period)
    case None =>
    case Some(range) =>
      RelevantFacts(stored, range);
      forall f | f in PeriodFacts(kind, period, stored) && CivilDate(f.fact.date)
        ensures PeriodOf(kind, f.fact.date) == CanonicalName(kind, period)
      {
        InRangeIsOwnPeriod(kind, period, f.fact.date);
      }
  }

  lemma BackfillReads(t: Tables, s: Settings, kind: Kind, period: string, stored: seq<FilingFact>,
                      cases: map<nat, TaxCase>, firstId: nat)
    requires Dated(stored) && Dated(PeriodFacts(kind, period, stored))
    ensures BackfillTx(t, s, kind, period, stored, cases, firstId)
      == if PeriodDateRange(kind, period).None? then None
         else BackfillFrom(t, s, kind, period, PeriodFacts(kind, period, stored), cases, firstId)
  {
    hide PeriodDateRange, RelevantIn, BackfillFrom, Dated;
  }

  /** After a committed backfill of a period named as the code names it, every group with facts
      in the period has, in the table of its kind, exactly the row that those facts build; the
      other groups and the other table are unchanged. */
  lemma BackfillAgrees(t: Tables, s: Settings, kind: Kind, period: string, stored: seq<FilingFact>,
                       cases: map<nat, TaxCase>, firstId: nat)
    requires Dated(stored)
    ensures Dated(PeriodFacts(kind, period, stored))
    ensures BackfillTx(t, s, kind, period, stored, cases, firstId).Some? && CanonicalName(kind, period) == period ==>
      KindAgrees(t, BackfillTx(t, s, kind, period, stored, cases, firstId).value, s, kind, PeriodFacts(kind, period, stored), cases)
  {
    PeriodFactsAreItsOwn(kind, period, stored);
    BackfillReads(t, s, kind, period, stored, cases, firstId);
    hide PeriodDateRange, PeriodFacts, BackfillTx, BackfillFrom, CanonicalName, Dated, KindAgrees, AllOf;
    if BackfillTx(t, s, kind, period, stored, cases, firstId).Some? && CanonicalName(kind, period) == period {
      RebuildAgrees(t, s, kind, period, PeriodFacts(kind, period, stored), cases, firstId);
    }
  }

  ghost predicate KindAgrees(t: Tables, t': Tables, s: Settings, kind: Kind, facts: seq<FilingFact>,
                             cases: map<nat, TaxCase>)
    requires Dated(facts)
  {
    match kind
    case OssUnion => OssRowsAgree(t.oss, t'.oss, s, facts, cases, FilingGroups(facts)) && t'.ps == t.ps
    case PeriodicSummary => PsRowsAgree(t.ps, t'.ps, facts, cases, FilingGroups(facts)) && t'.oss == t.oss
  }

  lemma NoGroupsWithoutFacts()
    ensures FilingGroups([]) == []
  {
    assert Collect(GroupOf, []) == [];
  }

  lemma RebuildAgrees(t: Tables, s: Settings, kind: Kind, period: string, facts: seq<FilingFact>,
                      cases: map<nat, TaxCase>, firstId: nat)
    requires Dated(facts) && AllOf(facts, kind, period)
    ensures BackfillFrom(t, s, kind, period, facts, cases, firstId).Some? ==>
      KindAgrees(t, BackfillFrom(t, s, kind, period, facts, cases, firstId).value, s, kind, facts, cases)
  {
    var groups := FilingGroups(facts);
    GroupsAreDistinct(facts);
    NoGroupsWithoutFacts();
    hide FilingGroups, AllOss, AllPs, UpsertOss, UpsertPs, OssAgrees, PsAgrees, OssOfPeriod, PsOfPeriod, UpsertPeriods, AllOf, Dated;
    var r := BackfillFrom(t, s, kind, period, facts, cases, firstId);
    if facts != [] && r.Some? {
      match kind
      case OssUnion =>
        OssFilterDropsNothing(s, facts, cases, groups, firstId, period, period);
        OssStored(t.oss - ToSet(groups), s, facts, cases, groups, firstId);
        ElsewhereThrough(t.oss, r.value.oss, ToSet(groups));
      case PeriodicSummary =>
        PsFilterDropsNothing(facts, cases, groups, firstId, period);
        PsStored(t.ps - ToSet(groups), facts, cases, groups, firstId);
        ElsewhereThrough(t.ps, r.value.ps, ToSet(groups));
    }
  }

  /** A quarter that is accepted but spelled differently ("2026-Q01") is read as that quarter,
      but no entry carries its name: the backfill then deletes the rows of every group with
      facts in the quarter and puts nothing in their place. */
  lemma MisspelledBackfillDeletes(t: Tables, s: Settings, period: string, stored: seq<FilingFact>,
                                  cases: map<nat, TaxCase>, firstId: nat)
    requires Dated(stored)
    ensures PeriodDateRange(OssUnion, period).Some? && CanonicalName(OssUnion, period) != period ==>
      var r := BackfillTx(t, s, OssUnion, period, stored, cases, firstId);
      r.Some? && r.value.oss == t.oss - ToSet(FilingGroups(PeriodFacts(OssUnion, period, stored)))
  {
    PeriodFactsAreItsOwn(OssUnion, period, stored);
    var facts := PeriodFacts(OssUnion, period, stored);
    var groups := FilingGroups(facts);
    BackfillReads(t, s, OssUnion, period, stored, cases, firstId);
    NoGroupsWithoutFacts();
    hide PeriodDateRange, PeriodFacts, BackfillTx, FilingGroups, AllOss, UpsertPeriods, CanonicalName, AllOf, Dated, OssOfPeriod;
    if facts != [] {
      OssFilterDropsNothing(s, facts, cases, groups, firstId, CanonicalName(OssUnion, period), period);
      UpsertNone(t.oss - ToSet(groups));
    } else {
      assert t.oss - ToSet(groups) == t.oss;
    }
  }

  /** The same rows up to their ids, and the same periods. */
  ghost predicate SameTables(t: Tables, t': Tables) {
    SameOssRows(t.oss, t'.oss) && SamePsRows(t.ps, t'.ps) && t.periods == t'.periods
  }

  lemma KeptOss(table: map<string, OssEntry>)
    ensures SameOssRows(table, table)
  {}

  lemma KeptPs(table: map<string, PsEntry>)
    ensures SamePsRows(table, table)
  {}

  lemma RebuiltPeriods(t: Tables, s: Settings, kind: Kind, period: string, facts: seq<FilingFact>,
                       cases: map<nat, TaxCase>, firstId: nat)
    requires Dated(facts) && BackfillFrom(t, s, kind, period, facts, cases, firstId).Some?
    ensures BackfillFrom(t, s, kind, period, facts, cases, firstId).value.periods
      == if facts == [] && kind.PeriodicSummary? then t.periods else UpsertPeriods(t.periods, {(kind, period)})
  {
    hide FilingGroups, AllOss, AllPs, UpsertPeriods, UpsertOss, UpsertPs, OssOfPeriod, PsOfPeriod;
  }

  /** Whether a rebuild of a period commits does not depend on the tables or the new ids. */
  lemma RebuildCommits(t: Tables, t': Tables, s: Settings, kind: Kind, period: string, facts: seq<FilingFact>,
                       cases: map<nat, TaxCase>, id1: nat, id2: nat)
    requires Dated(facts) && AllOf(facts, kind, period) && BackfillFrom(t, s, kind, period, facts, cases, id1).Some?
    ensures BackfillFrom(t', s, kind, period, facts, cases, id2).Some?
  {
    var groups := FilingGroups(facts);
    hide FilingGroups, AllOss, AllPs, UpsertOss, UpsertPs, OssOfPeriod, PsOfPeriod, UpsertPeriods, AllOf, Dated,
         OssAllStorable, PsAllStorable;
    StorableWhateverIds(s, facts, cases, groups, id1, id2);
    match kind
    case OssUnion =>
      OssFilterDropsNothing(s, facts, cases, groups, id1, period, period);
      OssFilterDropsNothing(s, facts, cases, groups, id2, period, period);
      OssCommits(t.oss - ToSet(groups), AllOss(s, facts, cases, groups, id1));
      OssCommits(t'.oss - ToSet(groups), AllOss(s, facts, cases, groups, id2));
    case PeriodicSummary =>
      PsFilterDropsNothing(facts, cases, groups, id1, period);
      PsFilterDropsNothing(facts, cases, groups, id2, period);
      PsCommits(t.ps - ToSet(groups), AllPs(facts, cases, groups, id1));
      PsCommits(t'.ps - ToSet(groups), AllPs(facts, cases, groups, id2));
  }

  lemma RebuildTwice(t: Tables, s: Settings, kind: Kind, period: string, facts: seq<FilingFact>,
                     cases: map<nat, TaxCase>, id1: nat, id2: nat)
    requires Dated(facts) && AllOf(facts, kind, period) && BackfillFrom(t, s, kind, period, facts, cases, id1).Some?
    ensures var t' := BackfillFrom(t, s, kind, period, facts, cases, id1).value;
      var r := BackfillFrom(t', s, kind, period, facts, cases, id2);
      r.Some? && SameTables(t', r.value)
  {
    var t' := BackfillFrom(t, s, kind, period, facts, cases, id1).value;
    RebuildCommits(t, t', s, kind, period, facts, cases, id1, id2);
    RebuildAgrees(t, s, kind, period, facts, cases, id1);
    RebuildAgrees(t', s, kind, period, facts, cases, id2);
    RebuiltPeriods(t, s, kind, period, facts, cases, id1);
    RebuiltPeriods(t', s, kind, period, facts, cases, id2);
    PeriodsAddedTwice(t.periods, {(kind, period)});
    hide BackfillFrom, OssRowsAgree, PsRowsAgree, SameOssRows, SamePsRows, FilingGroups, UpsertPeriods, AllOf, Dated;
    var r := BackfillFrom(t', s, kind, period, facts, cases, id2).value;
    match kind
    case OssUnion =>
      OssAgreementIsUnique(t.oss, t'.oss, r.oss, s, facts, cases, FilingGroups(facts));
      KeptPs(t'.ps);
    case PeriodicSummary =>
      PsAgreementIsUnique(t.ps, t'.ps, r.ps, facts, cases, FilingGroups(facts));
      KeptOss(t'.oss);
  }

  lemma AddedPeriods(rows: map<(Kind, string), PeriodRow>, periods: set<(Kind, string)>)
    ensures Extends(rows, rows) && Extends(rows, UpsertPeriods(rows, periods))
  {}

  /** No sync and no backfill changes what is known of a period's evaluation; what they add has not been
      evaluated. */
  lemma SyncKeepsPeriodRows(t: Tables, s: Settings, facts: seq<FilingFact>, cases: map<nat, TaxCase>, firstId: nat)
    requires Dated(facts) && SyncTx(t, s, facts, cases, firstId).Some?
    ensures Extends(t.periods, SyncTx(t, s, facts, cases, firstId).value.periods)
  {
    hide SyncTx, FilingGroups, AllOss, AllPs, OssPeriods, PsPeriods, Dated, UpsertPeriods, Extends;
    SyncedPeriods(t, s, facts, cases, firstId);
    AddedPeriods(t.periods, OssPeriods(AllOss(s, facts, cases, FilingGroups(facts), firstId))
                            + PsPeriods(AllPs(facts, cases, FilingGroups(facts), firstId)));
  }

  lemma BackfillKeepsPeriodRows(t: Tables, s: Settings, kind: Kind, period: string, stored: seq<FilingFact>,
                                cases: map<nat, TaxCase>, firstId: nat)
    requires Dated(stored) && BackfillTx(t, s, kind, period, stored, cases, firstId).Some?
    ensures Extends(t.periods, BackfillTx(t, s, kind, period, stored, cases, firstId).value.periods)
  {
    hide BackfillTx, BackfillFrom, Dated, UpsertPeriods, Extends, PeriodFacts, PeriodDateRange, AllOf;
    PeriodFactsAreItsOwn(kind, period, stored);
    BackfillReads(t, s, kind, period, stored, cases, firstId);
    RebuiltPeriods(t, s, kind, period, PeriodFacts(kind, period, stored), cases, firstId);
    AddedPeriods(t.periods, {(kind, period)});
  }

  ghost predicate Extends(rows: map<(Kind, string), PeriodRow>, more: map<(Kind, string), PeriodRow>) {
    && (forall p :: p in rows ==> p in more && more[p] == rows[p])
    && (forall p :: p in more && p !in rows ==> more[p] == PeriodRow(NotEvaluated, false, false))
  }

  /** Under another spelling of a quarter the first backfill has deleted all there is to delete. */
  lemma MisspelledTwice(t: Tables, s: Settings, period: string, facts: seq<FilingFact>,
                        cases: map<nat, TaxCase>, id1: nat, id2: nat)
    requires Dated(facts) && AllOf(facts, OssUnion, CanonicalName(OssUnion, period)) && CanonicalName(OssUnion, period) != period
    ensures var t' := BackfillFrom(t, s, OssUnion, period, facts, cases, id1);
      t'.Some? && BackfillFrom(t'.value, s, OssUnion, period, facts, cases, id2) == t'
  {
    var groups := FilingGroups(facts);
    hide FilingGroups, AllOss, AllPs, UpsertPeriods, CanonicalName, AllOf, Dated, OssOfPeriod;
    PeriodsAddedTwice(t.periods, {(OssUnion, period)});
    OssFilterDropsNothing(s, facts, cases, groups, id1, CanonicalName(OssUnion, period), period);
    OssFilterDropsNothing(s, facts, cases, groups, id2, CanonicalName(OssUnion, period), period);
    UpsertNone(t.oss - ToSet(groups));
    UpsertNone(t.oss - ToSet(groups) - ToSet(groups));
    assert t.oss - ToSet(groups) - ToSet(groups) == t.oss - ToSet(groups);
  }

  /** A backfill of any period, of either kind and however it is spelled, commits again and changes
      nothing but row ids. */
  lemma BackfillIdempotent(t: Tables, s: Settings, kind: Kind, period: string, stored: seq<FilingFact>,
                           cases: map<nat, TaxCase>, id1: nat, id2: nat)
    requires Dated(stored) && BackfillTx(t, s, kind, period, stored, cases, id1).Some?
    ensures var t' := BackfillTx(t, s, kind, period, stored, cases, id1).value;
      var r := BackfillTx(t', s, kind, period, stored, cases, id2);
      r.Some? && SameTables(t', r.value)
  {
    PeriodFactsAreItsOwn(kind, period, stored);
    var facts := PeriodFacts(kind, period, stored);
    BackfillReads(t, s, kind, period, stored, cases, id1);
    var t' := BackfillTx(t, s, kind, period, stored, cases, id1).value;
    BackfillReads(t', s, kind, period, stored, cases, id2);
    assert kind.PeriodicSummary? ==> CanonicalName(kind, period) == period;
    hide PeriodDateRange, PeriodFacts, BackfillTx, BackfillFrom, CanonicalName, AllOf, Dated, SameTables;
    if CanonicalName(kind, period) == period {
      RebuildTwice(t, s, kind, period, facts, cases, id1, id2);
    } else {
      MisspelledTwice(t, s, period, facts, cases, id1, id2);
      TablesAreTheSame(t');
    }
  }

  lemma TablesAreTheSame(t: Tables)
    ensures SameTables(t, t)
  {}

  function ZeroPadded(year: nat, quarter: nat): string { Pad(year, 4) + "-Q" + ("0" + Dec(quarter)) }

  /** Such spellings exist for every quarter: "2026-Q01" for "2026-Q1". */
  lemma MisspelledQuarter(year: nat, quarter: nat)
    requires year <= 9999 && 1 <= quarter <= 4
    ensures PeriodDateRange(OssUnion, ZeroPadded(year, quarter)) == Some(QuarterRange(year, quarter))
    ensures CanonicalName(OssUnion, ZeroPadded(year, quarter)) == QuarterText(year, quarter) != ZeroPadded(year, quarter)
  {
    var name, digits := ZeroPadded(year, quarter), "0" + Dec(quarter);
    FourDigits(year);
    ValueOfPad(year, 4);
    ValueOfDec(quarter);
    ValueOfZeros(1, Dec(quarter));
    assert Zeros(1) == "0";
    assert |name| == |QuarterText(year, quarter)| + 1;
    hide DigitPrefix, Pad, Dec, Value, QuarterRange;
    assert Take(name, 4) == Pad(year, 4);
    AllDigitsPrefix(Pad(year, 4));
    assert name[4..] == "-Q" + digits;
    assert name[4..][..2] == "-Q" && name[4..][2..] == digits;
    AllDigitsPrefix(digits);
  }
}
