/** Every step of the posting machine keeps the invariant. */
module CloseSteps {
  import opened Grouping
  import opened Ledger
  import opened Journal
  import opened JournalLaws
  import opened Bokio
  import opened Store
  import opened Close
  import opened CloseInvariant

  // ---------------------------------------------------------------------------
  // Steps that only move the process
  // ---------------------------------------------------------------------------

  lemma GotoKeeps(s: System, d: Date, p: Proc)
    requires Inv(s)
    requires ProcInv(Goto(s, d, p), d) && CountInv(Goto(s, d, p), d)
    ensures Inv(Goto(s, d, p)) && LeavesOthers(s, Goto(s, d, p), d)
  {
    var s' := Goto(s, d, p);
    assert DateInv(s, d);
    assert FactsInv(s') by {
      forall id | id in s'.db.facts ensures FactInv(s', id) { assert FactInv(s, id); }
    }
    Assemble(s, s', d);
  }

  /** The count needs attention only where a close could get to the create call. */
  lemma GotoCount(s: System, d: Date, p: Proc)
    requires Inv(s)
    requires p.Prepare? || p.FindJournal? || p.CreateJournal? || p.FailRun? ==>
      d in s.log.lost || (forall e :: !MadeOn(s, e, d)) || (p.FailRun? && d in s.db.journals)
    ensures CountInv(Goto(s, d, p), d)
  {
    var s' := Goto(s, d, p);
    assert DateInv(s, d);
    forall e | MadeOn(s', e, d) ensures MadeOn(s, e, d) {}
  }

  /** While a close may still create a journal, none has been made. */
  lemma NoneMade(s: System, d: Date)
    requires Inv(s)
    requires At(s, d).Prepare? || At(s, d).FindJournal? || At(s, d).CreateJournal?
    ensures d in s.log.lost || forall e :: !MadeOn(s, e, d)
  {
    assert DateInv(s, d);
  }

  lemma ListedIsGenuine(s: System, ids: set<nat>, listing: seq<Fact>)
    requires FactsInv(s) && Lists(listing, s.db.facts, ids)
    ensures Genuine(listing, s.log.issued)
  {
    forall i | 0 <= i < |listing| ensures listing[i].id in s.log.issued && s.log.issued[listing[i].id] == listing[i].Core() {
      assert FactInv(s, listing[i].id);
    }
  }

  lemma ListedFact(listing: seq<Fact>, facts: map<nat, Fact>, ids: set<nat>, i: nat)
    requires Lists(listing, facts, ids) && i < |listing|
    ensures listing[i].id in ids
  {
    assert listing[i] in listing;
  }

  lemma KeepResumeReads(s: System, d: Date, t: Turn)
    requires Inv(s)
    requires At(s, d).ResumeReadRun? || At(s, d).ResumeReadJournal? || At(s, d).ResumeListFacts?
    ensures Inv(Step(s, d, t)) && LeavesOthers(s, Step(s, d, t), d)
  {
    hide SameEntry, ItemsOf, Lines, Genuine, BookedInv, FactsInv, RemoteInv;
    assert DateInv(s, d);
    var s' := Step(s, d, t);
    if s' != s {
      var p := At(s', d);
      assert s' == Goto(s, d, p);
      GotoCount(s, d, p);
      GotoKeeps(s, d, p);
    }
  }

  lemma FindUploadMoves(s: System, d: Date, t: Turn)
    requires At(s, d).ResumeFindUpload? || At(s, d).FindUpload?
    requires At(s, d).row.title == Title(d)
    ensures var s', row, ids := Step(s, d, t), At(s, d).row, At(s, d).ids;
      var p, wanted := At(s', d), RemoteUpload(row.entry, CloseDescription(d));
      s' == s || (s' == Goto(s, d, p) &&
        match p
        case Idle => true
        case FailRun => true
        case ResumeCommit(r, i) =>
          t.found.Some? && r == row.(upload := t.found) && i == ids && UploadLookup(s.remote, wanted, t.found)
        case CommitUpload(r, i) =>
          t.found.Some? && r == row.(upload := t.found) && i == ids && UploadLookup(s.remote, wanted, t.found)
        case ResumeUpload(r, i) => r == row && i == ids && UploadLookup(s.remote, wanted, None)
        case Upload(r, i) => r == row && i == ids && UploadLookup(s.remote, wanted, None)
        case _ => false)
  {
    assert ResumeDescription(At(s, d).row) == CloseDescription(d);
    hide UploadLookup, ResumeDescription, CloseDescription;
  }

  lemma KeepFindUpload(s: System, d: Date, t: Turn)
    requires Inv(s) && (At(s, d).ResumeFindUpload? || At(s, d).FindUpload?)
    ensures Inv(Step(s, d, t)) && LeavesOthers(s, Step(s, d, t), d)
  {
    hide Step, SameEntry, ItemsOf, Lines, Genuine, BookedInv, FactsInv, RemoteInv;
    assert DateInv(s, d);
    FindUploadMoves(s, d, t);
    var s' := Step(s, d, t);
    if s' != s {
      var p := At(s', d);
      assert s' == Goto(s, d, p);
      GotoCount(s, d, p);
      GotoKeeps(s, d, p);
    }
  }

  lemma KeepListPending(s: System, d: Date, t: Turn)
    requires Inv(s) && At(s, d).ListPending?
    ensures Inv(Step(s, d, t)) && LeavesOthers(s, Step(s, d, t), d)
  {
    assert DateInv(s, d);
    var s' := Step(s, d, t);
    if s' != s {
      var p := At(s', d);
      assert s' == Goto(s, d, p);
      GotoCount(s, d, p);
      if p.ReadRun? {
        ListedIsGenuine(s, PendingIds(s.db, d), t.listing);
        forall i | 0 <= i < |t.listing| ensures t.listing[i].date == d {
          ListedFact(t.listing, s.db.facts, PendingIds(s.db, d), i);
        }
      }
      GotoKeeps(s, d, p);
    }
  }

  lemma KeepReadRun(s: System, d: Date, t: Turn)
    requires Inv(s) && (At(s, d).ReadRun? || At(s, d).ReadJournal?)
    ensures Inv(Step(s, d, t)) && LeavesOthers(s, Step(s, d, t), d)
  {
    assert DateInv(s, d);
    var s' := Step(s, d, t);
    var p := At(s', d);
    assert s' == Goto(s, d, p);
    GotoCount(s, d, p);
    GotoKeeps(s, d, p);
  }

  lemma FindJournalMoves(s: System, d: Date, t: Turn)
    requires At(s, d).FindJournal?
    ensures var s' := Step(s, d, t); var p, draft := At(s', d), At(s, d).draft;
      s' == s || (s' == Goto(s, d, p) &&
        match p
        case FailRun => true
        case CommitJournal(x, e) => x == draft && JournalLookup(s.remote, Wanted(d, draft.items), Some(e))
        case CreateJournal(x) => x == draft && JournalLookup(s.remote, Wanted(d, draft.items), None)
        case _ => false)
  {
    hide JournalLookup, Wanted;
  }

  lemma KeepFindJournal(s: System, d: Date, t: Turn)
    requires Inv(s) && At(s, d).FindJournal?
    ensures Inv(Step(s, d, t)) && LeavesOthers(s, Step(s, d, t), d)
  {
    hide Step, SameEntry, ItemsOf, Lines, Genuine, BookedInv, FactsInv, RemoteInv;
    assert DateInv(s, d);
    FindJournalMoves(s, d, t);
    var s' := Step(s, d, t);
    if s' != s {
      var p := At(s', d);
      assert s' == Goto(s, d, p);
      NoneMade(s, d);
      GotoCount(s, d, p);
      GotoKeeps(s, d, p);
    }
  }

  /** The run row, the process and the set of issued facts are all that change. */
  ghost predicate OnlyRun(s: System, s': System, d: Date) {
    && s'.remote == s.remote
    && s'.db == s.db.(runs := s'.db.runs)
    && s'.log == s.log.(issued := s'.log.issued)
    && Grows(s.log.issued, s'.log.issued)
    && (forall d' :: d' != d ==> SameAt(s.db.runs, s'.db.runs, d') && At(s, d') == At(s', d'))
  }

  lemma OnlyRunFacts(s: System, s': System, d: Date)
    requires FactsInv(s) && OnlyRun(s, s', d)
    ensures FactsInv(s')
  {
    forall id | id in s'.db.facts ensures FactInv(s', id) { assert FactInv(s, id); }
  }

  lemma OnlyRunRows(s: System, s': System, d: Date)
    requires DateInv(s, d) && OnlyRun(s, s', d)
    ensures RowInv(s', d) && AttachedInv(s'.db, d)
  {}

  lemma OnlyRunKeeps(s: System, s': System, d: Date)
    requires Inv(s) && OnlyRun(s, s', d)
    requires RunRowInv(s'.db, d) && ProcInv(s', d) && CountInv(s', d)
    ensures Inv(s') && LeavesOthers(s, s', d)
  {
    OnlyRunFacts(s, s', d);
    assert DateInv(s, d);
    OnlyRunRows(s, s', d);
    forall d' | d' != d ensures Undisturbed(s, s', d') {
      assert Attached(s.db, d') == Attached(s'.db, d');
    }
    Assemble(s, s', d);
  }

  // ---------------------------------------------------------------------------
  // Preparing the journal
  // ---------------------------------------------------------------------------

  lemma StoredRoundingLines(facts: seq<Fact>, r: Fact)
    ensures Lines(facts + [AsStored(r)]) == Lines(facts + [r])
    ensures Difference(facts + [AsStored(r)]) == Difference(facts + [r])
  {
    assert (facts + [AsStored(r)])[..|facts|] == facts;
    assert (facts + [r])[..|facts|] == facts;
  }

  /** What the close relies on when it sends an aggregate. */
  ghost predicate SoundAggregation(facts: seq<Fact>, r: Aggregation, id: nat) {
    r.Balanced? ==>
      && Difference(WithRounding(facts, r.rounding)) == 0
      && r.items == ItemsOf(Lines(WithRounding(facts, r.rounding)))
      && (r.rounding.Some? ==>
        && facts != [] && r.rounding.value.id == id
        && r.rounding.value.date == facts[0].date && r.rounding.value.payload.None?
        && r.rounding.value.group == "rounding")
  }

  lemma AggregationIsSound(facts: seq<Fact>, account: int, tolerance: int, id: nat)
    ensures SoundAggregation(facts, Aggregate(facts, account, tolerance, id), id)
  {
    AggregateBalances(facts, account, tolerance, id);
  }

  lemma RoundedDraft(s: System, d: Date, facts: seq<Fact>, r: Fact, id: nat)
    requires ListedInv(s, d, facts) && id !in s.log.issued && r.id == id && r.date == d && r.payload.None? && r.group == "rounding"
    requires Difference(facts + [r]) == 0
    ensures var stored := AsStored(r);
      DraftInv(s.(log := s.log.(issued := s.log.issued[id := stored.Core()])), d,
               Draft(facts + [stored], Some(stored), ItemsOf(Lines(facts + [r]))))
  {
    StoredRoundingLines(facts, r);
    var all := facts + [AsStored(r)];
    assert all[|facts|] == AsStored(r);
  }

  lemma PreparedDraft(s: System, d: Date, facts: seq<Fact>, r: Aggregation, id: nat)
    requires ListedInv(s, d, facts) && id !in s.log.issued
    requires SoundAggregation(facts, r, id) && r.Balanced?
    ensures var s' := Prepared(s, d, facts, r);
      && At(s', d).FindJournal? && DraftInv(s', d, At(s', d).draft)
      && OnlyRun(s, s', d)
  {
    var s' := Prepared(s, d, facts, r);
    assert facts[0].date == d;
    PreparedRun(s, d, facts, r);
    hide ItemsOf, Lines, Difference, Genuine, ListedInv, DraftInv, OnlyRun;
    if r.rounding.Some? {
      var stored := AsStored(r.rounding.value);
      var issuing := s.(log := s.log.(issued := s.log.issued[id := stored.Core()]));
      RoundedDraft(s, d, facts, r.rounding.value, id);
      SameLog(issuing, s', d, Draft(facts + [stored], Some(stored), r.items));
    } else {
      PlainDraft(s, d, facts);
      SameLog(s, s', d, Draft(facts, None, r.items));
    }
  }

  lemma PreparedRun(s: System, d: Date, facts: seq<Fact>, r: Aggregation)
    requires r.Balanced? && (r.rounding.Some? ==> r.rounding.value.id !in s.log.issued)
    ensures OnlyRun(s, Prepared(s, d, facts, r), d)
  {}

  lemma PlainDraft(s: System, d: Date, facts: seq<Fact>)
    requires ListedInv(s, d, facts) && Difference(facts) == 0
    ensures DraftInv(s, d, Draft(facts, None, ItemsOf(Lines(facts))))
  {
    hide Genuine, ItemsOf, Lines, Difference, ListedInv;
  }

  lemma SameLog(s: System, s': System, d: Date, draft: Draft)
    requires s'.log == s.log && DraftInv(s, d, draft)
    ensures DraftInv(s', d, draft)
  {
    hide Genuine, ItemsOf, Lines, Difference;
  }

  lemma PreparedKeeps(s: System, s': System, d: Date)
    requires Inv(s) && At(s, d).Prepare? && At(s', d).FindJournal?
    requires OnlyRun(s, s', d) && s'.db == s.db && DraftInv(s', d, At(s', d).draft)
    ensures Inv(s') && LeavesOthers(s, s', d)
  {
    assert DateInv(s, d);
    NoneMade(s, d);
    forall e | MadeOn(s', e, d) ensures MadeOn(s, e, d) {}
    OnlyRunKeeps(s, s', d);
  }

  lemma KeepPrepare(s: System, d: Date, t: Turn)
    requires Inv(s) && At(s, d).Prepare?
    ensures Inv(Step(s, d, t)) && LeavesOthers(s, Step(s, d, t), d)
  {
    var facts := At(s, d).facts;
    var r := Aggregate(facts, t.config.roundingAccount, t.config.tolerance, t.id);
    AggregationIsSound(facts, t.config.roundingAccount, t.config.tolerance, t.id);
    if t.outcome.Done? && t.id !in s.log.issued && r.Balanced? {
      assert DateInv(s, d);
      PreparedDraft(s, d, facts, r, t.id);
      PreparedKeeps(s, Step(s, d, t), d);
    } else if Step(s, d, t) != s {
      assert DateInv(s, d);
      NoneMade(s, d);
      GotoCount(s, d, FailRun);
      GotoKeeps(s, d, FailRun);
    }
  }

  // ---------------------------------------------------------------------------
  // Steps that change the run row
  // ---------------------------------------------------------------------------

  lemma KeepClaim(s: System, d: Date, t: Turn)
    requires Inv(s) && (At(s, d).CreateRun? || At(s, d).ResetRun?)
    ensures Inv(Step(s, d, t)) && LeavesOthers(s, Step(s, d, t), d)
  {
    assert DateInv(s, d);
    var s' := Step(s, d, t);
    if t.outcome.Aborted? {
      assert s' == Goto(s, d, Idle);
      GotoCount(s, d, Idle);
      GotoKeeps(s, d, Idle);
    } else {
      assert s' == Goto(s.(db := s.db.(runs := s.db.runs[d := Started])), d, At(s', d));
      forall e | MadeOn(s', e, d) ensures MadeOn(s, e, d) {}
      OnlyRunKeeps(s, s', d);
    }
  }

  lemma KeepFailRun(s: System, d: Date, t: Turn)
    requires Inv(s) && At(s, d).FailRun?
    ensures Inv(Step(s, d, t)) && LeavesOthers(s, Step(s, d, t), d)
  {
    assert DateInv(s, d);
    var s' := Step(s, d, t);
    if t.outcome.Aborted? {
      assert s' == Goto(s, d, Idle);
      GotoCount(s, d, Idle);
      GotoKeeps(s, d, Idle);
    } else {
      assert s' == Goto(s.(db := s.db.(runs := s.db.runs[d := RunFailed])), d, Idle);
      forall e | MadeOn(s', e, d) ensures MadeOn(s, e, d) {}
      OnlyRunKeeps(s, s', d);
    }
  }

  // ---------------------------------------------------------------------------
  // Remote calls
  // ---------------------------------------------------------------------------

  /** Rows of different dates name different remote journals. */
  lemma EntriesDiffer(s: System, d: Date, d': Date)
    requires DateInv(s, d) && DateInv(s, d') && d != d' && d in s.db.journals && d' in s.db.journals
    ensures s.db.journals[d].entry != s.db.journals[d'].entry
  {}

  lemma UploadUndisturbed(s: System, s': System, d: Date, id: nat, u: RemoteUpload)
    requires Inv(s) && d in s.db.journals && u.entry == s.db.journals[d].entry && id !in s.remote.uploads
    requires s' == Goto(AddUpload(s, id, u), d, At(s', d))
    ensures LeavesOthers(s, s', d)
  {
    hide SameEntry, ItemsOf, Lines, Genuine, FactsInv, ProcInv, CountInv, RemoteInv, BookedInv;
    assert DateInv(s, d);
    forall d' | d' != d ensures Undisturbed(s, s', d') {
      assert DateInv(s, d');
      if d' in s.db.journals { EntriesDiffer(s, d, d'); }
    }
  }

  lemma UploadRemote(s: System, d: Date, row: JournalRow, id: nat)
    requires RemoteInv(s) && NoUploadYet(s, d, row) && id !in s.remote.uploads
    ensures RemoteInv(AddUpload(s, id, RemoteUpload(row.entry, CloseDescription(d))))
  {}

  lemma UploadAdded(s: System, s': System, d: Date, row: JournalRow, id: nat)
    requires Inv(s) && HalfDone(s, d, row) && NoUploadYet(s, d, row) && id !in s.remote.uploads
    requires s' == Goto(AddUpload(s, id, RemoteUpload(row.entry, CloseDescription(d))), d, At(s', d))
    requires ProcInv(s', d) && !At(s', d).Prepare? && !At(s', d).FindJournal? && !At(s', d).CreateJournal?
    ensures Inv(s') && LeavesOthers(s, s', d)
  {
    assert DateInv(s, d);
    UploadUndisturbed(s, s', d, id, RemoteUpload(row.entry, CloseDescription(d)));
    UploadRemote(s, d, row, id);
    forall id | id in s'.db.facts ensures FactInv(s', id) { assert FactInv(s, id); }
    forall e | MadeOn(s', e, d) ensures MadeOn(s, e, d) {}
    Assemble(s, s', d);
  }

  lemma UploadMoves(s: System, d: Date, t: Turn)
    requires At(s, d).ResumeUpload? || At(s, d).Upload?
    requires At(s, d).row.title == Title(d)
    ensures var s' := Step(s, d, t); var p, row, ids := At(s', d), At(s, d).row, At(s, d).ids;
      && (t.outcome.Aborted? ==> s' == Goto(s, d, p) && (p.Idle? || p.FailRun?))
      && (!t.outcome.Aborted? && s' != s ==>
          && t.id !in s.remote.uploads && s' == Goto(AddUpload(s, t.id, RemoteUpload(row.entry, CloseDescription(d))), d, p)
          && match p
             case Idle => true
             case FailRun => true
             case ResumeCommit(r, i) => r == row.(upload := Some(t.id)) && i == ids
             case CommitUpload(r, i) => r == row.(upload := Some(t.id)) && i == ids
             case _ => false)
  {
    assert ResumeDescription(At(s, d).row) == CloseDescription(d);
    hide ResumeDescription, CloseDescription;
  }

  lemma KeepUpload(s: System, d: Date, t: Turn)
    requires Inv(s) && (At(s, d).ResumeUpload? || At(s, d).Upload?)
    ensures Inv(Step(s, d, t)) && LeavesOthers(s, Step(s, d, t), d)
  {
    hide Step, SameEntry, ItemsOf, Lines, Genuine;
    assert DateInv(s, d);
    var row := At(s, d).row;
    UploadMoves(s, d, t);
    var s' := Step(s, d, t);
    if t.outcome.Aborted? {
      GotoCount(s, d, At(s', d));
      GotoKeeps(s, d, At(s', d));
    } else if s' != s {
      UploadAdded(s, s', d, row, t.id);
    }
  }

  lemma JournalRemote(s: System, d: Date, id: nat, draft: Draft, lost: set<Date>)
    requires RemoteInv(s) && NoJournalYet(s, d, draft) && id !in s.remote.journals
    ensures RemoteInv(AddJournal(s, id, Wanted(d, draft.items), lost))
  {
    var s' := AddJournal(s, id, Wanted(d, draft.items), lost);
    forall e1, e2 | e1 in s'.log.made && e2 in s'.log.made && e1 != e2
      ensures !SameEntry(s'.remote.journals[e1], s'.remote.journals[e2])
    {
      assert e1 == id || e1 in s.log.made;
      assert e2 == id || e2 in s.log.made;
    }
  }

  lemma JournalUndisturbed(s: System, s': System, d: Date, id: nat, draft: Draft, lost: set<Date>)
    requires Inv(s) && id !in s.remote.journals && lost <= {d}
    requires s' == Goto(AddJournal(s, id, Wanted(d, draft.items), lost), d, At(s', d))
    ensures LeavesOthers(s, s', d)
  {
    forall d' | d' != d ensures Undisturbed(s, s', d') {
      forall e | MadeOn(s', e, d') ensures e in s.log.made { assert e != id; }
    }
  }

  lemma JournalCount(s: System, s': System, d: Date, id: nat, draft: Draft)
    requires Inv(s) && At(s, d) == CreateJournal(draft) && id !in s.remote.journals
    requires s' == Goto(AddJournal(s, id, Wanted(d, draft.items), {}), d, CommitJournal(draft, id))
    ensures CountInv(s', d)
  {
    assert DateInv(s, d);
    NoneMade(s, d);
    forall e | MadeOn(s', e, d) ensures d in s.log.lost || e == id {
      if e != id { assert MadeOn(s, e, d); }
    }
  }

  lemma KeepCreateJournal(s: System, d: Date, t: Turn)
    requires Inv(s) && At(s, d).CreateJournal?
    ensures Inv(Step(s, d, t)) && LeavesOthers(s, Step(s, d, t), d)
  {
    assert DateInv(s, d);
    var draft := At(s, d).draft;
    var s' := Step(s, d, t);
    if t.outcome.Aborted? {
      NoneMade(s, d);
      GotoCount(s, d, FailRun);
      GotoKeeps(s, d, FailRun);
    } else if s' != s {
      var lost := if t.outcome.Lost? then {d} else {};
      JournalRemote(s, d, t.id, draft, lost);
      JournalUndisturbed(s, s', d, t.id, draft, lost);
      if t.outcome.Done? { JournalCount(s, s', d, t.id, draft); }
      JournalAdded(s, s', d, t.id, draft, lost);
      Assemble(s, s', d);
    }
  }

  lemma JournalAdded(s: System, s': System, d: Date, id: nat, draft: Draft, lost: set<Date>)
    requires Inv(s) && At(s, d) == CreateJournal(draft) && id !in s.remote.journals
    requires s' == Goto(AddJournal(s, id, Wanted(d, draft.items), lost), d, At(s', d))
    requires At(s', d) in {FailRun, CommitJournal(draft, id)}
    ensures FactsInv(s') && RowInv(s', d) && AttachedInv(s'.db, d) && RunRowInv(s'.db, d) && ProcInv(s', d)
  {
    hide ItemsOf, Lines, Difference;
    assert DateInv(s, d);
    forall id | id in s'.db.facts ensures FactInv(s', id) { assert FactInv(s, id); }
  }

  // ---------------------------------------------------------------------------
  // Transaction 2
  // ---------------------------------------------------------------------------

  lemma UploadTxFacts(s: System, s': System, d: Date, row: JournalRow, ids: set<nat>)
    requires Inv(s) && Finishing(s, d, row, ids) && row.upload.Some?
    requires s'.db == CommitUploadTx(s.db, d, ids, row).value && s'.log == s.log
    ensures FactsInv(s')
  {
    assert DateInv(s, d);
    forall id | id in s'.db.facts ensures FactInv(s', id) {
      assert FactInv(s, id);
      assert Attached(s'.db, s.db.facts[id].date) == Attached(s.db, s.db.facts[id].date);
    }
  }

  lemma UploadTxUndisturbed(s: System, s': System, d: Date, row: JournalRow, ids: set<nat>, p: Proc)
    requires Inv(s) && Finishing(s, d, row, ids)
    requires s' == Goto(s.(db := CommitUploadTx(s.db, d, ids, row).value), d, p)
    ensures LeavesOthers(s, s', d)
  {
    hide SameEntry, ItemsOf, Lines, Genuine, FactsInv, ProcInv, CountInv, RemoteInv, BookedInv;
    assert DateInv(s, d);
    forall d' | d' != d ensures Undisturbed(s, s', d') {
      assert DateInv(s, d');
      assert Attached(s'.db, d') == Attached(s.db, d');
    }
  }

  lemma KeepCommitUpload(s: System, d: Date, t: Turn)
    requires Inv(s) && (At(s, d).ResumeCommit? || At(s, d).CommitUpload?)
    ensures Inv(Step(s, d, t)) && LeavesOthers(s, Step(s, d, t), d)
  {
    assert DateInv(s, d);
    var row, ids := At(s, d).row, At(s, d).ids;
    var s' := Step(s, d, t);
    var p := At(s', d);
    if t.outcome.Aborted? {
      assert s' == Goto(s, d, p);
      GotoCount(s, d, p);
      GotoKeeps(s, d, p);
    } else {
      assert s' == Goto(s.(db := CommitUploadTx(s.db, d, ids, row).value), d, p);
      UploadTxFacts(s, s', d, row, ids);
      UploadTxUndisturbed(s, s', d, row, ids, p);
      forall e | MadeOn(s', e, d) ensures MadeOn(s, e, d) {}
      assert RowInv(s', d) && AttachedInv(s'.db, d) && RunRowInv(s'.db, d);
      Assemble(s, s', d);
    }
  }

  // ---------------------------------------------------------------------------
  // Replacing a group
  // ---------------------------------------------------------------------------

  /** What replacing groups does to the facts: attached rows survive untouched, the rest of
      the table is kept or dropped, and the new rows are exactly the given ones. */
  lemma UpsertEffect(db: Db, facts: seq<Fact>)
    requires UpsertFacts(db, facts).Some?
    requires forall id, d :: id in Attached(db, d) ==> id in db.facts
    ensures var db' := UpsertFacts(db, facts).value;
      && db' == db.(facts := db'.facts)
      && (forall id, d :: id in Attached(db, d) ==> id in db'.facts && db'.facts[id] == db.facts[id])
      && (forall id :: id in db'.facts && id !in IdsOf(facts) ==> id in db.facts && db'.facts[id] == db.facts[id])
      && (forall f :: f in facts ==> f.id in db'.facts && db'.facts[f.id] == f)
      && (forall f, d :: f in facts ==> f.id !in Attached(db, d))
  {
    var ids := InGroups(db.facts, GroupsOf(facts));
    InsertAllEffect(db.facts - ids, facts, db.payloadNotNull);
    forall id, d | id in Attached(db, d) ensures id !in ids {
      assert d in db.attached;
    }
  }

  lemma AttachedAreStored(s: System)
    requires Inv(s)
    ensures forall id, d :: id in Attached(s.db, d) ==> id in s.db.facts
  {
    forall id, d | id in Attached(s.db, d) ensures id in s.db.facts { assert DateInv(s, d); }
  }

  // ---------------------------------------------------------------------------
  // Transaction 1
  // ---------------------------------------------------------------------------

  /** The database between storing the rounding line and attaching the facts. */
  function AfterRounding(db: Db, rounding: Option<Fact>): Option<Db> {
    match rounding case None => Some(db) case Some(r) => UpsertFacts(db, [r])
  }

  lemma RoundingEffect(s: System, d: Date, draft: Draft, db1: Db)
    requires Inv(s) && Claimed(s, d) && DraftInv(s, d, draft)
    requires AfterRounding(s.db, draft.rounding) == Some(db1)
    ensures db1 == s.db.(facts := db1.facts)
    ensures forall id, d' :: id in Attached(s.db, d') ==> id in s.db.facts && id in db1.facts && db1.facts[id] == s.db.facts[id]
    ensures forall id :: id in db1.facts && id !in IdsOf(draft.facts) ==> id in s.db.facts && db1.facts[id] == s.db.facts[id]
  {
    AttachedAreStored(s);
    if draft.rounding.Some? {
      var r := draft.rounding.value;
      UpsertEffect(s.db, [r]);
      assert IdsOf([r]) == {r.id};
    }
  }

  lemma DraftDate(s: System, d: Date, draft: Draft, id: nat)
    requires DraftInv(s, d, draft) && id in IdsOf(draft.facts)
    ensures id in s.log.issued && s.log.issued[id].date == d
  {
    var f :| f in draft.facts && f.id == id;
    var i :| 0 <= i < |draft.facts| && draft.facts[i] == f;
  }

  /** Whatever is stored under the id of a fact of the journal is that fact. */
  lemma CommittedId(s: System, d: Date, draft: Draft, db1: Db, id: nat)
    requires Inv(s) && Claimed(s, d) && DraftInv(s, d, draft) && AfterRounding(s.db, draft.rounding) == Some(db1)
    requires id in db1.facts && id in IdsOf(draft.facts)
    ensures db1.facts[id].id == id
    ensures id in s.log.issued && db1.facts[id].Core() == s.log.issued[id]
  {
    hide SameEntry, ItemsOf, Lines, ProcInv, CountInv, RemoteInv, RowInv, RunRowInv;
    AttachedAreStored(s);
    if draft.rounding.Some? {
      var r := draft.rounding.value;
      UpsertEffect(s.db, [r]);
      assert IdsOf([r]) == {r.id};
      if id == r.id { assert r in [r] && r in draft.facts; } else { assert FactInv(s, id); }
    } else {
      assert FactInv(s, id);
    }
  }

  ghost predicate JournalCommitted(s: System, s': System, d: Date, draft: Draft, row: JournalRow, db1: Db) {
    var ids := IdsOf(draft.facts);
    && AfterRounding(s.db, draft.rounding) == Some(db1)
    && ids <= db1.facts.Keys
    && s'.remote == s.remote
    && s'.log == s.log.(booked := s.log.booked[d := draft.facts])
    && s'.db == db1.(facts := MarkStatus(db1.facts, ids, Batched), attached := db1.attached[d := Attached(db1, d) + ids],
                     journals := db1.journals[d := row], runs := db1.runs[d := JournalCreated])
    && (forall d' :: d' != d ==> At(s', d') == At(s, d'))
  }

  lemma CommittedAttached(s: System, s': System, d: Date, draft: Draft, row: JournalRow, db1: Db)
    requires Inv(s) && Claimed(s, d) && DraftInv(s, d, draft) && JournalCommitted(s, s', d, draft, row, db1)
    ensures Attached(s'.db, d) == IdsOf(draft.facts)
    ensures forall d' :: d' != d ==> Attached(s'.db, d') == Attached(s.db, d')
  {
    RoundingEffect(s, d, draft, db1);
    assert DateInv(s, d);
    assert Attached(s.db, d) == {};
  }

  /** A fact of the journal is now batched, whichever way it got into the table. */
  lemma CommittedMember(s: System, s': System, d: Date, draft: Draft, row: JournalRow, db1: Db, id: nat)
    requires Inv(s) && Claimed(s, d) && DraftInv(s, d, draft) && JournalCommitted(s, s', d, draft, row, db1)
    requires row.upload.None? && id in IdsOf(draft.facts)
    ensures id in s'.db.facts && FactInv(s', id)
    ensures s'.db.facts[id].date == d && s'.db.facts[id].status == Batched
  {
    RoundingEffect(s, d, draft, db1);
    CommittedAttached(s, s', d, draft, row, db1);
    DraftDate(s, d, draft, id);
    CommittedId(s, d, draft, db1, id);
  }

  lemma UnmarkedKept(s: System, s': System, d: Date, draft: Draft, row: JournalRow, db1: Db, id: nat)
    requires JournalCommitted(s, s', d, draft, row, db1) && id in s'.db.facts && id !in IdsOf(draft.facts)
    ensures id in db1.facts && s'.db.facts[id] == db1.facts[id] && s'.log.issued == s.log.issued
    ensures forall d' :: d' != d ==> SameAt(db1.journals, s'.db.journals, d')
  {}

  lemma CommittedOther(s: System, s': System, d: Date, draft: Draft, row: JournalRow, db1: Db, id: nat)
    requires Inv(s) && Claimed(s, d) && DraftInv(s, d, draft) && JournalCommitted(s, s', d, draft, row, db1)
    requires id in s'.db.facts && id !in IdsOf(draft.facts)
    ensures FactInv(s', id)
  {
    RoundingEffect(s, d, draft, db1);
    CommittedAttached(s, s', d, draft, row, db1);
    UnmarkedKept(s, s', d, draft, row, db1, id);
    assert FactInv(s, id);
    hide Inv, FactInv, DraftInv, JournalCommitted, Attached, AfterRounding;
    FactStays(s, s', d, id);
  }

  lemma FactStays(s: System, s': System, d: Date, id: nat)
    requires id in s.db.facts && id in s'.db.facts && s'.db.facts[id] == s.db.facts[id] && FactInv(s, id)
    requires s'.log.issued == s.log.issued && d !in s.db.journals && id !in Attached(s'.db, d)
    requires forall d' :: d' != d ==> SameAt(s.db.journals, s'.db.journals, d') && Attached(s'.db, d') == Attached(s.db, d')
    ensures FactInv(s', id)
  {
    hide Attached;
  }

  lemma CommittedFacts(s: System, s': System, d: Date, draft: Draft, row: JournalRow, db1: Db)
    requires Inv(s) && Claimed(s, d) && DraftInv(s, d, draft) && JournalCommitted(s, s', d, draft, row, db1)
    requires row.upload.None?
    ensures FactsInv(s')
  {
    forall id | id in s'.db.facts ensures FactInv(s', id) {
      if id in IdsOf(draft.facts) { CommittedMember(s, s', d, draft, row, db1, id); }
      else { CommittedOther(s, s', d, draft, row, db1, id); }
    }
  }

  lemma CommittedKeepsOthers(s: System, s': System, d: Date, draft: Draft, row: JournalRow, db1: Db, d': Date)
    requires Inv(s) && Claimed(s, d) && DraftInv(s, d, draft) && JournalCommitted(s, s', d, draft, row, db1)
    requires d' != d
    ensures forall id :: id in Attached(s.db, d') && id in s.db.facts ==> id in s'.db.facts && s'.db.facts[id] == s.db.facts[id]
  {
    RoundingEffect(s, d, draft, db1);
    assert DateInv(s, d');
    forall id | id in Attached(s.db, d') && id in s.db.facts ensures id in s'.db.facts && s'.db.facts[id] == s.db.facts[id] {
      assert FactInv(s, id);
      if id in IdsOf(draft.facts) { DraftDate(s, d, draft, id); }
    }
  }

  lemma RoundingFrame(s: System, rounding: Option<Fact>, db1: Db)
    requires AfterRounding(s.db, rounding) == Some(db1)
    ensures db1 == s.db.(facts := db1.facts)
  {}

  lemma CommittedUndisturbed(s: System, s': System, d: Date, draft: Draft, row: JournalRow, db1: Db)
    requires Inv(s) && Claimed(s, d) && DraftInv(s, d, draft) && JournalCommitted(s, s', d, draft, row, db1)
    ensures LeavesOthers(s, s', d)
  {
    hide SameEntry, ItemsOf, Lines, ProcInv, CountInv, RemoteInv, RowInv, RunRowInv, FactsInv;
    CommittedAttached(s, s', d, draft, row, db1);
    RoundingFrame(s, draft.rounding, db1);
    forall d' | d' != d ensures Undisturbed(s, s', d') {
      CommittedKeepsOthers(s, s', d, draft, row, db1, d');
    }
  }

  lemma CommittedRows(s: System, s': System, d: Date, draft: Draft, entry: nat, db1: Db)
    requires Inv(s) && Claimed(s, d) && DraftInv(s, d, draft)
    requires JournalCommitted(s, s', d, draft, JournalRow(entry, None, Title(d), d), db1)
    requires entry in s.remote.journals && SameEntry(s.remote.journals[entry], Wanted(d, draft.items))
    ensures RunRowInv(s'.db, d) && AttachedInv(s'.db, d) && RowInv(s', d)
  {
    var row := JournalRow(entry, None, Title(d), d);
    RoundingEffect(s, d, draft, db1);
    CommittedAttached(s, s', d, draft, row, db1);
    forall id | id in Attached(s'.db, d) ensures id in s'.db.facts && s'.db.facts[id].date == d && s'.db.facts[id].status == Batched {
      CommittedMember(s, s', d, draft, row, db1, id);
    }
    assert BookedInv(s', d, draft.facts);
  }

  lemma CommitMoves(s: System, d: Date, t: Turn)
    requires At(s, d).CommitJournal?
    ensures var s', draft, row := Step(s, d, t), At(s, d).draft, JournalRow(At(s, d).entry, None, Title(d), d);
      var ids, stored := IdsOf(draft.facts), AfterRounding(s.db, draft.rounding);
      s' == Goto(s, d, Idle) ||
        (&& stored.Some? && JournalCommitted(s, s', d, draft, row, stored.value)
         && At(s', d) in {Idle, FindUpload(row, ids)} && s'.procs == s.procs[d := At(s', d)])
  {
    hide MarkStatus, UpsertFacts, IdsOf, Title;
  }

  lemma KeepCommitJournal(s: System, d: Date, t: Turn)
    requires Inv(s) && At(s, d).CommitJournal?
    ensures Inv(Step(s, d, t)) && LeavesOthers(s, Step(s, d, t), d)
  {
    hide Step, Difference, ItemsOf, Lines, Genuine, SameEntry, FactsInv;
    assert DateInv(s, d);
    CommitMoves(s, d, t);
    var draft, entry := At(s, d).draft, At(s, d).entry;
    var s' := Step(s, d, t);
    if s' == Goto(s, d, Idle) {
      GotoCount(s, d, Idle);
      GotoKeeps(s, d, Idle);
    } else {
      var db1 := AfterRounding(s.db, draft.rounding).value;
      CommittedKeeps(s, s', d, draft, entry, db1);
    }
  }

  lemma CommittedKeeps(s: System, s': System, d: Date, draft: Draft, entry: nat, db1: Db)
    requires Inv(s) && At(s, d) == CommitJournal(draft, entry)
    requires JournalCommitted(s, s', d, draft, JournalRow(entry, None, Title(d), d), db1)
    requires At(s', d) in {Idle, FindUpload(JournalRow(entry, None, Title(d), d), IdsOf(draft.facts))}
    ensures Inv(s') && LeavesOthers(s, s', d)
  {
    hide ItemsOf, Lines, Genuine, Difference, SameEntry, FactsInv, MarkStatus, UpsertFacts;
    var row := JournalRow(entry, None, Title(d), d);
    assert DateInv(s, d);
    CommittedFacts(s, s', d, draft, row, db1);
    CommittedUndisturbed(s, s', d, draft, row, db1);
    CommittedRows(s, s', d, draft, entry, db1);
    CommittedAttached(s, s', d, draft, row, db1);
    forall e | MadeOn(s', e, d) ensures MadeOn(s, e, d) {}
    assert RemoteInv(s');
    Assemble(s, s', d);
  }

  // ---------------------------------------------------------------------------
  // The environment
  // ---------------------------------------------------------------------------

  lemma {:induction false} IssueOld(issued: map<nat, Fact>, facts: seq<Fact>, id: nat)
    requires id in issued && forall i :: 0 <= i < |facts| ==> facts[i].id != id
    ensures id in Issue(issued, facts) && Issue(issued, facts)[id] == issued[id]
  {
    if facts != [] { IssueOld(issued, facts[..|facts| - 1], id); }
  }

  lemma {:induction false} IssueNew(issued: map<nat, Fact>, facts: seq<Fact>, i: nat)
    requires i < |facts|
    requires forall i, j :: 0 <= i < j < |facts| ==> facts[i].id != facts[j].id
    ensures facts[i].id in Issue(issued, facts) && Issue(issued, facts)[facts[i].id] == facts[i].Core()
  {
    if i < |facts| - 1 { IssueNew(issued, facts[..|facts| - 1], i); }
  }

  lemma WebhookIssue(s: System, facts: seq<Fact>)
    requires FreshFacts(s, facts) && UpsertFacts(s.db, facts).Some?
    ensures Grows(s.log.issued, Issue(s.log.issued, facts))
    ensures forall f :: f in facts ==> f.id in Issue(s.log.issued, facts) && Issue(s.log.issued, facts)[f.id] == f.Core()
  {
    InsertAllEffect(s.db.facts - InGroups(s.db.facts, GroupsOf(facts)), facts, s.db.payloadNotNull);
    forall id | id in s.log.issued ensures id in Issue(s.log.issued, facts) && Issue(s.log.issued, facts)[id] == s.log.issued[id] {
      forall i | 0 <= i < |facts| ensures facts[i].id != id { assert facts[i] in facts; }
      IssueOld(s.log.issued, facts, id);
    }
    forall f | f in facts ensures f.id in Issue(s.log.issued, facts) && Issue(s.log.issued, facts)[f.id] == f.Core() {
      var i :| 0 <= i < |facts| && facts[i] == f;
      IssueNew(s.log.issued, facts, i);
    }
  }

  lemma WebhookFact(s: System, facts: seq<Fact>, s': System, id: nat)
    requires Inv(s) && FreshFacts(s, facts) && UpsertFacts(s.db, facts) == Some(s'.db)
    requires s'.log == s.log.(issued := Issue(s.log.issued, facts))
    requires id in s'.db.facts
    ensures FactInv(s', id)
  {
    AttachedAreStored(s);
    UpsertEffect(s.db, facts);
    WebhookIssue(s, facts);
    if id in IdsOf(facts) {
      var f :| f in facts && f.id == id;
      assert f.id !in Attached(s.db, f.date) && Attached(s'.db, f.date) == Attached(s.db, f.date);
    } else {
      assert FactInv(s, id);
    }
  }

  lemma WebhookUndisturbed(s: System, facts: seq<Fact>, s': System, d: Date)
    requires Inv(s) && FreshFacts(s, facts) && UpsertFacts(s.db, facts) == Some(s'.db)
    requires s' == s.(db := s'.db, log := s.log.(issued := Issue(s.log.issued, facts)))
    ensures Undisturbed(s, s', d)
  {
    AttachedAreStored(s);
    UpsertEffect(s.db, facts);
    WebhookIssue(s, facts);
  }

  lemma KeepWebhook(s: System, facts: seq<Fact>)
    requires Inv(s)
    ensures Inv(StepWebhook(s, facts))
  {
    var s' := StepWebhook(s, facts);
    if s' != s {
      forall id | id in s'.db.facts ensures FactInv(s', id) { WebhookFact(s, facts, s', id); }
      forall d ensures Undisturbed(s, s', d) { WebhookUndisturbed(s, facts, s', d); }
      AssembleAll(s, s');
    }
  }

  lemma KeepForeign(s: System, e: Event)
    requires Inv(s) && (e.ForeignJournal? || e.ForeignUpload?)
    ensures Inv(Next(s, e))
  {
    var s' := Next(s, e);
    if s' != s {
      forall id | id in s'.db.facts ensures FactInv(s', id) { assert FactInv(s, id); }
      forall d ensures Undisturbed(s, s', d) {
        forall x | MadeOn(s', x, d) ensures x in s.log.made {}
      }
      AssembleAll(s, s');
    }
  }

  // ---------------------------------------------------------------------------
  // Every run
  // ---------------------------------------------------------------------------

  lemma StepKeeps(s: System, d: Date, t: Turn)
    requires Inv(s)
    ensures Inv(Step(s, d, t)) && LeavesOthers(s, Step(s, d, t), d)
  {
    match At(s, d)
    case Idle =>
    case ResumeReadRun => KeepResumeReads(s, d, t);
    case ResumeReadJournal => KeepResumeReads(s, d, t);
    case ResumeListFacts(_) => KeepResumeReads(s, d, t);
    case ResumeFindUpload(_, _) => KeepFindUpload(s, d, t);
    case ResumeUpload(_, _) => KeepUpload(s, d, t);
    case ResumeCommit(_, _) => KeepCommitUpload(s, d, t);
    case ListPending => KeepListPending(s, d, t);
    case ReadRun(_) => KeepReadRun(s, d, t);
    case CreateRun(_) => KeepClaim(s, d, t);
    case ReadJournal(_) => KeepReadRun(s, d, t);
    case ResetRun(_) => KeepClaim(s, d, t);
    case Prepare(_) => KeepPrepare(s, d, t);
    case FindJournal(_) => KeepFindJournal(s, d, t);
    case CreateJournal(_) => KeepCreateJournal(s, d, t);
    case CommitJournal(_, _) => KeepCommitJournal(s, d, t);
    case FindUpload(_, _) => KeepFindUpload(s, d, t);
    case Upload(_, _) => KeepUpload(s, d, t);
    case CommitUpload(_, _) => KeepCommitUpload(s, d, t);
    case FailRun => KeepFailRun(s, d, t);
  }

  lemma NextKeeps(s: System, e: Event)
    requires Inv(s)
    ensures Inv(Next(s, e))
  {
    match e
    case Start(d) =>
      if At(s, d).Idle? { GotoCount(s, d, ResumeReadRun); GotoKeeps(s, d, ResumeReadRun); }
    case Advance(d, t) => StepKeeps(s, d, t);
    case Crash(d) => GotoCount(s, d, Idle); GotoKeeps(s, d, Idle);
    case Webhook(facts) => KeepWebhook(s, facts);
    case ForeignJournal(_, _) => KeepForeign(s, e);
    case ForeignUpload(_, _) => KeepForeign(s, e);
  }

  /** The invariant holds after every run: any interleaving of closes, crashes, lost
      responses, aborted transactions, webhooks and foreign entries. */
  lemma {:induction false} RunKeeps(s: System, events: seq<Event>)
    requires Inv(s)
    ensures Inv(Run(s, events))
  {
    if events != [] {
      RunKeeps(s, events[..|events| - 1]);
      NextKeeps(Run(s, events[..|events| - 1]), events[|events| - 1]);
    }
  }

  lemma InitHolds(payloadNotNull: bool)
    ensures Inv(Init(payloadNotNull))
  {}
}
