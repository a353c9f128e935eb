/** What holds in every reachable state of the posting machine. */
module CloseInvariant {
  import opened Grouping
  import opened Ledger
  import opened Journal
  import opened Bokio
  import opened Store
  import opened Close

  // ---------------------------------------------------------------------------
  // Facts
  // ---------------------------------------------------------------------------

  /** The life of a fact: unsettled and attached to nothing, then batched with a journal
      that lacks its attachment, then posted with a finished one. */
  ghost predicate FactInv(s: System, id: nat)
    requires id in s.db.facts
  {
    var f := s.db.facts[id];
    && f.id == id && id in s.log.issued && s.log.issued[id] == f.Core()
    && !f.status.Reversed? && !f.status.Failed?
    && (f.status.Batched? ==> f.date in s.db.journals && s.db.journals[f.date].upload.None? && id in Attached(s.db, f.date))
    && (f.status.Posted? ==> f.date in s.db.journals && s.db.journals[f.date].upload.Some? && id in Attached(s.db, f.date))
    && (f.status.Pending? || f.status.NeedsReview? ==> id !in Attached(s.db, f.date))
  }

  ghost predicate FactsInv(s: System) {
    forall id :: id in s.db.facts ==> FactInv(s, id)
  }

  /** Facts as they were issued, none twice. */
  ghost predicate Genuine(facts: seq<Fact>, issued: map<nat, Fact>) {
    && (forall i :: 0 <= i < |facts| ==> facts[i].id in issued && issued[facts[i].id] == facts[i].Core())
    && (forall i, j :: 0 <= i < j < |facts| ==> facts[i].id != facts[j].id)
  }

  // ---------------------------------------------------------------------------
  // The rows of one date
  // ---------------------------------------------------------------------------

  ghost predicate RunRowInv(db: Db, d: Date) {
    && (d in db.journals ==> d in db.runs)
    && (d in db.runs ==>
        match db.runs[d]
        case Started => d !in db.journals
        case JournalCreated => d in db.journals && db.journals[d].upload.None?
        case UploadCreated => false
        case Completed => d in db.journals && db.journals[d].upload.Some?
        case RunFailed => d in db.journals ==> db.journals[d].upload.None?)
  }

  ghost predicate AttachedInv(db: Db, d: Date) {
    && (Attached(db, d) != {} ==> d in db.journals)
    && (forall id :: id in Attached(db, d) ==>
        && id in db.facts && db.facts[id].date == d
        && db.facts[id].status == if db.journals[d].upload.Some? then Posted else Batched)
  }

  /** The stored journal row tells the truth about the remote side. */
  ghost predicate RowInv(s: System, d: Date) {
    d in s.db.journals ==>
      var row := s.db.journals[d];
      && row.title == Title(d) && row.date == d
      && row.entry in s.remote.journals
      && d in s.log.booked
      && BookedInv(s, d, s.log.booked[d])
      && SameEntry(s.remote.journals[row.entry], Wanted(d, ItemsOf(Lines(s.log.booked[d]))))
      && (row.upload.Some? ==> HasUpload(s, d, row))
  }

  ghost predicate BookedInv(s: System, d: Date, facts: seq<Fact>) {
    && Genuine(facts, s.log.issued)
    && IdsOf(facts) == Attached(s.db, d)
    && Difference(facts) == 0
  }

  ghost predicate HasUpload(s: System, d: Date, row: JournalRow) {
    && row.upload.Some?
    && row.upload.value in s.remote.uploads
    && s.remote.uploads[row.upload.value] == RemoteUpload(row.entry, CloseDescription(d))
  }

  // ---------------------------------------------------------------------------
  // The process of one date
  // ---------------------------------------------------------------------------

  /** A journal was committed and its attachment is still missing. */
  ghost predicate HalfDone(s: System, d: Date, row: JournalRow) {
    && d in s.db.journals && s.db.journals[d] == row && row.upload.None?
    && d in s.db.runs && (s.db.runs[d].JournalCreated? || s.db.runs[d].RunFailed?)
  }

  /** Nothing half-done: either no journal or a finished one. */
  ghost predicate Clean(s: System, d: Date) {
    d in s.db.journals ==> d in s.db.runs && s.db.runs[d].Completed?
  }

  ghost predicate Claimed(s: System, d: Date) {
    d in s.db.runs && s.db.runs[d].Started? && d !in s.db.journals
  }

  ghost predicate ListedInv(s: System, d: Date, facts: seq<Fact>) {
    && facts != [] && Genuine(facts, s.log.issued)
    && forall i :: 0 <= i < |facts| ==> facts[i].date == d
  }

  ghost predicate DraftInv(s: System, d: Date, draft: Draft) {
    && ListedInv(s, d, draft.facts)
    && Difference(draft.facts) == 0
    && draft.items == ItemsOf(Lines(draft.facts))
    && (draft.rounding.Some? ==>
        draft.rounding.value in draft.facts && draft.rounding.value.status.Pending? && draft.rounding.value.payload.None?
        && draft.rounding.value.group == "rounding")
  }

  ghost predicate NoUploadYet(s: System, d: Date, row: JournalRow) {
    forall u :: u in s.log.uploaded && u in s.remote.uploads ==> s.remote.uploads[u] != RemoteUpload(row.entry, CloseDescription(d))
  }

  ghost predicate NoJournalYet(s: System, d: Date, draft: Draft) {
    forall e :: e in s.log.made && e in s.remote.journals ==> !SameEntry(s.remote.journals[e], Wanted(d, draft.items))
  }

  ghost predicate Finishing(s: System, d: Date, row: JournalRow, ids: set<nat>) {
    HalfDone(s, d, row.(upload := None)) && ids == Attached(s.db, d)
  }

  ghost predicate ProcInv(s: System, d: Date) {
    match At(s, d)
    case Idle => true
    case ResumeReadRun => true
    case ResumeReadJournal => d in s.db.runs && (s.db.runs[d].JournalCreated? || s.db.runs[d].RunFailed?)
    case ResumeListFacts(row) => HalfDone(s, d, row)
    case ResumeFindUpload(row, ids) => HalfDone(s, d, row) && ids == Attached(s.db, d)
    case ResumeUpload(row, ids) => HalfDone(s, d, row) && ids == Attached(s.db, d) && NoUploadYet(s, d, row)
    case ResumeCommit(row, ids) => Finishing(s, d, row, ids) && HasUpload(s, d, row)
    case ListPending => Clean(s, d)
    case ReadRun(facts) => Clean(s, d) && ListedInv(s, d, facts)
    case CreateRun(facts) => d !in s.db.runs && ListedInv(s, d, facts)
    case ReadJournal(facts) => d in s.db.runs && s.db.runs[d].RunFailed? && d !in s.db.journals && ListedInv(s, d, facts)
    case ResetRun(facts) => d in s.db.runs && s.db.runs[d].RunFailed? && d !in s.db.journals && ListedInv(s, d, facts)
    case Prepare(facts) => Claimed(s, d) && ListedInv(s, d, facts)
    case FindJournal(draft) => Claimed(s, d) && DraftInv(s, d, draft)
    case CreateJournal(draft) => Claimed(s, d) && DraftInv(s, d, draft) && NoJournalYet(s, d, draft)
    case CommitJournal(draft, entry) => Claimed(s, d) && DraftInv(s, d, draft)
        && entry in s.remote.journals && SameEntry(s.remote.journals[entry], Wanted(d, draft.items))
    case FindUpload(row, ids) => HalfDone(s, d, row) && ids == Attached(s.db, d)
    case Upload(row, ids) => HalfDone(s, d, row) && ids == Attached(s.db, d) && NoUploadYet(s, d, row)
    case CommitUpload(row, ids) => Finishing(s, d, row, ids) && HasUpload(s, d, row)
    case FailRun => Claimed(s, d) || (d in s.db.journals && HalfDone(s, d, s.db.journals[d]))
  }

  // ---------------------------------------------------------------------------
  // The remote side
  // ---------------------------------------------------------------------------

  ghost predicate MadeOn(s: System, e: nat, d: Date) {
    e in s.log.made && e in s.remote.journals && s.remote.journals[e].date == d
  }

  /** Before a journal is made for the date a close may still make one; afterwards the run
      is in a state from which no close gets that far again. */
  ghost predicate BeyondMaking(s: System, d: Date) {
    && d in s.db.runs
    && (s.db.runs[d].RunFailed? ==> d in s.db.journals)
    && !At(s, d).Prepare? && !At(s, d).FindJournal? && !At(s, d).CreateJournal?
    && (At(s, d).FailRun? ==> d in s.db.journals)
  }

  ghost predicate CountInv(s: System, d: Date) {
    d !in s.log.lost ==>
      && (forall e1, e2 :: MadeOn(s, e1, d) && MadeOn(s, e2, d) ==> e1 == e2)
      && (forall e :: MadeOn(s, e, d) ==> BeyondMaking(s, d))
  }

  ghost predicate RemoteInv(s: System) {
    && s.log.made <= s.remote.journals.Keys
    && s.log.uploaded <= s.remote.uploads.Keys
    && (forall e1, e2 :: e1 in s.log.made && e2 in s.log.made && e1 != e2 ==>
        !SameEntry(s.remote.journals[e1], s.remote.journals[e2]))
    && (forall u1, u2 :: u1 in s.log.uploaded && u2 in s.log.uploaded && u1 != u2 ==>
        s.remote.uploads[u1] != s.remote.uploads[u2])
  }

  ghost predicate DateInv(s: System, d: Date) {
    RunRowInv(s.db, d) && AttachedInv(s.db, d) && RowInv(s, d) && ProcInv(s, d) && CountInv(s, d)
  }

  ghost predicate Inv(s: System) {
    FactsInv(s) && RemoteInv(s) && forall d :: DateInv(s, d)
  }

  // ---------------------------------------------------------------------------
  // Dates do not disturb each other
  // ---------------------------------------------------------------------------

  ghost predicate Grows<K, V>(m: map<K, V>, m': map<K, V>) {
    forall k :: k in m ==> k in m' && m'[k] == m[k]
  }

  ghost predicate SameAt<V>(m: map<Date, V>, m': map<Date, V>, d: Date) {
    (d in m <==> d in m') && (d in m ==> m'[d] == m[d])
  }

  /** From s to s' nothing happened that date `d` can notice. */
  ghost predicate Undisturbed(s: System, s': System, d: Date) {
    && SameAt(s.db.runs, s'.db.runs, d)
    && SameAt(s.db.journals, s'.db.journals, d)
    && SameAt(s.log.booked, s'.log.booked, d)
    && Attached(s.db, d) == Attached(s'.db, d)
    && At(s, d) == At(s', d)
    && (d in s.log.lost <==> d in s'.log.lost)
    && Grows(s.log.issued, s'.log.issued)
    && Grows(s.remote.journals, s'.remote.journals)
    && Grows(s.remote.uploads, s'.remote.uploads)
    && (forall id :: id in Attached(s.db, d) && id in s.db.facts ==> id in s'.db.facts && s'.db.facts[id] == s.db.facts[id])
    && (forall e :: MadeOn(s', e, d) ==> e in s.log.made)
    && (forall u :: u in s'.log.uploaded - s.log.uploaded && u in s'.remote.uploads && d in s.db.journals ==>
        s'.remote.uploads[u].entry != s.db.journals[d].entry)
  }

  ghost predicate LeavesOthers(s: System, s': System, d: Date) {
    forall d' :: d' != d ==> Undisturbed(s, s', d')
  }

  lemma UndisturbedRows(s: System, s': System, d: Date)
    requires DateInv(s, d) && Undisturbed(s, s', d)
    ensures RunRowInv(s'.db, d) && AttachedInv(s'.db, d) && RowInv(s', d)
  {}

  lemma UndisturbedProc(s: System, s': System, d: Date)
    requires DateInv(s, d) && RemoteInv(s) && Undisturbed(s, s', d)
    ensures ProcInv(s', d)
  {
    match At(s, d)
    case CreateJournal(draft) =>
      forall e | e in s'.log.made && e in s'.remote.journals ensures !SameEntry(s'.remote.journals[e], Wanted(d, draft.items)) {
        if s'.remote.journals[e].date == d { assert MadeOn(s', e, d); }
      }
    case _ =>
  }

  lemma UndisturbedCount(s: System, s': System, d: Date)
    requires DateInv(s, d) && RemoteInv(s) && Undisturbed(s, s', d)
    ensures CountInv(s', d)
  {
    forall e | MadeOn(s', e, d) ensures MadeOn(s, e, d) {}
  }

  /** One process moves, the others notice nothing: the invariant follows from the parts. */
  lemma Assemble(s: System, s': System, d: Date)
    requires Inv(s)
    requires LeavesOthers(s, s', d)
    requires DateInv(s', d) && FactsInv(s') && RemoteInv(s')
    ensures Inv(s')
  {
    forall d' ensures DateInv(s', d') {
      if d' != d {
        UndisturbedRows(s, s', d');
        UndisturbedProc(s, s', d');
        UndisturbedCount(s, s', d');
      }
    }
  }

  /** A step of the environment that no date notices. */
  lemma AssembleAll(s: System, s': System)
    requires Inv(s)
    requires forall d :: Undisturbed(s, s', d)
    requires FactsInv(s') && RemoteInv(s')
    ensures Inv(s')
  {
    forall d ensures DateInv(s', d) {
      UndisturbedRows(s, s', d);
      UndisturbedProc(s, s', d);
      UndisturbedCount(s, s', d);
    }
  }
}
