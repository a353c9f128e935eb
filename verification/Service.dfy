/** RunDailyClose and what it calls, as one call makes them.

    `machine` and `trace` follow along: every query, remote call and transaction of the code
    is one event of the machine in `Close`, so whatever holds in every reachable state of the
    machine holds wherever the code can be. `call` holds the events of the current call, and
    `start` where it began: the call takes exactly the steps that the machine prescribes for
    the environment's answers, from the lock to the end. */
module Service {
  import opened Grouping
  import opened Ledger
  import opened Journal
  import opened JournalLaws
  import opened Bokio
  import opened Store
  import opened Database
  import opened Close
  import opened CloseInvariant
  import opened CloseTheorems

  /** How the environment answers one call of RunDailyClose, and the ids it hands out. */
  datatype Environment = Environment(
    config: Config,
    resumeReadRun: Outcome, resumeReadJournal: Outcome, resumeListFacts: Outcome,
    resumeFindUpload: Outcome, resumeUpload: Outcome, resumeCommit: Outcome,
    listPending: Outcome, readRun: Outcome, createRun: Outcome, readJournal: Outcome, resetRun: Outcome,
    prepare: Outcome, findJournal: Outcome, createJournal: Outcome, commitJournal: Outcome,
    findUpload: Outcome, upload: Outcome, commitUpload: Outcome, failRun: Outcome,
    roundingId: nat, journalId: nat, resumeUploadId: nat, uploadId: nat)
  {
    function Turn(outcome: Outcome): Turn { Close.Turn(outcome, 0, None, [], config) }
  }

  /** Whether `t` is what the environment answers where the close is. */
  predicate Fits(p: Proc, t: Turn, env: Environment) {
    && t.config == env.config
    && match p
       case Idle => false
       case ResumeReadRun => t.outcome == env.resumeReadRun
       case ResumeReadJournal => t.outcome == env.resumeReadJournal
       case ResumeListFacts(_) => t.outcome == env.resumeListFacts
       case ResumeFindUpload(_, _) => t.outcome == env.resumeFindUpload
       case ResumeUpload(_, _) => t.outcome == env.resumeUpload && t.id == env.resumeUploadId
       case ResumeCommit(_, _) => t.outcome == env.resumeCommit
       case ListPending => t.outcome == env.listPending
       case ReadRun(_) => t.outcome == env.readRun
       case CreateRun(_) => t.outcome == env.createRun
       case ReadJournal(_) => t.outcome == env.readJournal
       case ResetRun(_) => t.outcome == env.resetRun
       case Prepare(_) => t.outcome == env.prepare && t.id == env.roundingId
       case FindJournal(_) => t.outcome == env.findJournal
       case CreateJournal(_) => t.outcome == env.createJournal && t.id == env.journalId
       case CommitJournal(_, _) => t.outcome == env.commitJournal
       case FindUpload(_, _) => t.outcome == env.findUpload
       case Upload(_, _) => t.outcome == env.upload && t.id == env.uploadId
       case CommitUpload(_, _) => t.outcome == env.commitUpload
       case FailRun => t.outcome == env.failRun
  }

  /** The events of one call: it starts, and then every step of the date's process is taken with
      the environment's answer and leads on. */
  ghost predicate Follows(s: System, events: seq<Event>, d: Date, env: Environment) {
    events == [] ||
      var before, e := events[..|events| - 1], events[|events| - 1];
      && Follows(s, before, d, env)
      && if before == [] then e == Start(d)
         else e.Advance? && e.date == d && Fits(At(Run(s, before), d), e.turn, env) && Next(Run(s, before), e) != Run(s, before)
  }

  datatype Result = Closed | NothingToPost | Refused

  class Service {
    const db: Database
    var journals: map<nat, RemoteJournal>
    var uploads: map<nat, RemoteUpload>
    ghost var machine: System
    ghost var trace: seq<Event>
    ghost var start: System
    ghost var call: seq<Event>

    constructor (payloadNotNull: bool)
      ensures Valid() && fresh(db) && forall d :: At(machine, d).Idle?
    {
      db := new Database(payloadNotNull);
      journals, uploads := map[], map[];
      new;
      machine, trace := Init(payloadNotNull), [];
      start, call := machine, [];
    }

    ghost predicate Valid()
      reads this, db
    {
      && machine.db == db.Content() && machine.remote == Remote(journals, uploads)
      && machine == Run(Init(db.payloadNotNull), trace)
    }

    /** In the middle of a call for the date. */
    ghost predicate InCall(d: Date, env: Environment)
      reads this`machine, this`start, this`call
    {
      call != [] && machine == Run(start, call) && Follows(start, call, d, env)
    }

    /** Where the call was before its latest step. */
    ghost function LastPhase(d: Date): Proc
      reads this`start, this`call
      requires call != []
    {
      At(Run(start, call[..|call| - 1]), d)
    }

    ghost method Began(d: Date, env: Environment)
      requires machine == Run(Init(db.payloadNotNull), trace) && At(machine, d).Idle?
      modifies this`machine, this`trace, this`start, this`call
      ensures machine == Next(old(machine), Start(d)) && machine == Run(Init(db.payloadNotNull), trace)
      ensures start == old(machine) && InCall(d, env)
    {
      assert (trace + [Start(d)])[..|trace|] == trace;
      start, call := machine, [Start(d)];
      assert call[..0] == [];
      machine, trace := Next(machine, Start(d)), trace + [Start(d)];
    }

    ghost method Took(d: Date, t: Turn, env: Environment)
      requires machine == Run(Init(db.payloadNotNull), trace) && InCall(d, env)
      requires Fits(At(machine, d), t, env) && Step(machine, d, t) != machine
      modifies this`machine, this`trace, this`call
      ensures machine == Step(old(machine), d, t) && machine == Run(Init(db.payloadNotNull), trace) && InCall(d, env)
      ensures LastPhase(d) == old(At(machine, d))
    {
      var e := Advance(d, t);
      assert (trace + [e])[..|trace|] == trace && (call + [e])[..|call|] == call;
      machine, trace, call := Next(machine, e), trace + [e], call + [e];
    }

    // -------------------------------------------------------------------------
    // Reading facts
    // -------------------------------------------------------------------------

    method ListPendingAccountingFacts(d: Date) returns (facts: seq<Fact>)
      requires Valid()
      ensures Lists(facts, db.facts, PendingIds(db.Content(), d))
      ensures forall f :: f in facts <==>
        && f.id in db.facts && db.facts[f.id] == f && f.date == d
        && (f.status == FactStatus.Pending || f.status == NeedsReview || f.status == Batched)
      ensures forall i, j :: 0 <= i < j < |facts| ==> facts[i].id != facts[j].id
    {
      FactsKnowTheirIds(machine, db.payloadNotNull, trace);
      hide Run, Init, InCall, Follows, LastPhase;
      facts := db.ListFacts(PendingIds(db.Content(), d));
      forall id | id in PendingIds(db.Content(), d) ensures db.facts[id] in facts {
        assert id in IdsOf(facts);
      }
      forall f | f in facts ensures f.id in PendingIds(db.Content(), d) { assert f.id in IdsOf(facts); }
    }

    /** No stored fact of the date is pending, in review or batched. */
    ghost predicate NothingPending(d: Date)
      reads db
    {
      forall id :: id in db.facts && db.facts[id].date == d ==>
        db.facts[id].status != FactStatus.Pending && db.facts[id].status != NeedsReview && db.facts[id].status != Batched
    }

    lemma NoneListed(d: Date, listed: seq<Fact>)
      requires Lists(listed, db.facts, PendingIds(db.Content(), d))
      ensures listed == [] <==> NothingPending(d)
    {
      if listed == [] {
        assert IdsOf(listed) == {};
        forall id | id in db.facts && db.facts[id].date == d
          ensures db.facts[id].status != FactStatus.Pending && db.facts[id].status != NeedsReview && db.facts[id].status != Batched
        {
          assert id !in PendingIds(db.Content(), d);
        }
      } else {
        assert listed[0].id in IdsOf(listed);
      }
    }

    method ListFactsByRun(d: Date) returns (facts: seq<Fact>)
      requires Valid()
      ensures Lists(facts, db.facts, Attached(db.Content(), d))
    {
      FactsKnowTheirIds(machine, db.payloadNotNull, trace);
      AttachedAreThere(db.payloadNotNull, trace, d);
      hide Run, Init, InCall, Follows, LastPhase;
      facts := db.ListFacts(Attached(db.Content(), d));
    }

    method CollectFactIds(facts: seq<Fact>) returns (ids: seq<nat>)
      ensures ToSet(ids) == IdsOf(facts)
    {
      ids := [];
      for i := 0 to |facts|
        invariant ToSet(ids) == IdsOf(facts[..i])
      {
        assert facts[..i + 1] == facts[..i] + [facts[i]];
        assert IdsOf(facts[..i + 1]) == IdsOf(facts[..i]) + {facts[i].id};
        assert ToSet(ids + [facts[i].id]) == ToSet(ids) + {facts[i].id};
        ids := ids + [facts[i].id];
      }
      assert facts[..|facts|] == facts;
    }

    method ValidateFactsForPosting(facts: seq<Fact>, autoPost: bool) returns (ok: bool)
      ensures ok <==>
        || (forall f :: f in facts ==> f.status != NeedsReview)
        || (autoPost && forall f :: f in facts && f.status == NeedsReview ==> f.amount != 0)
      ensures ok <==> ValidForPosting(facts, autoPost)
    {
      var reviewed := false;
      for i := 0 to |facts|
        invariant reviewed <==> exists f :: f in facts[..i] && f.status.NeedsReview?
        invariant forall f :: f in facts[..i] && f.status.NeedsReview? ==> f.amount != 0
      {
        assert facts[..i + 1] == facts[..i] + [facts[i]];
        assert facts[i] in facts[..i + 1];
        if facts[i].status != NeedsReview { continue; }
        reviewed := true;
        if facts[i].amount == 0 {
          assert facts[i] in facts;
          return false;
        }
      }
      assert facts[..|facts|] == facts;
      return !(reviewed && !autoPost);
    }

    // -------------------------------------------------------------------------
    // The remote side
    // -------------------------------------------------------------------------

    method ListJournalEntries(d: Date) returns (page: seq<Listed>)
      ensures forall e :: e in page <==> e.id in journals && journals[e.id] == e.journal && e.journal.date == d
    {
      page := [];
      var rest := journals.Keys;
      while rest != {}
        invariant rest <= journals.Keys
        invariant forall e :: e in page <==> e.id in journals && e.id !in rest && journals[e.id] == e.journal && e.journal.date == d
        decreases rest
      {
        var id :| id in rest;
        if journals[id].date == d { page := page + [Listed(id, journals[id])]; }
        rest := rest - {id};
      }
    }

    method ListUploads(entry: nat) returns (page: seq<ListedUpload>)
      ensures forall u :: u in page <==> u.id in uploads && uploads[u.id] == u.upload && u.upload.entry == entry
    {
      page := [];
      var rest := uploads.Keys;
      while rest != {}
        invariant rest <= uploads.Keys
        invariant forall u :: u in page <==> u.id in uploads && u.id !in rest && uploads[u.id] == u.upload && u.upload.entry == entry
        decreases rest
      {
        var id :| id in rest;
        if uploads[id].entry == entry { page := page + [ListedUpload(id, uploads[id])]; }
        rest := rest - {id};
      }
    }

    method LookUpJournal(d: Date, items: seq<JournalItem>) returns (found: Option<nat>)
      ensures JournalLookup(Remote(journals, uploads), Wanted(d, items), found)
    {
      var page := ListJournalEntries(d);
      found := FindMatchingJournalEntry(Wanted(d, items), page);
      if found.None? {
        forall e | e in journals ensures !SameEntry(journals[e], Wanted(d, items)) {
          if journals[e].date == d { assert Listed(e, journals[e]) in page; }
        }
      }
    }

    method LookUpUpload(entry: nat, description: string) returns (found: Option<nat>)
      ensures UploadLookup(Remote(journals, uploads), RemoteUpload(entry, description), found)
    {
      var page := ListUploads(entry);
      found := FindUploadByJournalEntryAndDescription(entry, description, page);
      if found.None? {
        forall u | u in uploads ensures uploads[u] != RemoteUpload(entry, description) {
          if uploads[u].entry == entry { assert ListedUpload(u, uploads[u]) in page; }
        }
      }
    }

    /** ensureRemoteUpload, called by a close or by the resuming of one. */
    method EnsureRemoteUpload(d: Date, row: JournalRow, ghost ids: set<nat>, description: string, ghost resuming: bool,
                              env: Environment, find: Outcome, upload: Outcome, newId: nat)
      returns (uploadId: Option<nat>)
      requires Valid() && InCall(d, env) && newId !in uploads
      requires At(machine, d) == if resuming then ResumeFindUpload(row, ids) else FindUpload(row, ids)
      requires description == if resuming then ResumeDescription(row) else CloseDescription(d)
      requires find == (if resuming then env.resumeFindUpload else env.findUpload)
      requires upload == (if resuming then env.resumeUpload else env.upload)
      requires newId == (if resuming then env.resumeUploadId else env.uploadId)
      modifies this`uploads, this`machine, this`trace, this`call
      ensures Valid() && InCall(d, env)
      ensures At(machine, d) ==
        match uploadId
        case None => if resuming then Idle else FailRun
        case Some(u) =>
          if resuming then ResumeCommit(row.(upload := Some(u)), ids) else CommitUpload(row.(upload := Some(u)), ids)
      ensures LastPhase(d).ResumeFindUpload? || LastPhase(d).ResumeUpload? || LastPhase(d).FindUpload? || LastPhase(d).Upload?
      ensures machine.log.issued == old(machine.log.issued)
      ensures uploads.Keys <= old(uploads.Keys) + {newId}
    {
      hide Run, Init, InCall, Follows, LastPhase, UploadLookup, ResumeDescription, CloseDescription;
      var found := LookUpUpload(row.entry, description);
      Took(d, env.Turn(find).(found := found), env);
      if find != Done { return None; }
      if found.Some? { return found; }
      if upload != Aborted { uploads := uploads[newId := RemoteUpload(row.entry, description)]; }
      Took(d, env.Turn(upload).(id := newId), env);
      return if upload == Done then Some(newId) else None;
    }

    /** ensureRemoteJournal. */
    method EnsureRemoteJournal(d: Date, ghost draft: Draft, items: seq<JournalItem>,
                               env: Environment) returns (entry: Option<nat>)
      requires Valid() && InCall(d, env) && env.journalId !in journals && items == draft.items
      requires At(machine, d) == FindJournal(draft)
      modifies this`journals, this`machine, this`trace, this`call
      ensures Valid() && InCall(d, env)
      ensures At(machine, d) == match entry case None => FailRun case Some(e) => CommitJournal(draft, e)
    {
      hide Run, Init, InCall, Follows, LastPhase, JournalLookup, Wanted;
      var found := LookUpJournal(d, items);
      Took(d, env.Turn(env.findJournal).(found := found), env);
      if env.findJournal != Done { return None; }
      if found.Some? { return found; }
      if env.createJournal != Aborted { journals := journals[env.journalId := Wanted(d, items)]; }
      Took(d, env.Turn(env.createJournal).(id := env.journalId), env);
      return if env.createJournal == Done then Some(env.journalId) else None;
    }

    // -------------------------------------------------------------------------
    // Finishing a half-done upload
    // -------------------------------------------------------------------------

    /** Lists and aggregates what was booked; None if the listing or the aggregation fails. */
    method ListBooked(d: Date, row: JournalRow, env: Environment) returns (facts: Option<seq<Fact>>)
      requires Valid() && InCall(d, env) && At(machine, d) == ResumeListFacts(row)
      modifies this`machine, this`trace, this`call
      ensures Valid() && InCall(d, env) && At(machine, d) == match facts case None => Idle case Some(f) => ResumeFindUpload(row, IdsOf(f))
      ensures LastPhase(d).ResumeListFacts?
      ensures machine.log.issued == old(machine.log.issued)
    {
      hide Run, Init, InCall, Follows, LastPhase, Aggregate, Lists, Attached, IdsOf;
      var listed := ListFactsByRun(d);
      var aggregation := AggregateJournalItems(listed, env.config.roundingAccount, env.config.tolerance, 0);
      Took(d, env.Turn(env.resumeListFacts).(listing := listed), env);
      return if env.resumeListFacts != Done || aggregation.Unbalanced? then None else Some(listed);
    }

    method CommitResumed(d: Date, row: JournalRow, facts: seq<Fact>, env: Environment) returns (ok: bool)
      requires Valid() && InCall(d, env) && At(machine, d) == ResumeCommit(row, IdsOf(facts))
      modifies this`machine, this`trace, this`call, db
      ensures Valid() && InCall(d, env) && At(machine, d) == if ok then ListPending else Idle
      ensures ok ==> d in db.runs && db.runs[d] == Completed
      ensures LastPhase(d).ResumeCommit?
      ensures machine.log.issued == old(machine.log.issued)
    {
      hide Run, Init, InCall, Follows, LastPhase, IdsOf, CommitUploadTx;
      var ids := CollectFactIds(facts);
      ghost var before := db.Content();
      ok := db.CommitUpload(d, ids, row, env.resumeCommit);
      if ok {
        UploadNeedsRun(before, d, ToSet(ids), row);
        CompletedByCommit(before, d, ToSet(ids), row);
      }
      Took(d, env.Turn(env.resumeCommit), env);
    }

    method FinishUpload(d: Date, row: JournalRow, env: Environment) returns (ok: bool)
      requires Valid() && InCall(d, env) && At(machine, d) == ResumeListFacts(row) && env.resumeUploadId !in uploads
      modifies this`uploads, this`machine, this`trace, this`call, db
      ensures Valid() && InCall(d, env) && At(machine, d) == if ok then ListPending else Idle
      ensures ok ==> d in db.runs && db.runs[d] == Completed
      ensures !ok ==> !LastPhase(d).CommitUpload? && !LastPhase(d).ListPending?
      ensures machine.log.issued == old(machine.log.issued)
      ensures uploads.Keys <= old(uploads.Keys) + {env.resumeUploadId}
    {
      hide Run, Init, InCall, Follows, LastPhase, IdsOf, ResumeDescription;
      var facts := ListBooked(d, row, env);
      if facts.None? { return false; }
      var upload := EnsureRemoteUpload(d, row, IdsOf(facts.value), ResumeDescription(row), true, env,
                                       env.resumeFindUpload, env.resumeUpload, env.resumeUploadId);
      if upload.None? { return false; }
      ok := CommitResumed(d, row.(upload := upload), facts.value, env);
    }

    method ResumeUploadIfNeeded(d: Date, env: Environment) returns (ok: bool)
      requires Valid() && InCall(d, env) && At(machine, d) == ResumeReadRun && env.resumeUploadId !in uploads
      modifies this`uploads, this`machine, this`trace, this`call, db
      ensures Valid() && InCall(d, env) && At(machine, d) == if ok then ListPending else Idle
      ensures !ok ==> !LastPhase(d).CommitUpload? && !LastPhase(d).ListPending?
      ensures machine.log.issued == old(machine.log.issued)
      ensures uploads.Keys <= old(uploads.Keys) + {env.resumeUploadId}
    {
      hide Run, Init, InCall, Follows, LastPhase;
      Took(d, env.Turn(env.resumeReadRun), env);
      if env.resumeReadRun != Done { return false; }
      if d !in db.runs { return true; }
      var status := db.runs[d];
      if status != JournalCreated && status != UploadCreated && status != RunFailed { return true; }
      Took(d, env.Turn(env.resumeReadJournal), env);
      if env.resumeReadJournal != Done { return false; }
      if d !in db.journals { return true; }
      var row := db.journals[d];
      if row.upload.Some? { return true; }
      ok := FinishUpload(d, row, env);
    }

    // -------------------------------------------------------------------------
    // Claiming the run
    // -------------------------------------------------------------------------

    method EnsurePostingRun(d: Date, ghost facts: seq<Fact>, env: Environment) returns (ok: bool)
      requires Valid() && InCall(d, env) && At(machine, d) == ReadRun(facts)
      modifies this`machine, this`trace, this`call, db
      ensures Valid() && InCall(d, env) && At(machine, d) == if ok then Prepare(facts) else Idle
      ensures !ok ==> !LastPhase(d).CommitUpload? && !LastPhase(d).ListPending?
      ensures machine.log.issued == old(machine.log.issued)
    {
      hide Run, Init, InCall, Follows, LastPhase;
      Took(d, env.Turn(env.readRun), env);
      if env.readRun != Done { return false; }
      if d !in db.runs {
        if env.createRun != Aborted { var created := db.CreatePostingRun(d); }
        Took(d, env.Turn(env.createRun), env);
        return env.createRun == Done;
      }
      match db.runs[d] {
        case Completed => return false;
        case JournalCreated => return true;
        case UploadCreated => return true;
        case RunFailed =>
          Took(d, env.Turn(env.readJournal), env);
          if env.readJournal != Done { return false; }
          if d in db.journals { return true; }
          if env.resetRun != Aborted { db.UpdatePostingRun(d, Started); }
          Took(d, env.Turn(env.resetRun), env);
          return env.resetRun == Done;
        case Started => return false;
      }
    }

    method FailPostingRun(d: Date, env: Environment)
      requires Valid() && InCall(d, env) && At(machine, d) == FailRun
      modifies this`machine, this`trace, this`call, db
      ensures Valid() && InCall(d, env) && At(machine, d).Idle? && LastPhase(d).FailRun?
    {
      hide Run, Init, InCall, Follows, LastPhase;
      if env.failRun != Aborted { db.UpdatePostingRun(d, RunFailed); }
      Took(d, env.Turn(env.failRun), env);
    }

    // -------------------------------------------------------------------------
    // The close
    // -------------------------------------------------------------------------

    /** Account plan, fiscal year, aggregation, tax cases and PDF: the draft, or a failed run. */
    method PrepareDraft(d: Date, facts: seq<Fact>, env: Environment) returns (draft: Option<Draft>)
      requires Valid() && InCall(d, env) && At(machine, d) == Prepare(facts) && env.roundingId !in machine.log.issued
      modifies this`machine, this`trace, this`call, db
      ensures Valid() && InCall(d, env)
      ensures At(machine, d) == match draft case None => Idle case Some(x) => FindJournal(x)
      ensures LastPhase(d).Prepare? || LastPhase(d).FailRun?
      ensures draft.Some? && draft.value.rounding.Some? ==>
        var r := draft.value.rounding.value;
        && r.group == r.factType == "rounding" && r.objectType == "system" && r.objectId == "rounding"
        && r.account == env.config.roundingAccount && r.status == FactStatus.Pending && r.taxCase == None && r.payload == None
    {
      hide Run, Init, InCall, Follows, LastPhase, Aggregate;
      var aggregation := AggregateJournalItems(facts, env.config.roundingAccount, env.config.tolerance, env.roundingId);
      AggregateBalances(facts, env.config.roundingAccount, env.config.tolerance, env.roundingId);
      Took(d, env.Turn(env.prepare).(id := env.roundingId), env);
      if env.prepare != Done || aggregation.Unbalanced? {
        FailPostingRun(d, env);
        return None;
      }
      var rounding := None;
      var all := facts;
      if aggregation.rounding.Some? {
        var r := aggregation.rounding.value.(objectType := "system", objectId := "rounding", status := Pending);
        rounding := Some(r);
        all := facts + [r];
      }
      return Some(Draft(all, rounding, aggregation.items));
    }

    /** From the stored journal row to the completed run. */
    method AttachAndComplete(d: Date, row: JournalRow, ids: seq<nat>, env: Environment) returns (ok: bool)
      requires Valid() && InCall(d, env) && At(machine, d) == FindUpload(row, ToSet(ids)) && env.uploadId !in uploads
      modifies this`uploads, this`machine, this`trace, this`call, db
      ensures Valid() && InCall(d, env) && At(machine, d).Idle?
      ensures ok ==> d in db.runs && db.runs[d] == Completed
      ensures !LastPhase(d).ListPending? && (ok <==> LastPhase(d).CommitUpload? && env.commitUpload.Done?)
    {
      hide Run, Init, InCall, Follows, LastPhase, CloseDescription, ToSet, CommitUploadTx;
      RunIsThere(db.payloadNotNull, trace, d);
      var upload := EnsureRemoteUpload(d, row, ToSet(ids), CloseDescription(d), false, env, env.findUpload, env.upload, env.uploadId);
      if upload.None? {
        FailPostingRun(d, env);
        return false;
      }
      ghost var before := db.Content();
      ok := db.CommitUpload(d, ids, row.(upload := upload), env.commitUpload);
      CompletedByCommit(before, d, ToSet(ids), row.(upload := upload));
      Took(d, env.Turn(env.commitUpload), env);
    }

    /** Transaction 1. */
    method CommitJournalRow(d: Date, draft: Draft, entry: nat, ids: seq<nat>,
                            env: Environment) returns (row: Option<JournalRow>)
      requires Valid() && InCall(d, env) && At(machine, d) == CommitJournal(draft, entry) && ToSet(ids) == IdsOf(draft.facts)
      modifies this`machine, this`trace, this`call, db
      ensures Valid() && InCall(d, env)
      ensures At(machine, d) == match row case None => Idle case Some(r) => FindUpload(r, ToSet(ids))
      ensures LastPhase(d).CommitJournal?
    {
      hide Run, Init, InCall, Follows, LastPhase, CommitJournalTx, Title, ToSet, IdsOf;
      var record := JournalRow(entry, None, Title(d), d);
      var committed := db.CommitJournal(d, ids, draft.rounding, record, env.commitJournal);
      Took(d, env.Turn(env.commitJournal), env);
      return if committed then Some(record) else None;
    }

    method PostFacts(d: Date, facts: seq<Fact>, env: Environment) returns (ok: bool)
      requires Valid() && InCall(d, env) && At(machine, d) == Prepare(facts) && env.roundingId !in machine.log.issued
      requires env.journalId !in journals && env.uploadId !in uploads
      modifies this`journals, this`uploads, this`machine, this`trace, this`call, db
      ensures Valid() && InCall(d, env) && At(machine, d).Idle?
      ensures ok ==> d in db.runs && db.runs[d] == Completed
      ensures !LastPhase(d).ListPending? && (ok <==> LastPhase(d).CommitUpload? && env.commitUpload.Done?)
    {
      hide Run, Init, InCall, Follows, LastPhase, ToSet, IdsOf;
      var draft := PrepareDraft(d, facts, env);
      if draft.None? { return false; }
      var ids := CollectFactIds(draft.value.facts);
      var entry := EnsureRemoteJournal(d, draft.value, draft.value.items, env);
      if entry.None? {
        FailPostingRun(d, env);
        return false;
      }
      var row := CommitJournalRow(d, draft.value, entry.value, ids, env);
      if row.None? { return false; }
      ok := AttachAndComplete(d, row.value, ids, env);
    }

    /** The facts to post; None if there are none, or they may not be posted. */
    method ListPostable(d: Date, env: Environment) returns (facts: Option<seq<Fact>>, r: Result)
      requires Valid() && InCall(d, env) && At(machine, d) == ListPending
      modifies this`machine, this`trace, this`call
      ensures Valid() && InCall(d, env) && At(machine, d) == match facts case None => Idle case Some(f) => ReadRun(f)
      ensures machine.log == old(machine.log) && !r.Closed?
      ensures facts.None? ==> LastPhase(d).ListPending?
      ensures facts.None? && r.NothingToPost? <==> env.listPending.Done? && NothingPending(d)
    {
      hide Run, Init, InCall, Follows, LastPhase, Lists, PendingIds, ValidForPosting, NothingPending;
      var listed := ListPendingAccountingFacts(d);
      NoneListed(d, listed);
      var valid := ValidateFactsForPosting(listed, env.config.autoPost);
      Took(d, env.Turn(env.listPending).(listing := listed), env);
      if env.listPending != Done { return None, Refused; }
      if |listed| == 0 { return None, NothingToPost; }
      if !valid { return None, Refused; }
      return Some(listed), Refused;
    }

    /** One close of one date, the date's lock being held. Whatever the environment answers, it
        takes exactly the steps of the machine, and only ends where the machine is done. */
    method RunDailyClose(d: Date, env: Environment) returns (r: Result)
      requires Valid() && At(machine, d).Idle?
      requires env.roundingId !in machine.log.issued && env.journalId !in journals
      requires env.uploadId !in uploads && env.resumeUploadId !in uploads && env.uploadId != env.resumeUploadId
      modifies this, db
      ensures Valid() && At(machine, d).Idle?
      ensures start == old(machine) && InCall(d, env)
      ensures r.Closed? ==> d in db.runs && db.runs[d] == Completed
      ensures r.Closed? <==> LastPhase(d).CommitUpload? && env.commitUpload.Done?
      ensures r.NothingToPost? <==> LastPhase(d).ListPending? && env.listPending.Done? && NothingPending(d)
    {
      hide Run, Init, InCall, Follows, LastPhase, Step, NothingPending;
      Began(d, env);
      var resumed := ResumeUploadIfNeeded(d, env);
      if !resumed { return Refused; }
      var facts, answer := ListPostable(d, env);
      if facts.None? { return answer; }
      var claimed := EnsurePostingRun(d, facts.value, env);
      if !claimed { return Refused; }
      var ok := PostFacts(d, facts.value, env);
      return if ok then Closed else Refused;
    }
  }

  lemma FactsKnowTheirIds(s: System, payloadNotNull: bool, trace: seq<Event>)
    requires s == Run(Init(payloadNotNull), trace)
    ensures forall id :: id in s.db.facts ==> s.db.facts[id].id == id
  {
    var s' := ReachableHolds(payloadNotNull, trace);
    forall id | id in s.db.facts ensures s.db.facts[id].id == id { assert FactInv(s, id); }
  }

  lemma UploadNeedsRun(db: Db, d: Date, ids: set<nat>, row: JournalRow)
    requires CommitUploadTx(db, d, ids, row).Some?
    ensures d in db.runs
  {}

  lemma CompletedByCommit(db: Db, d: Date, ids: set<nat>, row: JournalRow)
    requires d in db.runs
    ensures CommitUploadTx(db, d, ids, row).Some?
    ensures var runs := CommitUploadTx(db, d, ids, row).value.runs; d in runs && runs[d] == Completed
  {}

  lemma AttachedAreThere(payloadNotNull: bool, trace: seq<Event>, d: Date)
    ensures var s := Run(Init(payloadNotNull), trace); Attached(s.db, d) <= s.db.facts.Keys
  {
    var s := ReachableHolds(payloadNotNull, trace);
    assert DateInv(s, d);
  }

  lemma RunIsThere(payloadNotNull: bool, trace: seq<Event>, d: Date)
    ensures var s := Run(Init(payloadNotNull), trace); At(s, d).FindUpload? ==> d in s.db.runs
  {
    var s := ReachableHolds(payloadNotNull, trace);
    assert DateInv(s, d);
  }
}
