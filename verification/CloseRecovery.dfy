/** What a close can and cannot recover from. */
module CloseRecovery {
  import opened Grouping
  import opened Ledger
  import opened Journal
  import opened Bokio
  import opened Store
  import opened StoreLaws
  import opened Close
  import opened CloseInvariant
  import opened CloseSteps
  import opened CloseTheorems

  // ---------------------------------------------------------------------------
  // A half-done date is finished by one fault-free call
  // ---------------------------------------------------------------------------

  /** How many steps the resuming part of a call may still take. */
  function Remaining(p: Proc): nat {
    match p
    case ResumeReadRun => 6
    case ResumeReadJournal => 5
    case ResumeListFacts(_) => 4
    case ResumeFindUpload(_, _) => 3
    case ResumeUpload(_, _) => 2
    case ResumeCommit(_, _) => 1
    case _ => 0
  }

  predicate OwnStep(e: Event, d: Date) { e.Advance? && e.date == d }

  /** The date's own steps succeed and get an answer that fits the state. Everything else may
      happen in between, except a crash of this very call. */
  predicate FaultFreeEvent(s: System, e: Event, d: Date) {
    && (e == Crash(d) ==> IsCompleted(s, d))
    && (OwnStep(e, d) ==> IsCompleted(s, d) || (e.turn.outcome.Done? && Next(s, e) != s))
  }

  predicate FaultFree(s: System, events: seq<Event>, d: Date) {
    events == [] ||
      (FaultFree(s, events[..|events| - 1], d) && FaultFreeEvent(Run(s, events[..|events| - 1]), events[|events| - 1], d))
  }

  function OwnSteps(events: seq<Event>, d: Date): nat {
    if events == [] then 0
    else OwnSteps(events[..|events| - 1], d) + if OwnStep(events[|events| - 1], d) then 1 else 0
  }

  ghost predicate Recovering(s: System, d: Date, ids: set<nat>) {
    && d in s.db.journals && Attached(s.db, d) == ids
    && (IsCompleted(s, d) || (Remaining(At(s, d)) > 0 && HalfDone(s, d, s.db.journals[d])))
  }

  lemma OwnProgress(s: System, d: Date, t: Turn, ids: set<nat>)
    requires Inv(s) && Recovering(s, d, ids) && !IsCompleted(s, d)
    requires t.outcome.Done? && Step(s, d, t) != s
    ensures Recovering(Step(s, d, t), d, ids)
    ensures IsCompleted(Step(s, d, t), d) || Remaining(At(Step(s, d, t), d)) < Remaining(At(s, d))
  {
    assert DateInv(s, d);
    if At(s, d).ResumeListFacts? {
      AttachedReaggregate(s, d, t.listing, t.config.roundingAccount, t.config.tolerance, t.id);
    }
  }

  lemma OthersDoNotHinder(s: System, e: Event, d: Date, ids: set<nat>)
    requires Inv(s) && Recovering(s, d, ids) && !IsCompleted(s, d)
    requires !OwnStep(e, d) && e != Crash(d)
    ensures Recovering(Next(s, e), d, ids) && At(Next(s, e), d) == At(s, d)
  {
    match e
    case Advance(d', t) => StepKeeps(s, d', t); assert Undisturbed(s, Step(s, d', t), d);
    case Webhook(facts) =>
      if StepWebhook(s, facts) != s { WebhookUndisturbed(s, facts, StepWebhook(s, facts), d); }
    case _ =>
  }

  lemma {:induction false} RecoveryProgress(s: System, events: seq<Event>, d: Date, ids: set<nat>)
    requires Inv(s) && Recovering(s, d, ids) && FaultFree(s, events, d)
    ensures var s' := Run(s, events);
      && Recovering(s', d, ids)
      && (IsCompleted(s', d) || Remaining(At(s', d)) + OwnSteps(events, d) <= Remaining(At(s, d)))
  {
    if events != [] {
      var front, e := events[..|events| - 1], events[|events| - 1];
      RecoveryProgress(s, front, d, ids);
      RunKeeps(s, front);
      var mid := Run(s, front);
      if IsCompleted(mid, d) { CompletedStep(mid, e, d); }
      else if OwnStep(e, d) { OwnProgress(mid, d, e.turn, ids); }
      else { OthersDoNotHinder(mid, e, d, ids); }
    }
  }

  /** Recovery. Take any reachable state in which the date has a journal without attachment
      (its run is journal_created, or failed with a journal row) and a call has just taken
      the lock. After at most six fault-free steps of that call, with anything else happening
      in between and whatever the rounding account and tolerance are now, the run is
      completed and every attached fact is posted. */
  lemma Recovery(payloadNotNull: bool, before: seq<Event>, after: seq<Event>, d: Date)
    requires var s := Run(Init(payloadNotNull), before);
      d in s.db.journals && HalfDone(s, d, s.db.journals[d]) && At(s, d).ResumeReadRun?
    requires FaultFree(Run(Init(payloadNotNull), before), after, d) && OwnSteps(after, d) >= 6
    ensures var s, s' := Run(Init(payloadNotNull), before), Run(Init(payloadNotNull), before + after);
      && IsCompleted(s', d)
      && d in s'.db.journals && s'.db.journals[d].upload.Some? && s'.db.journals[d].entry == s.db.journals[d].entry
      && Attached(s'.db, d) == Attached(s.db, d)
      && forall id :: id in Attached(s.db, d) ==> id in s'.db.facts && s'.db.facts[id].status == Posted
  {
    var s := ReachableHolds(payloadNotNull, before);
    RunConcat(Init(payloadNotNull), before, after);
    RecoveryProgress(s, after, d, Attached(s.db, d));
    RunKeeps(s, after);
    var s' := Run(s, after);
    assert DateInv(s', d);
    EntryKept(s, after, d);
  }

  /** Only three steps write a journal row. */
  predicate WritesRow(p: Proc) { p.CommitJournal? || p.ResumeCommit? || p.CommitUpload? }

  lemma NoRowWritten(s: System, d: Date, t: Turn)
    requires !WritesRow(At(s, d))
    ensures Step(s, d, t).db.journals == s.db.journals
  {
    hide Aggregate, Lists, PendingIds, UploadLookup, JournalLookup, ValidForPosting;
    if At(s, d).CreateRun? || At(s, d).ResetRun? || At(s, d).FailRun? {
    } else if At(s, d).Prepare? {
    } else {
      assert Step(s, d, t).db == s.db;
    }
  }

  lemma RowWritten(s: System, d: Date, t: Turn)
    requires d in s.db.journals && (At(s, d).ResumeCommit? || At(s, d).CommitUpload?)
    ensures d in Step(s, d, t).db.journals && Step(s, d, t).db.journals[d] in {s.db.journals[d], At(s, d).row}
  {
    hide MarkStatus;
  }

  lemma RowToWrite(s: System, d: Date)
    requires ProcInv(s, d) && d in s.db.journals && WritesRow(At(s, d))
    ensures !At(s, d).CommitJournal? && At(s, d).row.entry == s.db.journals[d].entry
  {
    hide DraftInv, HasUpload, SameEntry;
  }

  lemma EntryKeptByStep(s: System, e: Event, d: Date)
    requires Inv(s) && d in s.db.journals
    ensures d in Next(s, e).db.journals && Next(s, e).db.journals[d].entry == s.db.journals[d].entry
  {
    hide Step, ProcInv, Undisturbed, FactsInv, RemoteInv;
    assert DateInv(s, d);
    match e
    case Advance(d', t) =>
      if d' == d {
        if WritesRow(At(s, d)) {
          RowToWrite(s, d);
          RowWritten(s, d, t);
        } else {
          NoRowWritten(s, d, t);
        }
      } else {
        StepKeeps(s, d', t);
        RowUndisturbed(s, Step(s, d', t), d);
      }
    case _ =>
  }

  lemma RowUndisturbed(s: System, s': System, d: Date)
    requires Undisturbed(s, s', d) && d in s.db.journals
    ensures d in s'.db.journals && s'.db.journals[d] == s.db.journals[d]
  {}

  /** A stored journal row never changes the remote journal it names. */
  lemma {:induction false} EntryKept(s: System, events: seq<Event>, d: Date)
    requires Inv(s) && d in s.db.journals
    ensures d in Run(s, events).db.journals && Run(s, events).db.journals[d].entry == s.db.journals[d].entry
  {
    if events != [] {
      EntryKept(s, events[..|events| - 1], d);
      RunKeeps(s, events[..|events| - 1]);
      EntryKeptByStep(Run(s, events[..|events| - 1]), events[|events| - 1], d);
    }
  }

  // ---------------------------------------------------------------------------
  // A started run is never taken up again
  // ---------------------------------------------------------------------------

  /** The run is started and no close holds it. */
  predicate Abandoned(s: System, d: Date) {
    && d in s.db.runs && s.db.runs[d].Started?
    && (At(s, d).Idle? || At(s, d).ResumeReadRun? || At(s, d).ListPending? || At(s, d).ReadRun?)
  }

  ghost predicate NothingMade(s: System, s': System, d: Date) {
    forall x :: MadeOn(s', x, d) ==> MadeOn(s, x, d)
  }

  lemma AbandonedStep(s: System, e: Event, d: Date)
    requires Inv(s) && Abandoned(s, d)
    ensures Abandoned(Next(s, e), d) && NothingMade(s, Next(s, e), d)
  {
    assert DateInv(s, d);
    match e
    case Advance(d', t) => if d' != d { StepKeeps(s, d', t); assert Undisturbed(s, Step(s, d', t), d); }
    case _ =>
  }

  lemma AbandonedOnce(s: System, mid: System, e: Event, d: Date)
    requires Inv(mid) && Abandoned(mid, d) && NothingMade(s, mid, d)
    ensures Abandoned(Next(mid, e), d) && NothingMade(s, Next(mid, e), d)
  {
    AbandonedStep(mid, e, d);
  }

  /** Once the call that started a run is gone (it crashed, or transaction 1 failed after the
      remote journal was made) the date stays as it is for ever: no later call posts it, and
      no further journal is made for it. */
  lemma {:induction false} StartedIsForever(s: System, events: seq<Event>, d: Date)
    requires Inv(s) && Abandoned(s, d)
    ensures Abandoned(Run(s, events), d) && NothingMade(s, Run(s, events), d)
    ensures d !in Run(s, events).db.journals
  {
    RunKeeps(s, events);
    assert DateInv(Run(s, events), d);
    if events != [] {
      var front := events[..|events| - 1];
      StartedIsForever(s, front, d);
      RunKeeps(s, front);
      AbandonedOnce(s, Run(s, front), events[|events| - 1], d);
    }
  }

  // ---------------------------------------------------------------------------
  // When transaction 1 commits
  // ---------------------------------------------------------------------------

  predicate RoundingGroupLocked(db: Db) {
    exists id :: id in db.facts && db.facts[id].group == "rounding" && Locks(db.facts[id].status)
  }

  /** The exact condition. Without a rounding line it is that no listed fact was replaced
      meanwhile. With one it is also that the payload column accepts nil and that no rounding
      line was ever booked, on any date, because all of them share one source group. */
  lemma JournalTxCondition(s: System, d: Date, draft: Draft, row: JournalRow)
    requires Inv(s) && Claimed(s, d) && DraftInv(s, d, draft)
    requires draft.rounding.Some? ==> draft.rounding.value.id !in s.db.facts
    ensures CommitJournalTx(s.db, d, IdsOf(draft.facts), draft.rounding, row).Some? <==>
      match draft.rounding
      case None => IdsOf(draft.facts) <= s.db.facts.Keys
      case Some(r) =>
        && !s.db.payloadNotNull && !RoundingGroupLocked(s.db)
        && IdsOf(draft.facts) <= s.db.facts.Keys - InGroups(s.db.facts, {"rounding"}) + {r.id}
  {
    hide ItemsOf, Lines, FactsInv, RemoteInv;
    if draft.rounding.Some? {
      var r := draft.rounding.value;
      var ids := InGroups(s.db.facts, {"rounding"});
      assert GroupsOf([r]) == {"rounding"};
      RoundingInsert(s.db.facts - ids, r, s.db.payloadNotNull);
      AttachedAreLocked(s);
      if !RoundingGroupLocked(s.db) {
        assert Replaceable(s.db, ids) by {
          forall d' | d' in s.db.attached ensures s.db.attached[d'] !! ids {
            forall id | id in s.db.attached[d'] ensures id !in ids { assert id in Attached(s.db, d'); }
          }
        }
      }
    }
  }

  lemma AttachedIsLocked(db: Db, id: nat, d: Date)
    requires AttachedInv(db, d) && id in Attached(db, d)
    ensures id in db.facts && Locks(db.facts[id].status)
  {}

  lemma AttachedAreLocked(s: System)
    requires Inv(s)
    ensures forall id, d :: id in Attached(s.db, d) ==> id in s.db.facts && Locks(s.db.facts[id].status)
  {
    forall id, d | id in Attached(s.db, d) ensures id in s.db.facts && Locks(s.db.facts[id].status) {
      assert DateInv(s, d);
      AttachedIsLocked(s.db, id, d);
    }
  }

  lemma RoundingInsert(kept: map<nat, Fact>, r: Fact, payloadNotNull: bool)
    requires r.payload.None? && r.id !in kept
    requires forall id :: id in kept ==> kept[id].group != r.group
    ensures InsertAll(kept, [r], payloadNotNull) == if payloadNotNull then None else Some(kept[r.id := r])
  {
    assert [r][..0] == [];
    assert InsertAll(kept, [], payloadNotNull) == Some(kept);
  }

  /** With the column as the migration declares it, a day that needs a rounding line is sent
      to the remote side but never stored: transaction 1 changes nothing and the call ends. */
  lemma RoundedDayIsNeverStored(payloadNotNull: bool, events: seq<Event>, d: Date, t: Turn)
    requires payloadNotNull
    requires var s := Run(Init(payloadNotNull), events); At(s, d).CommitJournal? && At(s, d).draft.rounding.Some?
    ensures var s := Run(Init(payloadNotNull), events);
      Step(s, d, t) == Goto(s, d, Idle) && Abandoned(Step(s, d, t), d)
  {
    var s := ReachableHolds(payloadNotNull, events);
    assert DateInv(s, d);
    PayloadFixed(payloadNotNull, events);
    var r := At(s, d).draft.rounding.value;
    assert r in [r];
    UpsertCondition(s.db, [r]);
  }

  lemma PayloadFixedByStep(s: System, d: Date, t: Turn)
    ensures Step(s, d, t).db.payloadNotNull == s.db.payloadNotNull
  {
    var p := At(s, d);
    if p.ResumeCommit? || p.CommitJournal? || p.CommitUpload? {
    } else if p.CreateRun? || p.ResetRun? || p.FailRun? {
    } else if p.Prepare? {
    } else {
      assert Step(s, d, t).db == s.db;
    }
  }

  lemma PayloadFixedByEvent(s: System, e: Event)
    ensures Next(s, e).db.payloadNotNull == s.db.payloadNotNull
  {
    if e.Advance? { PayloadFixedByStep(s, e.date, e.turn); }
  }

  lemma {:induction false} PayloadFixed(payloadNotNull: bool, events: seq<Event>)
    ensures Run(Init(payloadNotNull), events).db.payloadNotNull == payloadNotNull
  {
    if events != [] {
      PayloadFixed(payloadNotNull, events[..|events| - 1]);
      PayloadFixedByEvent(Run(Init(payloadNotNull), events[..|events| - 1]), events[|events| - 1]);
    }
  }
}
