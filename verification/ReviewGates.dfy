/** What a fact that needs review holds up. It is posted only with an amount, and only where
    automatic posting is on; until then its date is not closed at all. */
module ReviewGates {
  import opened Grouping
  import opened Ledger
  import opened Journal
  import opened JournalLaws
  import opened Store
  import opened Close
  import opened CloseInvariant
  import opened CloseSteps
  import opened CloseTheorems
  import opened Service
  import opened FurtherJournals

  /** Facts can be sent if there are some, none of them needs review or all that do may be posted
      automatically and have an amount, and debits and credits differ by no more than the
      tolerance. */
  lemma SendableMeans(listing: seq<Fact>, c: Config)
    ensures Sendable(listing, c) <==>
      && listing != []
      && ((forall f :: f in listing ==> f.status != NeedsReview)
          || (c.autoPost && forall f :: f in listing && f.status == NeedsReview ==> f.amount != 0))
      && (Difference(listing) == 0 || -c.tolerance <= Difference(listing) <= c.tolerance)
  {
    AggregateBalances(listing, c.roundingAccount, c.tolerance, 0);
    hide Aggregate, Difference;
  }

  // ---------------------------------------------------------------------------
  // One call
  // ---------------------------------------------------------------------------

  /** A call that has read at most the run, the journal row and the facts. */
  ghost predicate Turned(s: System, m: System, d: Date) {
    && m == s.(procs := m.procs)
    && (At(m, d).Idle? || At(m, d).ResumeReadRun? || At(m, d).ListPending? || (At(m, d).ResumeReadJournal? && d in s.db.runs))
  }

  lemma TurnedStep(s: System, m: System, d: Date, t: Turn, id: nat)
    requires Turned(s, m, d) && Claimable(s, d)
    requires id in s.db.facts && s.db.facts[id].date == d && s.db.facts[id].status == NeedsReview
    requires !t.config.autoPost || s.db.facts[id].amount == 0
    ensures Turned(s, Step(m, d, t), d)
  {
    if At(m, d).ListPending? && Lists(t.listing, m.db.facts, PendingIds(m.db, d)) {
      assert id in PendingIds(m.db, d) && id in IdsOf(t.listing);
      var f :| f in t.listing && f.id == id;
      assert f == s.db.facts[id];
    }
  }

  /** A date without a run, or whose run failed without a journal row, is not closed while one of
      its facts needs review and either has no amount or may not be posted automatically. Whatever
      the answers to the call, it leaves every table, the remote side and the log as they were. */
  lemma {:induction false} ReviewStopsTheClose(s: System, call: seq<Event>, d: Date, env: Environment, id: nat)
    requires At(s, d).Idle? && Follows(s, call, d, env)
    requires d in s.db.runs ==> s.db.runs[d] == RunFailed && d !in s.db.journals
    requires id in s.db.facts && s.db.facts[id].date == d && s.db.facts[id].status == NeedsReview
    requires !env.config.autoPost || s.db.facts[id].amount == 0
    ensures var s' := Run(s, call); s'.db == s.db && s'.remote == s.remote && s'.log == s.log
  {
    TurnedCall(s, call, d, env, id);
  }

  lemma {:induction false} TurnedCall(s: System, call: seq<Event>, d: Date, env: Environment, id: nat)
    requires At(s, d).Idle? && Follows(s, call, d, env) && Claimable(s, d)
    requires id in s.db.facts && s.db.facts[id].date == d && s.db.facts[id].status == NeedsReview
    requires !env.config.autoPost || s.db.facts[id].amount == 0
    ensures Turned(s, Run(s, call), d)
  {
    hide Step;
    if call != [] {
      var before, e := call[..|call| - 1], call[|call| - 1];
      TurnedCall(s, before, d, env, id);
      if before != [] { TurnedStep(s, Run(s, before), d, e.turn, id); }
    }
  }

  // ---------------------------------------------------------------------------
  // Any run
  // ---------------------------------------------------------------------------

  /** Every close in the run finds automatic posting off. */
  predicate NeverAutoPosts(events: seq<Event>) {
    forall e :: e in events && e.Advance? ==> !e.turn.config.autoPost
  }

  /** The fact may not be posted; `off`: automatic posting is off. */
  predicate Gated(f: Fact, off: bool) { f.status == NeedsReview && (off || f.amount == 0) }

  /** The facts that a close has chosen but not yet batched. */
  function Held(p: Proc): set<nat> {
    match p
    case ReadRun(facts) => IdsOf(facts)
    case CreateRun(facts) => IdsOf(facts)
    case ReadJournal(facts) => IdsOf(facts)
    case ResetRun(facts) => IdsOf(facts)
    case Prepare(facts) => IdsOf(facts)
    case FindJournal(draft) => IdsOf(draft.facts)
    case CreateJournal(draft) => IdsOf(draft.facts)
    case CommitJournal(draft, _) => IdsOf(draft.facts)
    case _ => {}
  }

  /** The fact is stored as `f` or not at all, and no close has chosen it. */
  ghost predicate Apart(s: System, id: nat, f: Fact) {
    && id in s.log.issued && (id in s.db.facts ==> s.db.facts[id] == f)
    && forall d :: id !in Held(At(s, d))
  }

  lemma ApartFromListing(s: System, d: Date, t: Turn, id: nat, f: Fact, off: bool)
    requires Apart(s, id, f) && Gated(f, off) && (off ==> !t.config.autoPost) && At(s, d).ListPending?
    ensures Apart(Step(s, d, t), id, f)
  {
    var s' := Step(s, d, t);
    if At(s', d).ReadRun? {
      forall g | g in t.listing ensures g.id != id {}
    }
    forall d' ensures id !in Held(At(s', d')) {
      if d' != d { assert At(s', d') == At(s, d'); }
    }
  }

  lemma ApartFromDraft(s: System, d: Date, t: Turn, id: nat, f: Fact)
    requires Apart(s, id, f) && At(s, d).Prepare?
    ensures Apart(Step(s, d, t), id, f)
  {
    var s', facts := Step(s, d, t), At(s, d).facts;
    hide Aggregate;
    var r := Aggregate(facts, t.config.roundingAccount, t.config.tolerance, t.id);
    AggregationIsSound(facts, t.config.roundingAccount, t.config.tolerance, t.id);
    assert id !in Held(At(s, d));
    if At(s', d).FindJournal? && At(s', d).draft.rounding.Some? {
      assert At(s', d).draft.facts == facts + [At(s', d).draft.rounding.value];
      assert t.id != id;
    }
    forall d' ensures id !in Held(At(s', d')) {
      if d' != d { assert At(s', d') == At(s, d'); }
    }
  }

  /** The rows of the close of `d` may have changed, but not this one, nor what others have chosen. */
  lemma ApartMoves(s: System, s': System, d: Date, id: nat, f: Fact)
    requires Apart(s, id, f) && s'.log.issued == s.log.issued
    requires id in s'.db.facts ==> id in s.db.facts && s'.db.facts[id] == s.db.facts[id]
    requires s'.procs == s.procs[d := At(s', d)] && Held(At(s', d)) <= Held(At(s, d))
    ensures Apart(s', id, f)
  {
    forall d' ensures id !in Held(At(s', d')) {
      if d' != d { assert At(s', d') == At(s, d'); }
    }
  }

  lemma JournalTxKeeps(db: Db, d: Date, ids: set<nat>, rounding: Option<Fact>, row: JournalRow, id: nat)
    requires CommitJournalTx(db, d, ids, rounding, row).Some? && id !in ids && (rounding.Some? ==> rounding.value.id in ids)
    ensures var facts := CommitJournalTx(db, d, ids, rounding, row).value.facts;
      id in facts ==> id in db.facts && facts[id] == db.facts[id]
  {
    if rounding.Some? {
      InsertAllEffect(db.facts - InGroups(db.facts, GroupsOf([rounding.value])), [rounding.value], db.payloadNotNull);
    }
  }

  function AttemptedJournal(s: System, d: Date): Option<Db>
    requires At(s, d).CommitJournal?
  {
    var p := At(s, d);
    CommitJournalTx(s.db, d, IdsOf(p.draft.facts), p.draft.rounding, JournalRow(p.entry, None, Title(d), d))
  }

  lemma JournalStep(s: System, d: Date, t: Turn)
    requires At(s, d).CommitJournal?
    ensures var s' := Step(s, d, t);
      && s'.log.issued == s.log.issued && s'.procs == s.procs[d := At(s', d)] && Held(At(s', d)) == {}
      && (s'.db == s.db || AttemptedJournal(s, d) == Some(s'.db))
  {
    hide CommitJournalTx, IdsOf, Title;
  }

  lemma UploadStep(s: System, d: Date, t: Turn, id: nat)
    requires At(s, d).ResumeCommit? || At(s, d).CommitUpload?
    requires id !in At(s, d).ids
    ensures var s' := Step(s, d, t);
      && s'.log.issued == s.log.issued && s'.procs == s.procs[d := At(s', d)] && Held(At(s', d)) == {}
      && (id in s'.db.facts ==> id in s.db.facts && s'.db.facts[id] == s.db.facts[id])
  {}

  lemma NotAttached(s: System, d: Date, id: nat, f: Fact)
    requires Inv(s) && Apart(s, id, f) && f.status == NeedsReview
    requires At(s, d).ResumeCommit? || At(s, d).CommitUpload?
    ensures id !in At(s, d).ids
  {
    hide FactsInv, RemoteInv, RowInv, CountInv, RunRowInv;
    assert DateInv(s, d);
  }

  lemma ApartFromMarks(s: System, d: Date, t: Turn, id: nat, f: Fact)
    requires Inv(s) && Apart(s, id, f) && f.status == NeedsReview
    requires At(s, d).CommitJournal? || At(s, d).ResumeCommit? || At(s, d).CommitUpload?
    ensures Apart(Step(s, d, t), id, f)
  {
    hide Step, Inv, CommitJournalTx, IdsOf, Title;
    if At(s, d).CommitJournal? {
      DraftHolds(s, d);
      JournalStep(s, d, t);
      var p := At(s, d);
      if AttemptedJournal(s, d).Some? {
        JournalTxKeeps(s.db, d, IdsOf(p.draft.facts), p.draft.rounding, JournalRow(p.entry, None, Title(d), d), id);
      }
    } else {
      NotAttached(s, d, id, f);
      UploadStep(s, d, t, id);
    }
    ApartMoves(s, Step(s, d, t), d, id, f);
  }

  lemma DraftHolds(s: System, d: Date)
    requires Inv(s) && At(s, d).CommitJournal?
    ensures var r := At(s, d).draft.rounding; r.Some? ==> r.value.status.Pending? && r.value.id in IdsOf(At(s, d).draft.facts)
  {
    hide FactsInv, RemoteInv, RowInv, CountInv, RunRowInv, AttachedInv, ItemsOf, Lines, Difference, Genuine;
    assert DateInv(s, d);
  }

  lemma ApartStep(s: System, d: Date, t: Turn, id: nat, f: Fact, off: bool)
    requires Inv(s) && Apart(s, id, f) && Gated(f, off) && (off ==> !t.config.autoPost)
    ensures Apart(Step(s, d, t), id, f)
  {
    var p := At(s, d);
    if p.ListPending? { ApartFromListing(s, d, t, id, f, off); }
    else if p.Prepare? { ApartFromDraft(s, d, t, id, f); }
    else if p.CommitJournal? || p.ResumeCommit? || p.CommitUpload? { ApartFromMarks(s, d, t, id, f); }
    else { ApartOtherwise(s, d, t, id, f); }
  }

  lemma ApartOtherwise(s: System, d: Date, t: Turn, id: nat, f: Fact)
    requires Apart(s, id, f) && !At(s, d).ListPending? && !At(s, d).Prepare?
    requires !At(s, d).CommitJournal? && !At(s, d).ResumeCommit? && !At(s, d).CommitUpload?
    ensures Apart(Step(s, d, t), id, f)
  {
    OtherStep(s, d, t);
    hide Step;
    if Step(s, d, t) != s { ApartMoves(s, Step(s, d, t), d, id, f); }
  }

  /** Every other step leaves the facts alone and chooses no more of them. */
  lemma OtherStep(s: System, d: Date, t: Turn)
    requires !At(s, d).ListPending? && !At(s, d).Prepare?
    requires !At(s, d).CommitJournal? && !At(s, d).ResumeCommit? && !At(s, d).CommitUpload?
    ensures Leaves(s, Step(s, d, t), d)
  {
    hide Leaves, Step;
    var p := At(s, d);
    if p.ReadRun? || p.CreateRun? || p.ReadJournal? || p.ResetRun? { ClaimLeaves(s, d, t); }
    else if p.FindJournal? || p.CreateJournal? { SendLeaves(s, d, t); }
    else { RestLeaves(s, d, t); }
  }

  ghost predicate Leaves(s: System, s': System, d: Date) {
    && s'.db.facts == s.db.facts && s'.log.issued == s.log.issued
    && (s' == s || s'.procs == s.procs[d := At(s', d)]) && Held(At(s', d)) <= Held(At(s, d))
  }

  lemma ClaimLeaves(s: System, d: Date, t: Turn)
    requires At(s, d).ReadRun? || At(s, d).CreateRun? || At(s, d).ReadJournal? || At(s, d).ResetRun?
    ensures Leaves(s, Step(s, d, t), d)
  {
    hide IdsOf;
  }

  lemma SendLeaves(s: System, d: Date, t: Turn)
    requires At(s, d).FindJournal? || At(s, d).CreateJournal?
    ensures Leaves(s, Step(s, d, t), d)
  {
    hide IdsOf, JournalLookup, Wanted;
  }

  lemma RestLeaves(s: System, d: Date, t: Turn)
    requires Held(At(s, d)) == {} && !At(s, d).ListPending? && !At(s, d).ResumeCommit? && !At(s, d).CommitUpload?
    requires !At(s, d).ReadRun? && !At(s, d).CreateRun? && !At(s, d).ReadJournal? && !At(s, d).ResetRun?
    requires !At(s, d).Prepare? && !At(s, d).FindJournal? && !At(s, d).CreateJournal? && !At(s, d).CommitJournal?
    ensures Leaves(s, Step(s, d, t), d)
  {
    hide IdsOf, UploadLookup, Aggregate, Lists, ResumeDescription, CloseDescription;
  }

  lemma ApartFromWebhook(s: System, facts: seq<Fact>, id: nat, f: Fact)
    requires Apart(s, id, f)
    ensures Apart(StepWebhook(s, facts), id, f)
  {
    var s' := StepWebhook(s, facts);
    if s' != s {
      WebhookIssue(s, facts);
      InsertAllEffect(s.db.facts - InGroups(s.db.facts, GroupsOf(facts)), facts, s.db.payloadNotNull);
    }
    forall d ensures id !in Held(At(s', d)) { assert At(s', d) == At(s, d); }
  }

  lemma ApartNext(s: System, e: Event, id: nat, f: Fact, off: bool)
    requires Inv(s) && Apart(s, id, f) && Gated(f, off) && (off && e.Advance? ==> !e.turn.config.autoPost)
    ensures Apart(Next(s, e), id, f)
  {
    match e
    case Advance(d, t) => ApartStep(s, d, t, id, f, off);
    case Webhook(facts) => ApartFromWebhook(s, facts, id, f);
    case _ =>
      forall d ensures id !in Held(At(Next(s, e), d)) { assert id !in Held(At(s, d)); }
  }

  /** No close has chosen a fact that may not be posted. */
  ghost predicate NoneChosen(s: System, off: bool) {
    forall id, d :: id in s.db.facts && Gated(s.db.facts[id], off) ==> id !in Held(At(s, d))
  }

  lemma JournalTxBringsNone(db: Db, d: Date, ids: set<nat>, rounding: Option<Fact>, row: JournalRow, id: nat)
    requires CommitJournalTx(db, d, ids, rounding, row).Some? && (rounding.Some? ==> rounding.value.status.Pending?)
    ensures var facts := CommitJournalTx(db, d, ids, rounding, row).value.facts;
      id in facts && facts[id].status == NeedsReview ==> id in db.facts && facts[id] == db.facts[id]
  {
    if rounding.Some? {
      InsertAllEffect(db.facts - InGroups(db.facts, GroupsOf([rounding.value])), [rounding.value], db.payloadNotNull);
    }
  }

  lemma CommitBringsNone(s: System, d: Date, t: Turn, id: nat)
    requires Inv(s) && At(s, d).CommitJournal?
    requires id in Step(s, d, t).db.facts && Step(s, d, t).db.facts[id].status == NeedsReview
    ensures id in s.db.facts && Step(s, d, t).db.facts[id] == s.db.facts[id]
  {
    hide Step, Inv, CommitJournalTx, IdsOf, Title;
    DraftHolds(s, d);
    JournalStep(s, d, t);
    var p := At(s, d);
    if AttemptedJournal(s, d).Some? {
      JournalTxBringsNone(s.db, d, IdsOf(p.draft.facts), p.draft.rounding, JournalRow(p.entry, None, Title(d), d), id);
    }
  }

  lemma UploadBringsNone(s: System, d: Date, t: Turn, id: nat)
    requires At(s, d).ResumeCommit? || At(s, d).CommitUpload?
    requires id in Step(s, d, t).db.facts && Step(s, d, t).db.facts[id].status == NeedsReview
    ensures id in s.db.facts && Step(s, d, t).db.facts[id] == s.db.facts[id]
  {}

  lemma ReadingBringsNone(s: System, d: Date, t: Turn)
    requires At(s, d).ListPending? || At(s, d).Prepare?
    ensures Step(s, d, t).db == s.db
  {
    hide Aggregate, Lists, ValidForPosting;
  }

  /** A close never makes a fact need review. */
  lemma StepBringsNone(s: System, d: Date, t: Turn, id: nat)
    requires Inv(s) && id in Step(s, d, t).db.facts && Step(s, d, t).db.facts[id].status == NeedsReview
    ensures id in s.db.facts && Step(s, d, t).db.facts[id] == s.db.facts[id]
  {
    hide Step, Inv;
    var p := At(s, d);
    if p.CommitJournal? {
      CommitBringsNone(s, d, t, id);
    } else if p.ResumeCommit? || p.CommitUpload? {
      UploadBringsNone(s, d, t, id);
    } else if p.ListPending? || p.Prepare? {
      ReadingBringsNone(s, d, t);
    } else {
      OtherStep(s, d, t);
    }
  }

  lemma HeldAreIssued(s: System, d: Date)
    requires Inv(s)
    ensures Held(At(s, d)) <= s.log.issued.Keys
  {
    hide FactsInv, RemoteInv, RowInv, CountInv, RunRowInv, AttachedInv;
    assert DateInv(s, d);
  }

  lemma NoneChosenNext(s: System, e: Event, off: bool)
    requires Inv(s) && NoneChosen(s, off) && (off && e.Advance? ==> !e.turn.config.autoPost)
    ensures NoneChosen(Next(s, e), off)
  {
    var s' := Next(s, e);
    hide Step, Inv, StepWebhook, Held;
    forall id, d | id in s'.db.facts && Gated(s'.db.facts[id], off) ensures id !in Held(At(s', d)) {
      if e.Advance? { StepBringsNone(s, e.date, e.turn, id); }
      if id in s.db.facts && s.db.facts[id] == s'.db.facts[id] {
        StoredIsIssued(s, id);
        ApartNext(s, e, id, s.db.facts[id], off);
      } else {
        HeldAreIssued(s, d);
        WebhookIsNew(s, e.facts, id, d);
      }
    }
  }

  lemma StoredIsIssued(s: System, id: nat)
    requires Inv(s) && id in s.db.facts
    ensures id in s.log.issued
  {
    assert FactInv(s, id);
  }

  lemma WebhookIsNew(s: System, facts: seq<Fact>, id: nat, d: Date)
    requires id in StepWebhook(s, facts).db.facts
    ensures At(StepWebhook(s, facts), d) == At(s, d)
    ensures (id in s.db.facts && s.db.facts[id] == StepWebhook(s, facts).db.facts[id]) || id !in s.log.issued
  {
    if StepWebhook(s, facts) != s {
      InsertAllEffect(s.db.facts - InGroups(s.db.facts, GroupsOf(facts)), facts, s.db.payloadNotNull);
    }
  }

  lemma {:induction false} NoneChosenEver(s: System, events: seq<Event>, off: bool)
    requires Inv(s) && NoneChosen(s, off) && (off ==> NeverAutoPosts(events))
    ensures NoneChosen(Run(s, events), off)
  {
    hide Inv, NoneChosen, Next;
    if events != [] {
      var front := events[..|events| - 1];
      NoneChosenEver(s, front, off);
      RunKeeps(s, front);
      NoneChosenNext(Run(s, front), events[|events| - 1], off);
    }
  }

  lemma {:induction false} ApartEver(s: System, events: seq<Event>, id: nat, f: Fact, off: bool)
    requires Inv(s) && Apart(s, id, f) && Gated(f, off) && (off ==> NeverAutoPosts(events))
    ensures Apart(Run(s, events), id, f)
  {
    hide Inv, Apart, Next;
    if events != [] {
      var front := events[..|events| - 1];
      ApartEver(s, front, id, f, off);
      RunKeeps(s, front);
      ApartNext(Run(s, front), events[|events| - 1], id, f, off);
    }
  }

  /** Over every run, with crashes, lost responses, ingests and closes of any date in between: a fact
      that needs review and has no amount is never batched or posted, and where no close finds
      automatic posting on, neither is any other fact that needs review. It stays as it is until an
      ingest replaces its group. */
  lemma ReviewsAreNotPosted(payloadNotNull: bool, trace: seq<Event>, events: seq<Event>, id: nat)
    requires var s := Run(Init(payloadNotNull), trace);
      && id in s.db.facts && s.db.facts[id].status == NeedsReview
      && (s.db.facts[id].amount == 0 || NeverAutoPosts(trace + events))
    ensures var s := Run(Init(payloadNotNull), trace); var s' := Run(s, events);
      id in s'.db.facts ==> s'.db.facts[id] == s.db.facts[id]
  {
    var s := ReachableHolds(payloadNotNull, trace);
    var f := s.db.facts[id];
    var off := f.amount != 0;
    InitHolds(payloadNotNull);
    hide Run, Inv;
    NoneChosenEver(Init(payloadNotNull), trace, off);
    StoredIsIssued(s, id);
    ApartEver(s, events, id, f, off);
  }
}
