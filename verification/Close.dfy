/** internal/accounting/service_run.go as a state machine.

    A close of one date is a process that makes one database transaction or one remote call
    at a time. Closes of different dates, webhook ingests, crashes and entries made by other
    hands in the remote books interleave freely between those steps. Everything the code
    cannot choose (whether a step fails, the ids handed out, the order of a listing) comes
    with the event, so that a run of the system is a sequence of events. */
module Close {
  import opened Grouping
  import opened Ledger
  import opened Journal
  import opened Bokio
  import opened Store

  datatype Config = Config(roundingAccount: int, tolerance: int, autoPost: bool)

  /** What the environment decides for one step of a close. */
  datatype Turn = Turn(outcome: Outcome, id: nat, found: Option<nat>, listing: seq<Fact>, config: Config)

  /** Where a close is, with the local variables it still needs. */
  datatype Proc =
    | Idle
    | ResumeReadRun
    | ResumeReadJournal
    | ResumeListFacts(row: JournalRow)
    | ResumeFindUpload(row: JournalRow, ids: set<nat>)
    | ResumeUpload(row: JournalRow, ids: set<nat>)
    | ResumeCommit(row: JournalRow, ids: set<nat>)
    | ListPending
    | ReadRun(facts: seq<Fact>)
    | CreateRun(facts: seq<Fact>)
    | ReadJournal(facts: seq<Fact>)
    | ResetRun(facts: seq<Fact>)
    | Prepare(facts: seq<Fact>)
    | FindJournal(draft: Draft)
    | CreateJournal(draft: Draft)
    | CommitJournal(draft: Draft, entry: nat)
    | FindUpload(row: JournalRow, ids: set<nat>)
    | Upload(row: JournalRow, ids: set<nat>)
    | CommitUpload(row: JournalRow, ids: set<nat>)
    | FailRun

  /** A journal ready to be sent: the facts include the rounding line. */
  datatype Draft = Draft(facts: seq<Fact>, rounding: Option<Fact>, items: seq<JournalItem>)

  datatype Remote = Remote(journals: map<nat, RemoteJournal>, uploads: map<nat, RemoteUpload>)

  /** What has happened so far. No step reads it; properties are stated with it.
      `issued`: every fact ever created, by id. `made`, `uploaded`: remote objects this
      service created. `booked`: the facts of each committed journal. `lost`: dates for
      which a create call took effect but its response was lost. */
  datatype Log = Log(
    issued: map<nat, Fact>,
    made: set<nat>,
    uploaded: set<nat>,
    booked: map<Date, seq<Fact>>,
    lost: set<Date>)

  datatype System = System(db: Db, remote: Remote, procs: map<Date, Proc>, log: Log)

  datatype Event =
    | Start(date: Date)
    | Advance(date: Date, turn: Turn)
    | Crash(date: Date)
    | Webhook(facts: seq<Fact>)
    | ForeignJournal(id: nat, journal: RemoteJournal)
    | ForeignUpload(id: nat, upload: RemoteUpload)

  function Init(payloadNotNull: bool): System {
    System(Db(map[], map[], map[], map[], payloadNotNull), Remote(map[], map[]), map[], Log(map[], {}, {}, map[], {}))
  }

  function At(s: System, d: Date): Proc { if d in s.procs then s.procs[d] else Idle }

  function Goto(s: System, d: Date, p: Proc): System { s.(procs := s.procs[d := p]) }

  const TITLE_PREFIX := "Stripe dagsverifikat "

  function Title(d: Date): string { TITLE_PREFIX + FormatDate(d) }

  function CloseDescription(d: Date): string { TITLE_PREFIX + FormatDate(d) + " underlag" }

  function ResumeDescription(row: JournalRow): string { row.title + " underlag" }

  function Wanted(d: Date, items: seq<JournalItem>): RemoteJournal { RemoteJournal(Title(d), d, items) }

  /** ListPendingAccountingFacts: the facts of the date that are not settled. */
  function PendingIds(db: Db, d: Date): set<nat> {
    set id | id in db.facts && db.facts[id].date == d
      && (db.facts[id].status.Pending? || db.facts[id].status.NeedsReview? || db.facts[id].status.Batched?)
  }

  /** validateFactsForPosting. */
  predicate ValidForPosting(facts: seq<Fact>, autoPost: bool) {
    forall f :: f in facts && f.status.NeedsReview? ==> f.amount != 0 && autoPost
  }

  /** The fields RunDailyClose fills in before it stores the rounding line. */
  function AsStored(r: Fact): Fact { r.(objectType := "system", objectId := "rounding", status := Pending) }

  function StoredRounding(r: Option<Fact>): Option<Fact> {
    match r case None => None case Some(f) => Some(AsStored(f))
  }

  function Issue(issued: map<nat, Fact>, facts: seq<Fact>): map<nat, Fact> {
    if facts == [] then issued
    else
      var f := facts[|facts| - 1];
      Issue(issued, facts[..|facts| - 1])[f.id := f.Core()]
  }

  // ---------------------------------------------------------------------------
  // Finishing a half-done upload
  // ---------------------------------------------------------------------------

  function StepResumeReadRun(s: System, d: Date, t: Turn): System {
    if !t.outcome.Done? then Goto(s, d, Idle)
    else if d in s.db.runs && (s.db.runs[d].JournalCreated? || s.db.runs[d].UploadCreated? || s.db.runs[d].RunFailed?) then
      Goto(s, d, ResumeReadJournal)
    else Goto(s, d, ListPending)
  }

  function StepResumeReadJournal(s: System, d: Date, t: Turn): System {
    if !t.outcome.Done? then Goto(s, d, Idle)
    else if d !in s.db.journals || s.db.journals[d].upload.Some? then Goto(s, d, ListPending)
    else Goto(s, d, ResumeListFacts(s.db.journals[d]))
  }

  function StepResumeListFacts(s: System, d: Date, t: Turn, row: JournalRow): System {
    if !t.outcome.Done? then Goto(s, d, Idle)
    else if !Lists(t.listing, s.db.facts, Attached(s.db, d)) then s
    else if Aggregate(t.listing, t.config.roundingAccount, t.config.tolerance, t.id).Unbalanced? then Goto(s, d, Idle)
    else Goto(s, d, ResumeFindUpload(row, IdsOf(t.listing)))
  }

  /** Whether `found` is an answer the upload lookup can give. */
  predicate UploadLookup(r: Remote, wanted: RemoteUpload, found: Option<nat>) {
    match found
    case Some(u) => u in r.uploads && r.uploads[u] == wanted
    case None => forall u :: u in r.uploads ==> r.uploads[u] != wanted
  }

  function AddUpload(s: System, id: nat, u: RemoteUpload): System {
    s.(remote := s.remote.(uploads := s.remote.uploads[id := u]), log := s.log.(uploaded := s.log.uploaded + {id}))
  }

  function StepResumeFindUpload(s: System, d: Date, t: Turn, row: JournalRow, ids: set<nat>): System {
    if !t.outcome.Done? then Goto(s, d, Idle)
    else if !UploadLookup(s.remote, RemoteUpload(row.entry, ResumeDescription(row)), t.found) then s
    else if t.found.Some? then Goto(s, d, ResumeCommit(row.(upload := t.found), ids))
    else Goto(s, d, ResumeUpload(row, ids))
  }

  function StepResumeUpload(s: System, d: Date, t: Turn, row: JournalRow, ids: set<nat>): System {
    if t.outcome.Aborted? then Goto(s, d, Idle)
    else if t.id in s.remote.uploads then s
    else
      var s1 := AddUpload(s, t.id, RemoteUpload(row.entry, ResumeDescription(row)));
      if t.outcome.Lost? then Goto(s1, d, Idle)
      else Goto(s1, d, ResumeCommit(row.(upload := Some(t.id)), ids))
  }

  function Settle(s: System, attempt: Option<Db>, outcome: Outcome): System {
    s.(db := Settled(s.db, attempt, outcome))
  }

  function StepResumeCommit(s: System, d: Date, t: Turn, row: JournalRow, ids: set<nat>): System {
    var attempt := CommitUploadTx(s.db, d, ids, row);
    Goto(Settle(s, attempt, t.outcome), d, if Acknowledged(attempt, t.outcome) then ListPending else Idle)
  }

  // ---------------------------------------------------------------------------
  // Claiming the run
  // ---------------------------------------------------------------------------

  function StepListPending(s: System, d: Date, t: Turn): System {
    if !t.outcome.Done? then Goto(s, d, Idle)
    else if !Lists(t.listing, s.db.facts, PendingIds(s.db, d)) then s
    else if t.listing == [] || !ValidForPosting(t.listing, t.config.autoPost) then Goto(s, d, Idle)
    else Goto(s, d, ReadRun(t.listing))
  }

  function StepReadRun(s: System, d: Date, t: Turn, facts: seq<Fact>): System {
    if !t.outcome.Done? then Goto(s, d, Idle)
    else if d !in s.db.runs then Goto(s, d, CreateRun(facts))
    else
      match s.db.runs[d]
      case Completed => Goto(s, d, Idle)
      case JournalCreated => Goto(s, d, Prepare(facts))
      case UploadCreated => Goto(s, d, Prepare(facts))
      case RunFailed => Goto(s, d, ReadJournal(facts))
      case Started => Goto(s, d, Idle)
  }

  function StepCreateRun(s: System, d: Date, t: Turn, facts: seq<Fact>): System {
    var attempt := if d in s.db.runs then None else Some(s.db.(runs := s.db.runs[d := Started]));
    Goto(Settle(s, attempt, t.outcome), d, if Acknowledged(attempt, t.outcome) then Prepare(facts) else Idle)
  }

  function StepReadJournal(s: System, d: Date, t: Turn, facts: seq<Fact>): System {
    if !t.outcome.Done? then Goto(s, d, Idle)
    else if d in s.db.journals then Goto(s, d, Prepare(facts))
    else Goto(s, d, ResetRun(facts))
  }

  function StepResetRun(s: System, d: Date, t: Turn, facts: seq<Fact>): System {
    var attempt := Some(if d in s.db.runs then s.db.(runs := s.db.runs[d := Started]) else s.db);
    Goto(Settle(s, attempt, t.outcome), d, if Acknowledged(attempt, t.outcome) then Prepare(facts) else Idle)
  }

  // ---------------------------------------------------------------------------
  // The journal
  // ---------------------------------------------------------------------------

  function Prepared(s: System, d: Date, facts: seq<Fact>, aggregation: Aggregation): System {
    match aggregation
    case Unbalanced(_, _) => Goto(s, d, FailRun)
    case Balanced(items, rounding, _, _) =>
      var stored := StoredRounding(rounding);
      var issued := match stored case None => s.log.issued case Some(r) => s.log.issued[r.id := r.Core()];
      Goto(s.(log := s.log.(issued := issued)), d, FindJournal(Draft(WithRounding(facts, stored), stored, items)))
  }

  /** The checks before the remote call: account plan, fiscal year, aggregation, tax cases,
      PDF. Any of them can fail; none of them changes anything. */
  function StepPrepare(s: System, d: Date, t: Turn, facts: seq<Fact>): System {
    if !t.outcome.Done? then Goto(s, d, FailRun)
    else if t.id in s.log.issued then s
    else Prepared(s, d, facts, Aggregate(facts, t.config.roundingAccount, t.config.tolerance, t.id))
  }

  predicate JournalLookup(r: Remote, wanted: RemoteJournal, found: Option<nat>) {
    match found
    case Some(e) => e in r.journals && SameEntry(r.journals[e], wanted)
    case None => forall e :: e in r.journals ==> !SameEntry(r.journals[e], wanted)
  }

  function StepFindJournal(s: System, d: Date, t: Turn, draft: Draft): System {
    if !t.outcome.Done? then Goto(s, d, FailRun)
    else if !JournalLookup(s.remote, Wanted(d, draft.items), t.found) then s
    else if t.found.Some? then Goto(s, d, CommitJournal(draft, t.found.value))
    else Goto(s, d, CreateJournal(draft))
  }

  function AddJournal(s: System, id: nat, j: RemoteJournal, lost: set<Date>): System {
    s.(remote := s.remote.(journals := s.remote.journals[id := j]),
       log := s.log.(made := s.log.made + {id}, lost := s.log.lost + lost))
  }

  function StepCreateJournal(s: System, d: Date, t: Turn, draft: Draft): System {
    if t.outcome.Aborted? then Goto(s, d, FailRun)
    else if t.id in s.remote.journals then s
    else if t.outcome.Lost? then Goto(AddJournal(s, t.id, Wanted(d, draft.items), {d}), d, FailRun)
    else Goto(AddJournal(s, t.id, Wanted(d, draft.items), {}), d, CommitJournal(draft, t.id))
  }

  function StepCommitJournal(s: System, d: Date, t: Turn, draft: Draft, entry: nat): System {
    var row := JournalRow(entry, None, Title(d), d);
    var attempt := CommitJournalTx(s.db, d, IdsOf(draft.facts), draft.rounding, row);
    if t.outcome.Aborted? || attempt.None? then Goto(s, d, Idle)
    else
      var s1 := s.(db := attempt.value, log := s.log.(booked := s.log.booked[d := draft.facts]));
      Goto(s1, d, if t.outcome.Done? then FindUpload(row, IdsOf(draft.facts)) else Idle)
  }

  // ---------------------------------------------------------------------------
  // The attachment
  // ---------------------------------------------------------------------------

  function StepFindUpload(s: System, d: Date, t: Turn, row: JournalRow, ids: set<nat>): System {
    if !t.outcome.Done? then Goto(s, d, FailRun)
    else if !UploadLookup(s.remote, RemoteUpload(row.entry, CloseDescription(d)), t.found) then s
    else if t.found.Some? then Goto(s, d, CommitUpload(row.(upload := t.found), ids))
    else Goto(s, d, Upload(row, ids))
  }

  function StepUpload(s: System, d: Date, t: Turn, row: JournalRow, ids: set<nat>): System {
    if t.outcome.Aborted? then Goto(s, d, FailRun)
    else if t.id in s.remote.uploads then s
    else
      var s1 := AddUpload(s, t.id, RemoteUpload(row.entry, CloseDescription(d)));
      if t.outcome.Lost? then Goto(s1, d, FailRun)
      else Goto(s1, d, CommitUpload(row.(upload := Some(t.id)), ids))
  }

  function StepCommitUpload(s: System, d: Date, t: Turn, row: JournalRow, ids: set<nat>): System {
    Goto(Settle(s, CommitUploadTx(s.db, d, ids, row), t.outcome), d, Idle)
  }

  /** failRun ignores its own error. */
  function StepFailRun(s: System, d: Date, t: Turn): System {
    var attempt := Some(if d in s.db.runs then s.db.(runs := s.db.runs[d := RunFailed]) else s.db);
    Goto(Settle(s, attempt, t.outcome), d, Idle)
  }

  // ---------------------------------------------------------------------------
  // The machine
  // ---------------------------------------------------------------------------

  function Step(s: System, d: Date, t: Turn): System {
    match At(s, d)
    case Idle => s
    case ResumeReadRun => StepResumeReadRun(s, d, t)
    case ResumeReadJournal => StepResumeReadJournal(s, d, t)
    case ResumeListFacts(row) => StepResumeListFacts(s, d, t, row)
    case ResumeFindUpload(row, ids) => StepResumeFindUpload(s, d, t, row, ids)
    case ResumeUpload(row, ids) => StepResumeUpload(s, d, t, row, ids)
    case ResumeCommit(row, ids) => StepResumeCommit(s, d, t, row, ids)
    case ListPending => StepListPending(s, d, t)
    case ReadRun(facts) => StepReadRun(s, d, t, facts)
    case CreateRun(facts) => StepCreateRun(s, d, t, facts)
    case ReadJournal(facts) => StepReadJournal(s, d, t, facts)
    case ResetRun(facts) => StepResetRun(s, d, t, facts)
    case Prepare(facts) => StepPrepare(s, d, t, facts)
    case FindJournal(draft) => StepFindJournal(s, d, t, draft)
    case CreateJournal(draft) => StepCreateJournal(s, d, t, draft)
    case CommitJournal(draft, entry) => StepCommitJournal(s, d, t, draft, entry)
    case FindUpload(row, ids) => StepFindUpload(s, d, t, row, ids)
    case Upload(row, ids) => StepUpload(s, d, t, row, ids)
    case CommitUpload(row, ids) => StepCommitUpload(s, d, t, row, ids)
    case FailRun => StepFailRun(s, d, t)
  }

  /** A webhook's facts are new and unsettled. */
  predicate FreshFacts(s: System, facts: seq<Fact>) {
    forall f :: f in facts ==> f.id !in s.log.issued && (f.status.Pending? || f.status.NeedsReview?)
  }

  function StepWebhook(s: System, facts: seq<Fact>): System {
    if !FreshFacts(s, facts) then s
    else
      match UpsertFacts(s.db, facts)
      case None => s
      case Some(db) => s.(db := db, log := s.log.(issued := Issue(s.log.issued, facts)))
  }

  function Next(s: System, e: Event): System {
    match e
    case Start(d) => if At(s, d).Idle? then Goto(s, d, ResumeReadRun) else s
    case Advance(d, t) => Step(s, d, t)
    case Crash(d) => Goto(s, d, Idle)
    case Webhook(facts) => StepWebhook(s, facts)
    case ForeignJournal(id, j) =>
      if id in s.remote.journals then s else s.(remote := s.remote.(journals := s.remote.journals[id := j]))
    case ForeignUpload(id, u) =>
      if id in s.remote.uploads then s else s.(remote := s.remote.(uploads := s.remote.uploads[id := u]))
  }

  function Run(s: System, events: seq<Event>): System {
    if events == [] then s else Next(Run(s, events[..|events| - 1]), events[|events| - 1])
  }

  lemma {:induction false} RunConcat(s: System, a: seq<Event>, b: seq<Event>)
    ensures Run(s, a + b) == Run(Run(s, a), b)
  {
    if b == [] {
      assert a + b == a;
    } else {
      RunConcat(s, a, b[..|b| - 1]);
      assert (a + b)[..|a + b| - 1] == a + b[..|b| - 1];
    }
  }
}
