/** When one close posts its day, decided by what is stored beforehand. */
module PostedDays {
  import opened Grouping
  import opened Ledger
  import opened Journal
  import opened JournalLaws
  import opened Store
  import opened Close
  import opened CloseInvariant
  import opened CloseSteps
  import opened CloseTheorems
  import opened CloseRecovery
  import opened Service
  import opened ServiceRecovery
  import opened FurtherJournals

  // ---------------------------------------------------------------------------
  // The condition
  // ---------------------------------------------------------------------------

  /** Transaction 1 accepts the day: it needs no rounding line, or the payload column takes nil and
      the source group of all rounding lines can still be replaced without losing a listed fact. */
  predicate RoundingFits(db: Db, listing: seq<Fact>) {
    Difference(listing) == 0
    || (!db.payloadNotNull && !RoundingGroupLocked(db) && forall f :: f in listing ==> f.group != "rounding")
  }

  /** Whether a call that gets all its answers leaves the date completed with every fact posted that
      is unsettled now. A date that can be claimed is posted as a whole; a half-done or completed one
      takes no further facts in; a started one is never touched. */
  predicate WillPost(s: System, d: Date, listing: seq<Fact>, c: Config) {
    if Claimable(s, d) then Sendable(listing, c) && RoundingFits(s.db, listing)
    else !s.db.runs[d].Started? && PendingIds(s.db, d) <= Attached(s.db, d)
  }

  ghost predicate AllPosted(s: System, d: Date, ids: set<nat>) {
    IsCompleted(s, d) && forall id :: id in ids ==> id in s.db.facts && s.db.facts[id].status == FactStatus.Posted
  }

  // ---------------------------------------------------------------------------
  // A claimable date
  // ---------------------------------------------------------------------------

  ghost predicate SameButRun(s: System, m: System) { m.db == s.db.(runs := m.db.runs) }

  /** The draft holds exactly the unsettled facts, and a rounding line if they need one. */
  ghost predicate Planned(s: System, d: Date, listing: seq<Fact>, draft: Draft, c: Config) {
    && Sendable(listing, c)
    && (draft.rounding.None? <==> Difference(listing) == 0)
    && match draft.rounding
       case None => IdsOf(draft.facts) == PendingIds(s.db, d)
       case Some(r) => IdsOf(draft.facts) == PendingIds(s.db, d) + {r.id} && r.id !in s.db.facts
  }

  ghost predicate Decided(s: System, m: System, d: Date, listing: seq<Fact>, c: Config) {
    if WillPost(s, d, listing, c) then IsCompleted(m, d) && PendingIds(s.db, d) <= Attached(m.db, d)
    else !IsCompleted(m, d)
  }

  ghost predicate Attaching(s: System, m: System, d: Date, listing: seq<Fact>, c: Config) {
    WillPost(s, d, listing, c) && PendingIds(s.db, d) <= Attached(m.db, d) && d in m.db.runs
  }

  /** Where a call for a claimable date can be. */
  ghost predicate Posting(s: System, m: System, d: Date, listing: seq<Fact>, c: Config) {
    match At(m, d)
    case ResumeReadRun => m.db == s.db
    case ResumeReadJournal => m.db == s.db
    case ResumeListFacts(_) => false
    case ResumeFindUpload(_, _) => false
    case ResumeUpload(_, _) => false
    case ResumeCommit(_, _) => false
    case ListPending => m.db == s.db
    case ReadRun(facts) => m.db == s.db && Chosen(s, d, facts, c)
    case CreateRun(facts) => d !in s.db.runs && m.db == s.db && Chosen(s, d, facts, c)
    case ReadJournal(facts) => m.db == s.db && Chosen(s, d, facts, c)
    case ResetRun(facts) => m.db == s.db && Chosen(s, d, facts, c)
    case Prepare(facts) => SameButRun(s, m) && Chosen(s, d, facts, c)
    case FindJournal(draft) => SameButRun(s, m) && Planned(s, d, listing, draft, c)
    case CreateJournal(draft) => SameButRun(s, m) && Planned(s, d, listing, draft, c)
    case CommitJournal(draft, _) => SameButRun(s, m) && Planned(s, d, listing, draft, c)
    case FindUpload(_, _) => Attaching(s, m, d, listing, c)
    case Upload(_, _) => Attaching(s, m, d, listing, c)
    case CommitUpload(_, _) => Attaching(s, m, d, listing, c)
    case FailRun => !WillPost(s, d, listing, c) && d in m.db.runs
    case Idle => Decided(s, m, d, listing, c)
  }

  lemma PostingReads(s: System, m: System, d: Date, t: Turn, listing: seq<Fact>)
    requires Posting(s, m, d, listing, t.config) && Claimable(s, d)
    requires At(m, d).ResumeReadRun? || At(m, d).ResumeReadJournal? || At(m, d).ReadRun? || At(m, d).CreateRun?
      || At(m, d).ReadJournal? || At(m, d).ResetRun?
    requires s.db.journals.Keys <= s.db.runs.Keys
    requires t.outcome.Done?
    ensures Posting(s, Step(m, d, t), d, listing, t.config)
  {
    hide Chosen, Decided, WillPost;
  }

  lemma PostingLists(s: System, m: System, d: Date, t: Turn, listing: seq<Fact>)
    requires Posting(s, m, d, listing, t.config) && Claimable(s, d)
    requires At(m, d).ListPending? && Lists(listing, s.db.facts, PendingIds(s.db, d))
    requires t.outcome.Done? && Step(m, d, t) != m
    ensures Posting(s, Step(m, d, t), d, listing, t.config)
  {
    SameDraft(s.db, d, t.listing, listing, t.config, 0);
    hide Aggregate, Lists, PendingIds, ValidForPosting, RoundingFits;
  }

  lemma SameDifference(db: Db, d: Date, a: seq<Fact>, b: seq<Fact>)
    requires Lists(a, db.facts, PendingIds(db, d)) && Lists(b, db.facts, PendingIds(db, d))
    ensures Difference(a) == Difference(b)
  {
    AnyListing(db.facts, PendingIds(db, d), a, b);
    LinesOfPermutation(a, b);
    SameLinesSameJournal(a, b);
  }

  lemma PreparingDraft(m: System, d: Date, t: Turn, facts: seq<Fact>)
    requires At(m, d) == Prepare(facts) && t.outcome.Done? && Step(m, d, t) != m
    ensures var m' := Step(m, d, t); var r := Aggregate(facts, t.config.roundingAccount, t.config.tolerance, t.id);
      && m'.db == m.db && t.id !in m.log.issued
      && (r.Unbalanced? ==> At(m', d).FailRun?)
      && (r.Balanced? ==> At(m', d).FindJournal? && var draft := At(m', d).draft;
          && (draft.rounding.None? <==> Difference(facts) == 0)
          && match draft.rounding
             case None => draft.facts == facts
             case Some(x) => draft.facts == facts + [x] && x.id == t.id)
  {
    hide ItemsOf, Lines, SumDirection;
  }

  lemma IdsWith(facts: seq<Fact>, f: Fact)
    ensures IdsOf(facts + [f]) == IdsOf(facts) + {f.id}
  {
    assert forall x :: x in facts + [f] <==> x in facts || x == f;
    assert f in facts + [f];
  }

  lemma PostingPrepares(s: System, m: System, d: Date, t: Turn, listing: seq<Fact>, facts: seq<Fact>)
    requires Inv(m) && SameButRun(s, m) && Chosen(s, d, facts, t.config) && At(m, d) == Prepare(facts)
    requires Lists(listing, s.db.facts, PendingIds(s.db, d)) && t.outcome.Done? && Step(m, d, t) != m
    ensures var m' := Step(m, d, t);
      && SameButRun(s, m') && d in m'.db.runs
      && if Sendable(listing, t.config) then At(m', d).FindJournal? && Planned(s, d, listing, At(m', d).draft, t.config)
         else At(m', d).FailRun?
  {
    assert DateInv(m, d);
    SameDraft(s.db, d, facts, listing, t.config, t.id);
    SameDifference(s.db, d, facts, listing);
    PreparingDraft(m, d, t, facts);
    UnissuedIsNew(m, t.id);
    var m' := Step(m, d, t);
    if At(m', d).FindJournal? && At(m', d).draft.rounding.Some? { IdsWith(facts, At(m', d).draft.rounding.value); }
    hide Aggregate, PendingIds, ValidForPosting, Step, Difference, Inv, DateInv;
  }

  lemma UnissuedIsNew(m: System, id: nat)
    requires Inv(m) && id !in m.log.issued
    ensures id !in m.db.facts
  {
    forall k | k in m.db.facts ensures k in m.log.issued { assert FactInv(m, k); }
  }

  lemma PostingPrepared(s: System, m: System, d: Date, t: Turn, listing: seq<Fact>)
    requires Inv(m) && Posting(s, m, d, listing, t.config) && Claimable(s, d)
    requires At(m, d).Prepare? && Lists(listing, s.db.facts, PendingIds(s.db, d))
    requires t.outcome.Done? && Step(m, d, t) != m
    ensures Posting(s, Step(m, d, t), d, listing, t.config)
  {
    hide Step, Lists, Chosen, Sendable, Planned, RoundingFits, SameButRun, Inv;
    PostingPrepares(s, m, d, t, listing, At(m, d).facts);
  }

  lemma PostingSends(s: System, m: System, d: Date, t: Turn, listing: seq<Fact>)
    requires Posting(s, m, d, listing, t.config) && (At(m, d).FindJournal? || At(m, d).CreateJournal?) && t.outcome.Done?
    ensures Posting(s, Step(m, d, t), d, listing, t.config)
  {
    hide Planned, JournalLookup, Wanted;
  }

  /** The condition of transaction 1, as `JournalTxCondition` gives it. */
  predicate TxCondition(db: Db, ids: set<nat>, rounding: Option<Fact>) {
    match rounding
    case None => ids <= db.facts.Keys
    case Some(r) =>
      && !db.payloadNotNull && !RoundingGroupLocked(db)
      && ids <= db.facts.Keys - InGroups(db.facts, {"rounding"}) + {r.id}
  }

  lemma CommitCondition(m: System, d: Date, row: JournalRow)
    requires Inv(m) && At(m, d).CommitJournal?
    requires var r := At(m, d).draft.rounding; r.Some? ==> r.value.id !in m.db.facts
    ensures var draft := At(m, d).draft;
      CommitJournalTx(m.db, d, IdsOf(draft.facts), draft.rounding, row).Some?
      <==> TxCondition(m.db, IdsOf(draft.facts), draft.rounding)
    ensures d in m.db.runs && m.db.runs[d].Started?
  {
    ClaimedDraft(m, d);
    hide CommitJournalTx, DraftInv, Inv, IdsOf, RoundingGroupLocked, InGroups;
    JournalTxCondition(m, d, At(m, d).draft, row);
  }

  /** In terms of the listed facts it is that the rounding line, if any, fits. */
  lemma ConditionIsFit(db: Db, ids: set<nat>, listing: seq<Fact>, draftIds: set<nat>, rounding: Option<Fact>)
    requires Lists(listing, db.facts, ids) && (rounding.None? <==> Difference(listing) == 0)
    requires match rounding case None => draftIds == ids case Some(r) => draftIds == ids + {r.id} && r.id !in db.facts
    ensures TxCondition(db, draftIds, rounding) <==> RoundingFits(db, listing)
  {
    ListedExactly(db.facts, ids, listing);
    hide Lists, Difference, RoundingGroupLocked;
  }

  lemma CommitsIfFits(s: System, m: System, d: Date, listing: seq<Fact>, c: Config, row: JournalRow)
    requires Inv(m) && At(m, d).CommitJournal? && SameButRun(s, m) && Planned(s, d, listing, At(m, d).draft, c)
    requires Lists(listing, s.db.facts, PendingIds(s.db, d))
    ensures var draft := At(m, d).draft;
      CommitJournalTx(m.db, d, IdsOf(draft.facts), draft.rounding, row).Some? <==> RoundingFits(s.db, listing)
    ensures d in m.db.runs && m.db.runs[d].Started?
  {
    var draft := At(m, d).draft;
    hide CommitJournalTx, Inv, Difference, Sendable, Lists, PendingIds, IdsOf, TxCondition, RoundingFits;
    CommitCondition(m, d, row);
    ConditionIsFit(s.db, PendingIds(s.db, d), listing, IdsOf(draft.facts), draft.rounding);
    RunsDoNotMatter(s.db, m.db, IdsOf(draft.facts), draft.rounding);
  }

  lemma RunsDoNotMatter(a: Db, b: Db, ids: set<nat>, rounding: Option<Fact>)
    requires b == a.(runs := b.runs)
    ensures TxCondition(a, ids, rounding) <==> TxCondition(b, ids, rounding)
  {}

  lemma ListedExactly(facts: map<nat, Fact>, ids: set<nat>, listing: seq<Fact>)
    requires Lists(listing, facts, ids)
    ensures forall id :: id in ids ==> id in facts && facts[id] in listing
    ensures forall f :: f in listing ==> f.id in ids && f.id in facts && facts[f.id] == f
  {
    forall id | id in ids ensures id in facts && facts[id] in listing {
      var f :| f in listing && f.id == id;
    }
    forall f | f in listing ensures f.id in ids && f.id in facts && facts[f.id] == f { assert f.id in IdsOf(listing); }
  }

  lemma ClaimedDraft(m: System, d: Date)
    requires Inv(m) && At(m, d).CommitJournal?
    ensures Claimed(m, d) && DraftInv(m, d, At(m, d).draft)
  {
    hide DraftInv, Claimed, FactsInv, RemoteInv, RowInv, CountInv, AttachedInv, RunRowInv;
    assert DateInv(m, d);
  }

  lemma CommitStep(m: System, d: Date, t: Turn)
    requires At(m, d).CommitJournal? && t.outcome.Done?
    ensures var p := At(m, d); var row := JournalRow(p.entry, None, Title(d), d);
      var attempt := CommitJournalTx(m.db, d, IdsOf(p.draft.facts), p.draft.rounding, row); var m' := Step(m, d, t);
      if attempt.None? then m' == Goto(m, d, Idle)
      else At(m', d).FindUpload? && d in m'.db.runs && IdsOf(p.draft.facts) <= Attached(m'.db, d)
  {
    hide MarkStatus, UpsertFacts, IdsOf, Title;
  }

  lemma Commits(s: System, m: System, d: Date, t: Turn, listing: seq<Fact>)
    requires Inv(m) && At(m, d).CommitJournal? && SameButRun(s, m) && Planned(s, d, listing, At(m, d).draft, t.config)
    requires Lists(listing, s.db.facts, PendingIds(s.db, d)) && t.outcome.Done?
    ensures var m' := Step(m, d, t);
      if RoundingFits(s.db, listing) then
        At(m', d).FindUpload? && d in m'.db.runs && PendingIds(s.db, d) <= Attached(m'.db, d)
      else At(m', d).Idle? && !IsCompleted(m', d)
  {
    var row := JournalRow(At(m, d).entry, None, Title(d), d);
    CommitsIfFits(s, m, d, listing, t.config, row);
    CommitStep(m, d, t);
    hide Step, Inv, Lists, CommitJournalTx, RoundingFits, Sendable, Title, PendingIds, Attached, IdsOf;
  }

  lemma PostingCommits(s: System, m: System, d: Date, t: Turn, listing: seq<Fact>)
    requires Inv(m) && Posting(s, m, d, listing, t.config) && Claimable(s, d)
    requires At(m, d).CommitJournal? && Lists(listing, s.db.facts, PendingIds(s.db, d)) && t.outcome.Done?
    ensures Posting(s, Step(m, d, t), d, listing, t.config)
  {
    hide Step, Inv, Lists, RoundingFits, Sendable, PendingIds, Attached, Claimable, SameButRun, IsCompleted;
    Commits(s, m, d, t, listing);
  }

  lemma PostingAttaches(s: System, m: System, d: Date, t: Turn, listing: seq<Fact>)
    requires Posting(s, m, d, listing, t.config) && t.outcome.Done?
    requires At(m, d).FindUpload? || At(m, d).Upload? || At(m, d).CommitUpload? || At(m, d).FailRun?
    ensures Posting(s, Step(m, d, t), d, listing, t.config)
  {
    hide WillPost, PendingIds, UploadLookup, MarkStatus;
  }

  lemma PostingStep(s: System, m: System, d: Date, t: Turn, listing: seq<Fact>)
    requires Inv(m) && Posting(s, m, d, listing, t.config) && Claimable(s, d)
    requires Lists(listing, s.db.facts, PendingIds(s.db, d)) && s.db.journals.Keys <= s.db.runs.Keys
    requires t.outcome.Done? && Step(m, d, t) != m
    ensures Posting(s, Step(m, d, t), d, listing, t.config)
  {
    var p := At(m, d);
    hide Step, Claimable, Lists, Chosen, Planned, Decided, Attaching, WillPost, SameButRun, Inv;
    if p.ListPending? { PostingLists(s, m, d, t, listing); }
    else if p.Prepare? { PostingPrepared(s, m, d, t, listing); }
    else if p.FindJournal? || p.CreateJournal? { PostingSends(s, m, d, t, listing); }
    else if p.CommitJournal? { PostingCommits(s, m, d, t, listing); }
    else if p.FindUpload? || p.Upload? || p.CommitUpload? || p.FailRun? { PostingAttaches(s, m, d, t, listing); }
    else if p.Idle? { StandsStill(m, d, t); }
    else { PostingReads(s, m, d, t, listing); }
  }

  lemma StandsStill(m: System, d: Date, t: Turn)
    requires At(m, d).Idle?
    ensures Step(m, d, t) == m
  {}

  lemma PostingStarts(s: System, d: Date, listing: seq<Fact>, c: Config)
    requires At(s, d).Idle?
    ensures Posting(s, Next(s, Start(d)), d, listing, c)
  {}

  lemma {:induction false} PostingCall(s: System, call: seq<Event>, d: Date, env: Environment, listing: seq<Fact>)
    requires Inv(s) && At(s, d).Idle? && Claimable(s, d) && Faultless(env) && Follows(s, call, d, env) && call != []
    requires Lists(listing, s.db.facts, PendingIds(s.db, d))
    ensures Inv(Run(s, call)) && Posting(s, Run(s, call), d, listing, env.config)
  {
    hide Inv, Lists, Fits, Posting, Claimable, Step;
    RunKeeps(s, call);
    var before, e := call[..|call| - 1], call[|call| - 1];
    if before == [] {
      PostingStarts(s, d, listing, env.config);
    } else {
      PostingCall(s, before, d, env, listing);
      RunKeeps(s, before);
      AnswersWell(Run(s, before), d, e.turn, env);
      RowsHaveRuns(s);
      PostingStep(s, Run(s, before), d, e.turn, listing);
    }
  }

  // ---------------------------------------------------------------------------
  // Every other date
  // ---------------------------------------------------------------------------

  lemma IssuedKept(s: System, e: Event)
    ensures Grows(s.log.issued, Next(s, e).log.issued)
  {
    match e
    case Advance(d, t) => IssuedKeptByStep(s, d, t);
    case Webhook(facts) =>
      if FreshFacts(s, facts) && UpsertFacts(s.db, facts).Some? { WebhookIssue(s, facts); }
    case _ =>
  }

  lemma IssuedKeptByStep(s: System, d: Date, t: Turn)
    ensures Grows(s.log.issued, Step(s, d, t).log.issued)
  {
    hide CommitJournalTx, CommitUploadTx, Aggregate, Lists, PendingIds, UploadLookup, JournalLookup, ValidForPosting;
    if At(s, d).Prepare? {
      AggregationIsSound(At(s, d).facts, t.config.roundingAccount, t.config.tolerance, t.id);
    } else if At(s, d).ResumeUpload? || At(s, d).Upload? || At(s, d).CreateJournal? || At(s, d).CommitJournal? {
    } else {
      assert Step(s, d, t).log == s.log;
    }
  }

  lemma {:induction false} IssuedStays(s: System, events: seq<Event>)
    ensures Grows(s.log.issued, Run(s, events).log.issued)
  {
    hide Next;
    if events != [] {
      IssuedStays(s, events[..|events| - 1]);
      IssuedKept(Run(s, events[..|events| - 1]), events[|events| - 1]);
    }
  }

  /** Once a date is completed, the facts that are not in its journal by then stay unsettled for
      ever, whenever they arrive. */
  lemma LateFactsStay(s: System, events: seq<Event>, d: Date, id: nat)
    requires Inv(s) && IsCompleted(s, d)
    requires id in Run(s, events).db.facts && Run(s, events).db.facts[id].date == d && id !in Attached(s.db, d)
    ensures var f := Run(s, events).db.facts[id]; f.status.Pending? || f.status.NeedsReview?
  {
    CompletedIsFinal(s, events, d);
    RunKeeps(s, events);
    assert FactInv(Run(s, events), id);
  }

  lemma AttachedArePosted(s: System, d: Date)
    requires Inv(s) && IsCompleted(s, d)
    ensures forall id :: id in Attached(s.db, d) ==> id in s.db.facts && s.db.facts[id].status == FactStatus.Posted
  {
    assert DateInv(s, d);
  }

  /** A fact that was stored for the date and is posted later was posted with the date. */
  lemma PostedWasAttached(s: System, m: System, d: Date, id: nat)
    requires Inv(s) && Inv(m) && Grows(s.log.issued, m.log.issued)
    requires id in s.db.facts && s.db.facts[id].date == d && id in m.db.facts && m.db.facts[id].status == FactStatus.Posted
    ensures id in Attached(m.db, d)
  {
    assert FactInv(s, id) && FactInv(m, id);
    assert m.db.facts[id].Core() == s.db.facts[id].Core();
    assert m.db.facts[id].Core().date == m.db.facts[id].date && s.db.facts[id].Core().date == s.db.facts[id].date;
  }

  lemma AttachedDecides(s: System, m: System, d: Date)
    requires Inv(s) && Inv(m) && Grows(s.log.issued, m.log.issued)
    requires IsCompleted(m, d) && Attached(m.db, d) == Attached(s.db, d)
    ensures AllPosted(m, d, PendingIds(s.db, d)) <==> PendingIds(s.db, d) <= Attached(s.db, d)
  {
    AttachedArePosted(m, d);
    hide Inv, Attached;
    forall id | id in PendingIds(s.db, d) && id in m.db.facts && m.db.facts[id].status == FactStatus.Posted
      ensures id in Attached(m.db, d)
    {
      PostedWasAttached(s, m, d, id);
    }
  }

  lemma OtherDates(s: System, d: Date)
    requires Inv(s) && !Claimable(s, d)
    ensures d in s.db.runs
    ensures s.db.runs[d].Started? || IsCompleted(s, d) || (d in s.db.journals && HalfDone(s, d, s.db.journals[d]))
  {
    hide FactsInv, RemoteInv, RowInv, CountInv, ProcInv;
    assert DateInv(s, d);
  }

  lemma StartedIsNotPosted(s: System, call: seq<Event>, d: Date)
    requires Inv(s) && At(s, d).Idle? && d in s.db.runs && s.db.runs[d].Started?
    ensures !IsCompleted(Run(s, call), d)
  {
    StartedIsForever(s, call, d);
  }

  /** One close of one date. A call that gets all its answers, begun in any reachable state, ends with
      the run completed and every fact posted that was unsettled when it began, if and only if
      `WillPost` holds where it begins. */
  lemma CallPostsDay(payloadNotNull: bool, trace: seq<Event>, call: seq<Event>, d: Date, env: Environment,
                     listing: seq<Fact>)
    requires Faultless(env) && call != []
    requires var s := Run(Init(payloadNotNull), trace);
      && At(s, d).Idle? && Follows(s, call, d, env) && At(Run(s, call), d).Idle?
      && Lists(listing, s.db.facts, PendingIds(s.db, d))
    ensures var s, s' := Run(Init(payloadNotNull), trace), Run(Run(Init(payloadNotNull), trace), call);
      && (Claimable(s, d) || d in s.db.runs)
      && (AllPosted(s', d, PendingIds(s.db, d)) <==> WillPost(s, d, listing, env.config))
  {
    var s := ReachableHolds(payloadNotNull, trace);
    var m := Run(s, call);
    hide Run, Inv, Follows, Faultless, Lists, HalfDone;
    RunKeeps(s, call);
    IssuedStays(s, call);
    hide Grows;
    if Claimable(s, d) {
      PostingCall(s, call, d, env, listing);
      PostingEnds(s, m, d, listing, env.config);
    } else {
      OtherDates(s, d);
      if s.db.runs[d].Started? {
        StartedIsNotPosted(s, call, d);
      } else {
        if IsCompleted(s, d) { CompletedIsFinal(s, call, d); }
        else { OneCallRecovers(payloadNotNull, trace, call, d, env); }
        AttachedDecides(s, m, d);
      }
    }
  }

  lemma PostingEnds(s: System, m: System, d: Date, listing: seq<Fact>, c: Config)
    requires Inv(m) && At(m, d).Idle? && Claimable(s, d) && Posting(s, m, d, listing, c)
    ensures AllPosted(m, d, PendingIds(s.db, d)) <==> WillPost(s, d, listing, c)
  {
    if IsCompleted(m, d) { AttachedArePosted(m, d); }
    hide Inv, WillPost, PendingIds, Attached;
  }
}
