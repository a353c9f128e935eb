/** What a call leaves behind when something outside the database fails. */
module FailedCalls {
  import opened Grouping
  import opened Ledger
  import opened Journal
  import opened Store
  import opened Close
  import opened CloseInvariant
  import opened CloseSteps
  import opened CloseTheorems
  import opened CloseRecovery
  import opened Service
  import opened FurtherJournals
  import opened PostedDays

  /** The call's own transactions all take effect and say so; its reads, its remote calls and its
      checks may end in any way. */
  predicate TransactionsSucceed(env: Environment) {
    env.createRun.Done? && env.resetRun.Done? && env.commitJournal.Done? && env.commitUpload.Done? && env.failRun.Done?
  }

  /** The run is as it was, failed or completed; or it is started, which only a refused rounding line
      can leave behind. */
  ghost predicate Left(s: System, m: System, d: Date, listing: seq<Fact>) {
    || SameAt(s.db.runs, m.db.runs, d)
    || (d in m.db.runs && (m.db.runs[d].RunFailed? || m.db.runs[d].Completed?))
    || (d in m.db.runs && m.db.runs[d].Started? && !RoundingFits(s.db, listing))
  }

  /** Where a call for a claimable date can be. */
  ghost predicate Trying(s: System, m: System, d: Date, listing: seq<Fact>, c: Config) {
    match At(m, d)
    case ResumeReadRun => m.db == s.db
    case ResumeReadJournal => m.db == s.db
    case ResumeListFacts(_) => false
    case ResumeFindUpload(_, _) => false
    case ResumeUpload(_, _) => false
    case ResumeCommit(_, _) => false
    case ListPending => m.db == s.db
    case ReadRun(facts) => m.db == s.db && Chosen(s, d, facts, c)
    case CreateRun(facts) => d !in s.db.runs && m.db == s.db && Chosen(s, d, facts, c)
    case ReadJournal(facts) => m.db == s.db && Chosen(s, d, facts, c)
    case ResetRun(facts) => m.db == s.db && Chosen(s, d, facts, c)
    case Prepare(facts) => SameButRun(s, m) && Chosen(s, d, facts, c)
    case FindJournal(draft) => SameButRun(s, m) && Planned(s, d, listing, draft, c)
    case CreateJournal(draft) => SameButRun(s, m) && Planned(s, d, listing, draft, c)
    case CommitJournal(draft, _) => SameButRun(s, m) && Planned(s, d, listing, draft, c)
    case FindUpload(_, _) => d in m.db.runs
    case Upload(_, _) => d in m.db.runs
    case CommitUpload(_, _) => d in m.db.runs
    case FailRun => d in m.db.runs
    case Idle => Left(s, m, d, listing)
  }

  lemma TryingReads(s: System, m: System, d: Date, t: Turn, listing: seq<Fact>)
    requires Trying(s, m, d, listing, t.config) && Claimable(s, d)
    requires At(m, d).ResumeReadRun? || At(m, d).ResumeReadJournal? || At(m, d).ReadRun? || At(m, d).ReadJournal?
      || At(m, d).CreateRun? || At(m, d).ResetRun?
    requires s.db.journals.Keys <= s.db.runs.Keys
    requires At(m, d).CreateRun? || At(m, d).ResetRun? ==> t.outcome.Done?
    ensures Trying(s, Step(m, d, t), d, listing, t.config)
  {
    hide Chosen, RoundingFits;
  }

  lemma TryingLists(s: System, m: System, d: Date, t: Turn, listing: seq<Fact>)
    requires Trying(s, m, d, listing, t.config) && At(m, d).ListPending?
    ensures Trying(s, Step(m, d, t), d, listing, t.config)
  {
    hide Lists, PendingIds, ValidForPosting, RoundingFits;
  }

  lemma TryingPrepares(s: System, m: System, d: Date, t: Turn, listing: seq<Fact>)
    requires Inv(m) && Trying(s, m, d, listing, t.config) && At(m, d).Prepare?
    requires Lists(listing, s.db.facts, PendingIds(s.db, d)) && Step(m, d, t) != m
    ensures Trying(s, Step(m, d, t), d, listing, t.config)
  {
    hide Step, Lists, Chosen, Sendable, Planned, RoundingFits, SameButRun, Inv, Left;
    if t.outcome.Done? {
      PostingPrepares(s, m, d, t, listing, At(m, d).facts);
    } else {
      PreparingFails(m, d, t);
      ClaimedThere(m, d);
      Failing(s, m, d, listing, t.config);
    }
  }

  lemma Failing(s: System, m: System, d: Date, listing: seq<Fact>, c: Config)
    requires d in m.db.runs
    ensures Trying(s, Goto(m, d, FailRun), d, listing, c)
  {}

  lemma PreparingFails(m: System, d: Date, t: Turn)
    requires At(m, d).Prepare? && !t.outcome.Done?
    ensures Step(m, d, t) == Goto(m, d, FailRun)
  {}

  lemma ClaimedThere(m: System, d: Date)
    requires Inv(m) && (At(m, d).Prepare? || At(m, d).FindJournal? || At(m, d).CreateJournal? || At(m, d).CommitJournal?)
    ensures d in m.db.runs && m.db.runs[d].Started?
  {
    hide FactsInv, RemoteInv, RowInv, CountInv, AttachedInv, ListedInv, DraftInv;
    assert DateInv(m, d);
  }

  /** Looking for the journal and making it leave the tables alone. */
  lemma Sending(m: System, d: Date, t: Turn)
    requires At(m, d).FindJournal? || At(m, d).CreateJournal?
    ensures var m' := Step(m, d, t); var draft := At(m, d).draft;
      && m'.db == m.db
      && (m' == m || At(m', d) == CreateJournal(draft) || At(m', d).FailRun?
          || (At(m', d).CommitJournal? && At(m', d).draft == draft))
  {
    hide JournalLookup, Wanted;
  }

  lemma TryingSends(s: System, m: System, d: Date, t: Turn, listing: seq<Fact>)
    requires Inv(m) && Trying(s, m, d, listing, t.config) && (At(m, d).FindJournal? || At(m, d).CreateJournal?)
    ensures Trying(s, Step(m, d, t), d, listing, t.config)
  {
    hide Step, Planned, Inv, Left, Chosen;
    ClaimedThere(m, d);
    Sending(m, d, t);
  }

  lemma Committing(s: System, m: System, d: Date, t: Turn, listing: seq<Fact>)
    requires Inv(m) && At(m, d).CommitJournal? && SameButRun(s, m) && Planned(s, d, listing, At(m, d).draft, t.config)
    requires Lists(listing, s.db.facts, PendingIds(s.db, d)) && t.outcome.Done?
    ensures var m' := Step(m, d, t);
      && d in m'.db.runs
      && if RoundingFits(s.db, listing) then At(m', d).FindUpload? else At(m', d).Idle? && m'.db.runs[d].Started?
  {
    var row := JournalRow(At(m, d).entry, None, Title(d), d);
    CommitsIfFits(s, m, d, listing, t.config, row);
    CommitStep(m, d, t);
    hide Step, Inv, Lists, CommitJournalTx, RoundingFits, Sendable, Title, PendingIds, Attached, IdsOf;
  }

  lemma TryingCommits(s: System, m: System, d: Date, t: Turn, listing: seq<Fact>)
    requires Inv(m) && Trying(s, m, d, listing, t.config) && At(m, d).CommitJournal? && t.outcome.Done?
    requires Lists(listing, s.db.facts, PendingIds(s.db, d))
    ensures Trying(s, Step(m, d, t), d, listing, t.config)
  {
    hide Step, Inv, Lists, RoundingFits, Planned, SameButRun, PendingIds, Chosen;
    Committing(s, m, d, t, listing);
  }

  lemma TryingAttaches(s: System, m: System, d: Date, t: Turn, listing: seq<Fact>)
    requires Trying(s, m, d, listing, t.config) && (At(m, d).FindUpload? || At(m, d).Upload? || At(m, d).CommitUpload? || At(m, d).FailRun?)
    requires At(m, d).CommitUpload? || At(m, d).FailRun? ==> t.outcome.Done?
    ensures Trying(s, Step(m, d, t), d, listing, t.config)
  {
    hide UploadLookup, MarkStatus, RoundingFits, CloseDescription;
  }

  lemma TryingStep(s: System, m: System, d: Date, t: Turn, listing: seq<Fact>, env: Environment)
    requires Inv(m) && Trying(s, m, d, listing, t.config) && Claimable(s, d)
    requires Lists(listing, s.db.facts, PendingIds(s.db, d)) && s.db.journals.Keys <= s.db.runs.Keys
    requires TransactionsSucceed(env) && Fits(At(m, d), t, env) && Step(m, d, t) != m
    ensures Trying(s, Step(m, d, t), d, listing, t.config)
  {
    var p := At(m, d);
    if p.Idle? { StandsStill(m, d, t); }
    hide Step, Claimable, Lists, Chosen, Planned, Left, SameButRun, Inv;
    if p.ListPending? { TryingLists(s, m, d, t, listing); }
    else if p.Prepare? { TryingPrepares(s, m, d, t, listing); }
    else if p.FindJournal? || p.CreateJournal? { TryingSends(s, m, d, t, listing); }
    else if p.CommitJournal? { TryingCommits(s, m, d, t, listing); }
    else if p.FindUpload? || p.Upload? || p.CommitUpload? || p.FailRun? { TryingAttaches(s, m, d, t, listing); }
    else { TryingReads(s, m, d, t, listing); }
  }

  lemma TryingStarts(s: System, d: Date, listing: seq<Fact>, c: Config)
    requires At(s, d).Idle?
    ensures Trying(s, s, d, listing, c) && Trying(s, Next(s, Start(d)), d, listing, c)
  {}

  lemma {:induction false} TryingCall(s: System, call: seq<Event>, d: Date, env: Environment, listing: seq<Fact>)
    requires Inv(s) && At(s, d).Idle? && Claimable(s, d) && TransactionsSucceed(env) && Follows(s, call, d, env)
    requires Lists(listing, s.db.facts, PendingIds(s.db, d))
    ensures Trying(s, Run(s, call), d, listing, env.config)
  {
    hide Inv, Lists, Fits, Trying, Claimable, Step, TransactionsSucceed;
    TryingStarts(s, d, listing, env.config);
    if call != [] {
      var before, e := call[..|call| - 1], call[|call| - 1];
      if before != [] {
        TryingCall(s, before, d, env, listing);
        RunKeeps(s, before);
        RowsHaveRuns(s);
        FitsConfig(Run(s, before), d, e.turn, env);
        TryingStep(s, Run(s, before), d, e.turn, listing, env);
      }
    }
  }

  lemma FitsConfig(m: System, d: Date, t: Turn, env: Environment)
    requires Fits(At(m, d), t, env)
    ensures t.config == env.config
  {}

  /** A call for a date without a run, or whose run failed without a journal row. However its reads, its
      remote calls and its checks end, once it is over and its own transactions have succeeded, the
      date can be taken up again or is completed: its run is absent or failed as before, newly failed,
      or completed. It is left started only if transaction 1 refused a rounding line. */
  lemma FailedCallsCanBeRepeated(payloadNotNull: bool, trace: seq<Event>, call: seq<Event>, d: Date, env: Environment,
                                 listing: seq<Fact>)
    requires TransactionsSucceed(env)
    requires var s := Run(Init(payloadNotNull), trace);
      && At(s, d).Idle? && Follows(s, call, d, env) && At(Run(s, call), d).Idle? && Claimable(s, d)
      && Lists(listing, s.db.facts, PendingIds(s.db, d))
    ensures var s := Run(Init(payloadNotNull), trace); var s' := Run(s, call);
      && (d in s'.db.runs && s'.db.runs[d].Started? ==> !RoundingFits(s.db, listing))
      && (d in s'.db.runs && !s'.db.runs[d].Started? ==> s'.db.runs[d].RunFailed? || s'.db.runs[d].Completed?)
  {
    var s := ReachableHolds(payloadNotNull, trace);
    TryingCall(s, call, d, env, listing);
    hide Run, Inv, Follows, Lists, RoundingFits;
  }
}
