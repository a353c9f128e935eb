/** When one close makes a remote journal, decided by what is stored and listed beforehand. */
module FurtherJournals {
  import opened Grouping
  import opened Ledger
  import opened Journal
  import opened JournalLaws
  import opened Bokio
  import opened Store
  import opened Close
  import opened CloseInvariant
  import opened CloseSteps
  import opened CloseTheorems
  import opened Service
  import opened ServiceRecovery

  // ---------------------------------------------------------------------------
  // The condition
  // ---------------------------------------------------------------------------

  /** The date has no run yet, or one that failed before a journal row was stored. */
  predicate Claimable(s: System, d: Date) {
    d in s.db.runs ==> s.db.runs[d].RunFailed? && d !in s.db.journals
  }

  /** The unsettled facts can be sent: there are some, they may be posted, and they balance up to
      the tolerance. */
  predicate Sendable(listing: seq<Fact>, c: Config) {
    listing != [] && ValidForPosting(listing, c.autoPost) && Aggregate(listing, c.roundingAccount, c.tolerance, 0).Balanced?
  }

  function SentItems(listing: seq<Fact>, c: Config): seq<JournalItem>
    requires Sendable(listing, c)
  {
    Aggregate(listing, c.roundingAccount, c.tolerance, 0).items
  }

  /** The remote side lists a journal that the matcher takes for this one. */
  ghost predicate Recognised(s: System, d: Date, items: seq<JournalItem>) {
    exists e :: e in s.remote.journals && SameEntry(s.remote.journals[e], Wanted(d, items))
  }

  ghost predicate WillMake(s: System, d: Date, listing: seq<Fact>, c: Config) {
    Claimable(s, d) && Sendable(listing, c) && !Recognised(s, d, SentItems(listing, c))
  }

  // ---------------------------------------------------------------------------
  // The order of the listing does not matter
  // ---------------------------------------------------------------------------

  lemma AnyListing(facts: map<nat, Fact>, ids: set<nat>, a: seq<Fact>, b: seq<Fact>)
    requires Lists(a, facts, ids) && Lists(b, facts, ids)
    ensures multiset(a) == multiset(b)
  {
    ListedFacts(facts, ids, a);
    ListedFacts(facts, ids, b);
    assert ToSet(a) == ToSet(b);
    DistinctSameSet(a, b);
  }

  lemma ListedFacts(facts: map<nat, Fact>, ids: set<nat>, a: seq<Fact>)
    requires Lists(a, facts, ids)
    ensures Distinct(a) && forall f :: f in a <==> f.id in ids && f.id in facts && facts[f.id] == f
  {
    forall f ensures f in a <==> f.id in ids && f.id in facts && facts[f.id] == f {
      if f in a { assert f.id in IdsOf(a); }
      if f.id in ids && f.id in facts && facts[f.id] == f {
        assert f.id in IdsOf(a);
        var g :| g in a && g.id == f.id;
      }
    }
  }

  lemma SameLines(facts: seq<Fact>, f: Fact, g: Fact)
    requires f.(id := 0) == g.(id := 0)
    ensures Lines(facts + [f]) == Lines(facts + [g])
  {
    assert LineOf(f) == LineOf(f.(id := 0)) == LineOf(g.(id := 0)) == LineOf(g);
  }

  lemma RoundingIdIsNotPrinted(facts: seq<Fact>, account: int, tolerance: int, id1: nat, id2: nat)
    ensures var r1, r2 := Aggregate(facts, account, tolerance, id1), Aggregate(facts, account, tolerance, id2);
      (r1.Balanced? <==> r2.Balanced?) && (r1.Balanced? ==> r1.items == r2.items)
  {
    hide Aggregate, ItemsOf, SumDirection;
    AggregateCases(facts, account, tolerance, id1);
    AggregateCases(facts, account, tolerance, id2);
    if Difference(facts) != 0 {
      SameLines(facts, RoundingFact(id1, facts[0].date, Difference(facts), account),
                RoundingFact(id2, facts[0].date, Difference(facts), account));
    }
  }

  /** What is sent does not depend on how the facts were listed, nor on the id of a rounding line. */
  lemma SameDraft(db: Db, d: Date, a: seq<Fact>, b: seq<Fact>, c: Config, id: nat)
    requires Lists(a, db.facts, PendingIds(db, d)) && Lists(b, db.facts, PendingIds(db, d))
    ensures (a == [] <==> b == []) && (ValidForPosting(a, c.autoPost) <==> ValidForPosting(b, c.autoPost))
    ensures var ra, rb := Aggregate(a, c.roundingAccount, c.tolerance, id), Aggregate(b, c.roundingAccount, c.tolerance, 0);
      (ra.Balanced? <==> rb.Balanced?) && (ra.Balanced? ==> ra.items == rb.items)
  {
    AnyListing(db.facts, PendingIds(db, d), a, b);
    assert |a| == |multiset(a)| == |multiset(b)| == |b|;
    forall f ensures f in a <==> f in b { assert f in multiset(a) <==> f in multiset(b); }
    forall f | f in a ensures f.date == d { assert f.id in IdsOf(a); }
    hide Aggregate, Lists, PendingIds;
    AggregatePermutation(a, b, c.roundingAccount, c.tolerance, id, d);
    RoundingIdIsNotPrinted(b, c.roundingAccount, c.tolerance, id, 0);
  }

  // ---------------------------------------------------------------------------
  // Along the call
  // ---------------------------------------------------------------------------

  /** No journal was made, by anyone, since `s`. */
  ghost predicate Quiet(s: System, m: System) {
    m.remote.journals == s.remote.journals && m.log.made == s.log.made
  }

  ghost predicate Decided(s: System, m: System, d: Date, listing: seq<Fact>, c: Config) {
    if WillMake(s, d, listing, c) then exists e :: MadeOn(m, e, d) && e !in s.log.made && e !in s.remote.journals
    else Quiet(s, m)
  }

  ghost predicate Chosen(s: System, d: Date, facts: seq<Fact>, c: Config) {
    Lists(facts, s.db.facts, PendingIds(s.db, d)) && facts != [] && ValidForPosting(facts, c.autoPost)
  }

  ghost predicate Drafted(listing: seq<Fact>, draft: Draft, c: Config) {
    Sendable(listing, c) && draft.items == SentItems(listing, c)
  }

  /** Where a call for a claimable date can be. */
  ghost predicate Claiming(s: System, m: System, d: Date, listing: seq<Fact>, c: Config) {
    match At(m, d)
    case ResumeReadRun => m.db == s.db && Quiet(s, m)
    case ResumeReadJournal => m.db == s.db && Quiet(s, m)
    case ResumeListFacts(_) => false
    case ResumeFindUpload(_, _) => false
    case ResumeUpload(_, _) => false
    case ResumeCommit(_, _) => false
    case ListPending => m.db == s.db && Quiet(s, m)
    case ReadRun(facts) => m.db == s.db && Quiet(s, m) && Chosen(s, d, facts, c)
    case CreateRun(facts) => d !in s.db.runs && m.db == s.db && Quiet(s, m) && Chosen(s, d, facts, c)
    case ReadJournal(facts) => m.db == s.db && Quiet(s, m) && Chosen(s, d, facts, c)
    case ResetRun(facts) => m.db == s.db && Quiet(s, m) && Chosen(s, d, facts, c)
    case Prepare(facts) => Quiet(s, m) && Chosen(s, d, facts, c)
    case FindJournal(draft) => Quiet(s, m) && Drafted(listing, draft, c)
    case CreateJournal(draft) => Quiet(s, m) && Drafted(listing, draft, c) && !Recognised(s, d, draft.items)
    case _ => Decided(s, m, d, listing, c)
  }

  /** Where a call for any other date can be: it never gets beyond reading the run. */
  ghost predicate Declining(s: System, m: System, d: Date) {
    && Quiet(s, m) && !Claimable(m, d)
    && match At(m, d)
       case CreateRun(_) => false
       case ReadJournal(_) => false
       case ResetRun(_) => false
       case Prepare(_) => false
       case FindJournal(_) => false
       case CreateJournal(_) => false
       case CommitJournal(_, _) => false
       case FindUpload(_, _) => false
       case Upload(_, _) => false
       case CommitUpload(_, _) => false
       case FailRun => false
       case _ => true
  }

  lemma ListStep(s: System, m: System, d: Date, t: Turn, listing: seq<Fact>)
    requires Claiming(s, m, d, listing, t.config) && Claimable(s, d)
    requires At(m, d).ListPending? && Lists(listing, s.db.facts, PendingIds(s.db, d))
    requires t.outcome.Done? && Step(m, d, t) != m
    ensures Claiming(s, Step(m, d, t), d, listing, t.config)
  {
    SameDraft(s.db, d, t.listing, listing, t.config, 0);
    hide Aggregate, Lists, PendingIds, ValidForPosting, Recognised;
  }

  lemma Preparing(m: System, d: Date, t: Turn, facts: seq<Fact>)
    requires At(m, d) == Prepare(facts) && t.outcome.Done? && Step(m, d, t) != m
    ensures var m' := Step(m, d, t); var r := Aggregate(facts, t.config.roundingAccount, t.config.tolerance, t.id);
      && Quiet(m, m')
      && (r.Balanced? ==> At(m', d).FindJournal? && At(m', d).draft.items == r.items)
      && (r.Unbalanced? ==> At(m', d).FailRun?)
  {
    hide Aggregate;
  }

  lemma PrepareStep(s: System, m: System, d: Date, t: Turn, listing: seq<Fact>, facts: seq<Fact>)
    requires At(m, d) == Prepare(facts) && Quiet(s, m) && Chosen(s, d, facts, t.config)
    requires Lists(listing, s.db.facts, PendingIds(s.db, d)) && t.outcome.Done? && Step(m, d, t) != m
    ensures var m' := Step(m, d, t);
      && Quiet(s, m')
      && if Sendable(listing, t.config) then At(m', d).FindJournal? && Drafted(listing, At(m', d).draft, t.config)
         else At(m', d).FailRun?
  {
    SameDraft(s.db, d, facts, listing, t.config, t.id);
    Preparing(m, d, t, facts);
    hide Aggregate, Lists, PendingIds, ValidForPosting, Step;
  }

  lemma PreparedGoesOn(s: System, m: System, d: Date, t: Turn, listing: seq<Fact>)
    requires Claiming(s, m, d, listing, t.config) && Claimable(s, d)
    requires At(m, d).Prepare? && Lists(listing, s.db.facts, PendingIds(s.db, d))
    requires t.outcome.Done? && Step(m, d, t) != m
    ensures Claiming(s, Step(m, d, t), d, listing, t.config)
  {
    hide Step, Lists, Chosen, Sendable, Drafted, Recognised, Quiet;
    PrepareStep(s, m, d, t, listing, At(m, d).facts);
  }

  lemma FindStep(s: System, m: System, d: Date, t: Turn, listing: seq<Fact>)
    requires Claiming(s, m, d, listing, t.config) && Claimable(s, d) && At(m, d).FindJournal?
    requires t.outcome.Done? && Step(m, d, t) != m
    ensures Claiming(s, Step(m, d, t), d, listing, t.config)
  {
    hide Aggregate, ValidForPosting, SameEntry, Wanted;
  }

  lemma CreateStep(s: System, m: System, d: Date, t: Turn, listing: seq<Fact>)
    requires Claiming(s, m, d, listing, t.config) && Claimable(s, d) && At(m, d).CreateJournal?
    requires s.log.made <= s.remote.journals.Keys
    requires t.outcome.Done? && Step(m, d, t) != m
    ensures Claiming(s, Step(m, d, t), d, listing, t.config)
  {
    hide Aggregate, ValidForPosting, Recognised;
    assert MadeOn(Step(m, d, t), t.id, d);
  }

  /** The call is past making its journal, or will not make one. */
  predicate PastMaking(p: Proc) {
    p.Idle? || p.CommitJournal? || p.FindUpload? || p.Upload? || p.CommitUpload? || p.FailRun?
  }

  lemma PastMakingStep(m: System, d: Date, t: Turn)
    requires PastMaking(At(m, d)) && t.outcome.Done?
    ensures Quiet(m, Step(m, d, t)) && PastMaking(At(Step(m, d, t), d))
  {
    hide CommitJournalTx, CommitUploadTx, UploadLookup;
  }

  lemma DecidedStep(s: System, m: System, d: Date, t: Turn, listing: seq<Fact>)
    requires Decided(s, m, d, listing, t.config) && PastMaking(At(m, d)) && t.outcome.Done?
    ensures Claiming(s, Step(m, d, t), d, listing, t.config)
  {
    hide WillMake, Step;
    PastMakingStep(m, d, t);
    if WillMake(s, d, listing, t.config) {
      var e :| MadeOn(m, e, d) && e !in s.log.made && e !in s.remote.journals;
      assert MadeOn(Step(m, d, t), e, d);
    }
  }

  lemma ReadingStep(s: System, m: System, d: Date, t: Turn, listing: seq<Fact>)
    requires Claiming(s, m, d, listing, t.config) && Claimable(s, d)
    requires At(m, d).ResumeReadRun? || At(m, d).ResumeReadJournal? || At(m, d).ReadRun? || At(m, d).CreateRun?
      || At(m, d).ReadJournal? || At(m, d).ResetRun?
    requires s.db.journals.Keys <= s.db.runs.Keys
    requires t.outcome.Done?
    ensures Claiming(s, Step(m, d, t), d, listing, t.config)
  {
    hide Chosen, Decided;
  }

  lemma ClaimingStep(s: System, m: System, d: Date, t: Turn, listing: seq<Fact>)
    requires Claiming(s, m, d, listing, t.config) && Claimable(s, d)
    requires Lists(listing, s.db.facts, PendingIds(s.db, d))
    requires s.log.made <= s.remote.journals.Keys && s.db.journals.Keys <= s.db.runs.Keys
    requires t.outcome.Done? && Step(m, d, t) != m
    ensures Claiming(s, Step(m, d, t), d, listing, t.config)
  {
    var p := At(m, d);
    hide Step, Claimable, Lists, Chosen, Drafted, Decided, Recognised, Quiet;
    if p.ListPending? { ListStep(s, m, d, t, listing); }
    else if p.Prepare? { PreparedGoesOn(s, m, d, t, listing); }
    else if p.FindJournal? { FindStep(s, m, d, t, listing); }
    else if p.CreateJournal? { CreateStep(s, m, d, t, listing); }
    else if PastMaking(p) { DecidedStep(s, m, d, t, listing); }
    else { ReadingStep(s, m, d, t, listing); }
  }

  lemma DecliningStep(s: System, m: System, d: Date, t: Turn)
    requires Inv(m) && Declining(s, m, d) && t.outcome.Done?
    ensures Declining(s, Step(m, d, t), d)
  {
    hide FactsInv, RemoteInv, RowInv, CountInv, AttachedInv, ListedInv, HasUpload, NoUploadYet;
    assert DateInv(m, d);
  }

  // ---------------------------------------------------------------------------
  // The whole call
  // ---------------------------------------------------------------------------

  lemma CallStarts(s: System, d: Date, listing: seq<Fact>, c: Config)
    requires At(s, d).Idle?
    ensures if Claimable(s, d) then Claiming(s, Next(s, Start(d)), d, listing, c) else Declining(s, Next(s, Start(d)), d)
  {}

  lemma {:induction false} AlongTheCall(s: System, call: seq<Event>, d: Date, env: Environment, listing: seq<Fact>)
    requires Inv(s) && At(s, d).Idle? && Faultless(env) && Follows(s, call, d, env) && call != []
    requires Lists(listing, s.db.facts, PendingIds(s.db, d))
    ensures Inv(Run(s, call))
    ensures if Claimable(s, d) then Claiming(s, Run(s, call), d, listing, env.config) else Declining(s, Run(s, call), d)
  {
    hide Inv, Lists, Fits, Claiming, Declining, Claimable, Step;
    RunKeeps(s, call);
    var before, e := call[..|call| - 1], call[|call| - 1];
    if before == [] {
      CallStarts(s, d, listing, env.config);
    } else {
      AlongTheCall(s, before, d, env, listing);
      var m := Run(s, before);
      AnswersWell(m, d, e.turn, env);
      if Claimable(s, d) {
        RowsHaveRuns(s);
        ClaimingStep(s, m, d, e.turn, listing);
      } else {
        DecliningStep(s, m, d, e.turn);
      }
    }
  }

  lemma AnswersWell(m: System, d: Date, t: Turn, env: Environment)
    requires Faultless(env) && Fits(At(m, d), t, env)
    ensures t.outcome.Done? && t.config == env.config
  {}

  lemma RowsHaveRuns(s: System)
    requires Inv(s)
    ensures s.log.made <= s.remote.journals.Keys && s.db.journals.Keys <= s.db.runs.Keys
  {
    forall d | d in s.db.journals ensures d in s.db.runs { assert DateInv(s, d); }
  }

  /** A call that gets its answers, begun in any reachable state, makes a further journal for its
      date if and only if the date's run is absent or failed without a journal row, its unsettled
      facts can be sent, and the remote side lists no journal with their title, date and items. */
  lemma CallMakesJournal(payloadNotNull: bool, trace: seq<Event>, call: seq<Event>, d: Date, env: Environment,
                         listing: seq<Fact>)
    requires Faultless(env) && call != []
    requires var s := Run(Init(payloadNotNull), trace);
      && At(s, d).Idle? && Follows(s, call, d, env) && At(Run(s, call), d).Idle?
      && Lists(listing, s.db.facts, PendingIds(s.db, d))
    ensures var s, s' := Run(Init(payloadNotNull), trace), Run(Run(Init(payloadNotNull), trace), call);
      (exists e :: MadeOn(s', e, d) && !MadeOn(s, e, d)) <==> WillMake(s, d, listing, env.config)
  {
    var s := ReachableHolds(payloadNotNull, trace);
    hide Run, Inv, Follows, Faultless, Lists, WillMake;
    AlongTheCall(s, call, d, env, listing);
    hide Claimable;
    CallEnds(s, Run(s, call), d, listing, env.config);
  }

  lemma CallEnds(s: System, m: System, d: Date, listing: seq<Fact>, c: Config)
    requires At(m, d).Idle?
    requires if Claimable(s, d) then Claiming(s, m, d, listing, c) else Declining(s, m, d)
    ensures (exists e :: MadeOn(m, e, d) && !MadeOn(s, e, d)) <==> WillMake(s, d, listing, c)
  {
    hide Sendable, Recognised;
    if WillMake(s, d, listing, c) {
      var e :| MadeOn(m, e, d) && e !in s.log.made && e !in s.remote.journals;
      assert !MadeOn(s, e, d);
    }
  }

  /** When a date gets a second journal. Its run failed without a journal row although a journal
      `e` was made for it, which takes a lost response; whether the next call makes another one is
      then decided by whether the remote side lists what the unsettled facts add up to by now. */
  lemma SecondJournal(payloadNotNull: bool, trace: seq<Event>, call: seq<Event>, d: Date, env: Environment,
                      listing: seq<Fact>, e: nat)
    requires Faultless(env) && call != []
    requires var s := Run(Init(payloadNotNull), trace);
      && At(s, d).Idle? && Follows(s, call, d, env) && At(Run(s, call), d).Idle?
      && Lists(listing, s.db.facts, PendingIds(s.db, d)) && Sendable(listing, env.config)
      && d in s.db.runs && s.db.runs[d].RunFailed? && d !in s.db.journals && MadeOn(s, e, d)
    ensures var s, s' := Run(Init(payloadNotNull), trace), Run(Run(Init(payloadNotNull), trace), call);
      && d in s.log.lost
      && ((exists x :: x != e && MadeOn(s', x, d) && !MadeOn(s, x, d)) <==> !Recognised(s, d, SentItems(listing, env.config)))
  {
    var s := ReachableHolds(payloadNotNull, trace);
    CallMakesJournal(payloadNotNull, trace, call, d, env, listing);
    hide Run, Follows, Faultless, Lists, Sendable, Recognised, SentItems;
    assert DateInv(s, d);
  }
}
