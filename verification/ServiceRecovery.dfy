/** One call of RunDailyClose finishes a half-done date. */
module ServiceRecovery {
  import opened Ledger
  import opened Store
  import opened Close
  import opened CloseInvariant
  import opened CloseSteps
  import opened CloseTheorems
  import opened CloseRecovery
  import opened Service

  /** Every answer is a success. */
  ghost predicate Faultless(env: Environment) {
    forall p: Proc, t: Turn :: Fits(p, t, env) ==> t.outcome.Done?
  }

  lemma {:induction false} CallIsFaultFree(s: System, events: seq<Event>, d: Date, env: Environment)
    requires Follows(s, events, d, env) && Faultless(env) && events != []
    ensures events[0] == Start(d) && FaultFree(Run(s, [Start(d)]), events[1..], d)
    ensures Run(s, events) == Run(Run(s, [Start(d)]), events[1..])
  {
    var before, e := events[..|events| - 1], events[|events| - 1];
    hide Fits, IsCompleted;
    if before == [] {
      assert events == [Start(d)];
    } else {
      CallIsFaultFree(s, before, d, env);
      assert events[1..][..|events| - 2] == before[1..];
      assert events == [Start(d)] + events[1..];
      RunConcat(s, [Start(d)], events[1..]);
    }
  }

  /** A call whose queries, remote calls and transactions all succeed, begun on a date that has a
      journal without attachment, ends with the run completed and all its facts posted. */
  lemma OneCallRecovers(payloadNotNull: bool, trace: seq<Event>, call: seq<Event>, d: Date, env: Environment)
    requires Faultless(env) && call != []
    requires var s := Run(Init(payloadNotNull), trace);
      && At(s, d).Idle? && d in s.db.journals && HalfDone(s, d, s.db.journals[d])
      && Follows(s, call, d, env) && At(Run(s, call), d).Idle?
    ensures var s, s' := Run(Init(payloadNotNull), trace), Run(Run(Init(payloadNotNull), trace), call);
      && IsCompleted(s', d) && Attached(s'.db, d) == Attached(s.db, d)
      && forall id :: id in Attached(s.db, d) ==> id in s'.db.facts && s'.db.facts[id].status == FactStatus.Posted
  {
    var s := ReachableHolds(payloadNotNull, trace);
    var begun := Run(s, [Start(d)]);
    RunKeeps(s, [Start(d)]);
    CallBegins(s, d);
    CallIsFaultFree(s, call, d, env);
    hide Follows, FaultFree, Faultless, Inv, Run;
    RecoveryProgress(begun, call[1..], d, Attached(s.db, d));
    RunKeeps(begun, call[1..]);
    RecoveredAtEnd(Run(s, call), d, Attached(s.db, d));
  }

  lemma CallBegins(s: System, d: Date)
    requires At(s, d).Idle? && d in s.db.journals && HalfDone(s, d, s.db.journals[d])
    ensures Recovering(Run(s, [Start(d)]), d, Attached(s.db, d))
  {
    assert [Start(d)][..0] == [];
    assert Run(s, []) == s;
    assert Run(s, [Start(d)]) == Goto(s, d, ResumeReadRun);
  }

  lemma RecoveredAtEnd(s: System, d: Date, ids: set<nat>)
    requires Inv(s) && Recovering(s, d, ids) && At(s, d).Idle?
    ensures IsCompleted(s, d) && Attached(s.db, d) == ids
    ensures forall id :: id in ids ==> id in s.db.facts && s.db.facts[id].status == FactStatus.Posted
  {
    assert DateInv(s, d);
  }
}
