/** The store itself: tables that the queries change row by row, inside transactions that
    are rolled back when a query reports an error. */
module Database {
  import opened Grouping
  import opened Ledger
  import opened Store

  class Database {
    var facts: map<nat, Fact>
    var runs: map<Date, RunStatus>
    var attached: map<Date, set<nat>>
    var journals: map<Date, JournalRow>
    const payloadNotNull: bool

    constructor (payloadNotNull: bool)
      ensures Content() == Db(map[], map[], map[], map[], payloadNotNull)
    {
      facts, runs, attached, journals := map[], map[], map[], map[];
      this.payloadNotNull := payloadNotNull;
    }

    function Content(): Db
      reads this
    {
      Db(facts, runs, attached, journals, payloadNotNull)
    }

    method Restore(saved: Db)
      requires saved.payloadNotNull == payloadNotNull
      modifies this
      ensures Content() == saved
    {
      facts, runs, attached, journals := saved.facts, saved.runs, saved.attached, saved.journals;
    }

    // -------------------------------------------------------------------------
    // UpsertAccountingFacts
    // -------------------------------------------------------------------------

    /** Reads the status of every row of the group. */
    method GroupIsLocked(group: string) returns (locked: bool)
      ensures locked <==> exists id :: (
        && id in facts && facts[id].group == group
        && (facts[id].status == Batched || facts[id].status == FactStatus.Posted || facts[id].status == Reversed))
    {
      locked := false;
      var rows := set id | id in facts && facts[id].group == group;
      var rest := rows;
      while rest != {}
        invariant rest <= rows
        invariant locked <==> exists id :: id in rows - rest && Locks(facts[id].status)
        decreases rest
      {
        var id :| id in rest;
        if Locks(facts[id].status) { locked := true; }
        rest := rest - {id};
      }
    }

    /** DELETE of one group's rows; a row that is attached to a run cannot be deleted. */
    method DeleteGroup(group: string) returns (ok: bool)
      modifies this`facts
      ensures ok <==> Detached(attached, InGroups(old(facts), {group}))
      ensures facts == if ok then old(facts) - InGroups(old(facts), {group}) else old(facts)
    {
      var rows := InGroups(facts, {group});
      ok := Detached(attached, rows);
      if ok { facts := facts - rows; }
    }

    /** One group after the other: refuse if a row is locked, else delete the rows. */
    method ClearGroups(groups: set<string>) returns (ok: bool)
      modifies this`facts
      ensures ok <==> Replaceable(old(Content()), InGroups(old(facts), groups))
      ensures ok ==> facts == old(facts) - InGroups(old(facts), groups)
    {
      var rest := groups;
      while rest != {}
        invariant rest <= groups
        invariant facts == old(facts) - InGroups(old(facts), groups - rest)
        invariant Replaceable(old(Content()), InGroups(old(facts), groups - rest))
        decreases rest
      {
        var group :| group in rest;
        ghost var cleared := groups - rest;
        ClearStep(old(facts), cleared, group);
        var locked := GroupIsLocked(group);
        if locked {
          LockedGroup(old(Content()), groups, group, facts);
          return false;
        }
        assert forall id :: id in InGroups(old(facts), {group}) ==> id in facts && !Locks(old(facts)[id].status) by {
          forall id | id in InGroups(old(facts), {group}) ensures id in facts && !Locks(old(facts)[id].status) {
            assert id in InGroups(facts, {group});
          }
        }
        var deleted := DeleteGroup(group);
        if !deleted {
          AttachedGroup(old(Content()), groups, group);
          return false;
        }
        ClearedGroup(old(Content()), cleared, group);
        rest := rest - {group};
        assert groups - rest == cleared + {group};
      }
      assert groups - rest == groups;
      return true;
    }

    /** The rows, in the order given; a duplicate id, a duplicate key or a missing payload
        is an error. */
    method InsertFacts(newFacts: seq<Fact>) returns (ok: bool)
      modifies this`facts
      ensures ok <==> InsertAll(old(facts), newFacts, payloadNotNull).Some?
      ensures ok ==> Some(facts) == InsertAll(old(facts), newFacts, payloadNotNull)
    {
      for i := 0 to |newFacts|
        invariant InsertAll(old(facts), newFacts[..i], payloadNotNull) == Some(facts)
      {
        assert newFacts[..i + 1][..i] == newFacts[..i];
        if !CanInsert(facts, newFacts[i], payloadNotNull) {
          InsertAllPrefix(old(facts), newFacts, i + 1, payloadNotNull);
          return false;
        }
        facts := facts[newFacts[i].id := newFacts[i]];
      }
      assert newFacts[..|newFacts|] == newFacts;
      return true;
    }

    method UpsertAccountingFacts(newFacts: seq<Fact>) returns (ok: bool)
      modifies this`facts
      ensures ok <==> UpsertFacts(old(Content()), newFacts).Some?
      ensures ok ==> Some(Content()) == UpsertFacts(old(Content()), newFacts)
    {
      var groups := {};
      for i := 0 to |newFacts|
        invariant groups == GroupsOf(newFacts[..i])
      {
        assert newFacts[..i + 1] == newFacts[..i] + [newFacts[i]];
        groups := groups + {newFacts[i].group};
      }
      assert newFacts[..|newFacts|] == newFacts;
      ok := ClearGroups(groups);
      if ok { ok := InsertFacts(newFacts); }
    }

    // -------------------------------------------------------------------------
    // Run, attachment and journal rows
    // -------------------------------------------------------------------------

    /** INSERT of a run; the unique index allows one per date. */
    method CreatePostingRun(d: Date) returns (ok: bool)
      modifies this`runs
      ensures ok <==> d !in old(runs)
      ensures runs == if ok then old(runs)[d := Started] else old(runs)
    {
      ok := d !in runs;
      if ok { runs := runs[d := Started]; }
    }

    /** UPDATE of a run's status; no row, no change. */
    method UpdatePostingRun(d: Date, status: RunStatus)
      modifies this`runs
      ensures runs == if d in old(runs) then old(runs)[d := status] else old(runs)
    {
      if d in runs { runs := runs[d := status]; }
    }

    /** Attaching a fact that is no longer stored breaks the foreign key. */
    method AttachFactsToRun(d: Date, ids: seq<nat>) returns (ok: bool)
      modifies this`attached
      ensures ok <==> ToSet(ids) <= facts.Keys
      ensures ok ==> attached == old(attached)[d := Attached(old(Content()), d) + ToSet(ids)]
    {
      var before := Attached(Content(), d);
      attached := attached[d := before];
      assert before + ToSet(ids[..0]) == before;
      for i := 0 to |ids|
        invariant ToSet(ids[..i]) <= facts.Keys
        invariant attached == old(attached)[d := before + ToSet(ids[..i])]
      {
        if ids[i] !in facts {
          assert ids[i] in ToSet(ids);
          return false;
        }
        assert ToSet(ids[..i + 1]) == ToSet(ids[..i]) + {ids[i]};
        assert before + ToSet(ids[..i + 1]) == attached[d] + {ids[i]};
        attached := attached[d := attached[d] + {ids[i]}];
      }
      assert ids[..|ids|] == ids;
      return true;
    }

    method MarkFactsStatus(ids: seq<nat>, status: FactStatus)
      modifies this`facts
      ensures facts == MarkStatus(old(facts), ToSet(ids), status)
    {
      for i := 0 to |ids|
        invariant facts == MarkStatus(old(facts), ToSet(ids[..i]), status)
      {
        assert ids[..i + 1] == ids[..i] + [ids[i]];
        if ids[i] in facts { facts := facts[ids[i] := facts[ids[i]].(status := status)]; }
      }
      assert ids[..|ids|] == ids;
    }

    method UpsertBokioJournal(d: Date, row: JournalRow) returns (ok: bool)
      modifies this`journals
      ensures ok <==> d in runs
      ensures journals == if ok then old(journals)[d := row] else old(journals)
    {
      ok := d in runs;
      if ok { journals := journals[d := row]; }
    }

    /** SELECT of the given rows, in some order. */
    method ListFacts(ids: set<nat>) returns (listing: seq<Fact>)
      requires ids <= facts.Keys && forall id :: id in ids ==> facts[id].id == id
      ensures Lists(listing, facts, ids)
    {
      listing := [];
      var rest := ids;
      while rest != {}
        invariant rest <= ids
        invariant Lists(listing, facts, ids - rest)
        decreases rest
      {
        var id :| id in rest;
        ListsSnoc(listing, facts, ids - rest, id);
        listing := listing + [facts[id]];
        rest := rest - {id};
        assert ids - rest == (ids - (rest + {id})) + {id};
      }
      assert ids - rest == ids;
    }

    // -------------------------------------------------------------------------
    // The transactions of a close
    // -------------------------------------------------------------------------

    method JournalQueries(d: Date, ids: seq<nat>, rounding: Option<Fact>, row: JournalRow) returns (ok: bool)
      modifies this
      ensures ok <==> CommitJournalTx(old(Content()), d, ToSet(ids), rounding, row).Some?
      ensures ok ==> Some(Content()) == CommitJournalTx(old(Content()), d, ToSet(ids), rounding, row)
    {
      if rounding.Some? {
        ok := UpsertAccountingFacts([rounding.value]);
        if !ok { return; }
      }
      ok := AttachFactsToRun(d, ids);
      if !ok { return; }
      MarkFactsStatus(ids, Batched);
      ok := UpsertBokioJournal(d, row);
      if !ok { return; }
      UpdatePostingRun(d, JournalCreated);
    }

    /** Transaction 1: all of it or none of it. */
    method CommitJournal(d: Date, ids: seq<nat>, rounding: Option<Fact>, row: JournalRow, outcome: Outcome)
      returns (acknowledged: bool)
      modifies this
      ensures var attempt := CommitJournalTx(old(Content()), d, ToSet(ids), rounding, row);
        && Content() == (if attempt.Some? && (outcome.Done? || outcome.Lost?) then attempt.value else old(Content()))
        && (acknowledged <==> attempt.Some? && outcome.Done?)
        && Content() == Settled(old(Content()), attempt, outcome) && acknowledged == Acknowledged(attempt, outcome)
    {
      var saved := Content();
      var ok := JournalQueries(d, ids, rounding, row);
      if !ok || outcome.Aborted? { Restore(saved); }
      acknowledged := ok && outcome.Done?;
    }

    /** Transaction 2. */
    method CommitUpload(d: Date, ids: seq<nat>, row: JournalRow, outcome: Outcome) returns (acknowledged: bool)
      modifies this
      ensures var attempt := CommitUploadTx(old(Content()), d, ToSet(ids), row);
        && Content() == (if attempt.Some? && (outcome.Done? || outcome.Lost?) then attempt.value else old(Content()))
        && (acknowledged <==> attempt.Some? && outcome.Done?)
        && Content() == Settled(old(Content()), attempt, outcome) && acknowledged == Acknowledged(attempt, outcome)
    {
      var saved := Content();
      var ok := UpsertBokioJournal(d, row);
      if ok {
        MarkFactsStatus(ids, Posted);
        UpdatePostingRun(d, Completed);
      }
      if !ok || outcome.Aborted? { Restore(saved); }
      acknowledged := ok && outcome.Done?;
    }

    /** The transaction in which a webhook stores its facts. */
    method IngestFacts(newFacts: seq<Fact>, outcome: Outcome) returns (acknowledged: bool)
      modifies this
      ensures var attempt := UpsertFacts(old(Content()), newFacts);
        && Content() == (if attempt.Some? && (outcome.Done? || outcome.Lost?) then attempt.value else old(Content()))
        && (acknowledged <==> attempt.Some? && outcome.Done?)
        && Content() == Settled(old(Content()), attempt, outcome) && acknowledged == Acknowledged(attempt, outcome)
    {
      var saved := Content();
      var ok := UpsertAccountingFacts(newFacts);
      if !ok || outcome.Aborted? { Restore(saved); }
      acknowledged := ok && outcome.Done?;
    }
  }

  lemma ListsSnoc(listing: seq<Fact>, facts: map<nat, Fact>, ids: set<nat>, id: nat)
    requires Lists(listing, facts, ids) && id !in ids && id in facts && facts[id].id == id
    ensures Lists(listing + [facts[id]], facts, ids + {id})
  {
    var all := listing + [facts[id]];
    assert IdsOf(all) == IdsOf(listing) + {id} by {
      assert forall f :: f in all <==> f in listing || f == facts[id];
      assert facts[id] in all;
    }
    forall i | 0 <= i < |listing| ensures listing[i].id != id { assert listing[i] in listing; }
  }

  lemma ClearStep(facts: map<nat, Fact>, done: set<string>, group: string)
    ensures InGroups(facts, done + {group}) == InGroups(facts, done) + InGroups(facts, {group})
    ensures group !in done ==> InGroups(facts - InGroups(facts, done), {group}) == InGroups(facts, {group})
  {}

  lemma LockedGroup(db: Db, groups: set<string>, group: string, left: map<nat, Fact>)
    requires group in groups && left.Keys <= db.facts.Keys && forall id :: id in left ==> left[id] == db.facts[id]
    requires exists id :: id in left && left[id].group == group && Locks(left[id].status)
    ensures !Replaceable(db, InGroups(db.facts, groups))
  {
    var id :| id in left && left[id].group == group && Locks(left[id].status);
    assert id in InGroups(db.facts, groups);
  }

  lemma ClearedGroup(db: Db, done: set<string>, group: string)
    requires Replaceable(db, InGroups(db.facts, done)) && group !in done
    requires forall id :: id in InGroups(db.facts, {group}) ==> !Locks(db.facts[id].status)
    requires Detached(db.attached, InGroups(db.facts, {group}))
    ensures Replaceable(db, InGroups(db.facts, done + {group}))
  {
    ClearStep(db.facts, done, group);
    forall d | d in db.attached ensures db.attached[d] !! InGroups(db.facts, done + {group}) {
      assert db.attached[d] !! InGroups(db.facts, {group});
    }
  }

  lemma AttachedGroup(db: Db, groups: set<string>, group: string)
    requires group in groups
    requires !Detached(db.attached, InGroups(db.facts, {group}))
    ensures !Replaceable(db, InGroups(db.facts, groups))
  {
    var d :| d in db.attached && !(db.attached[d] !! InGroups(db.facts, {group}));
    var id :| id in db.attached[d] && id in InGroups(db.facts, {group});
    assert id in InGroups(db.facts, groups);
  }

  lemma {:induction false} InsertAllPrefix(facts: map<nat, Fact>, new_: seq<Fact>, i: nat, payloadNotNull: bool)
    requires i <= |new_| && InsertAll(facts, new_[..i], payloadNotNull).None?
    ensures InsertAll(facts, new_, payloadNotNull).None?
    decreases |new_|
  {
    if i < |new_| {
      assert new_[..|new_| - 1][..i] == new_[..i];
      InsertAllPrefix(facts, new_[..|new_| - 1], i, payloadNotNull);
    } else {
      assert new_[..i] == new_;
    }
  }
}
