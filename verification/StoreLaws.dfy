/** What replacing whole source groups guarantees: a webhook delivered twice leaves one copy
    of its facts, groups it does not name stay as they are, and locked facts are never lost. */
module StoreLaws {
  import opened Grouping
  import opened Ledger
  import opened Store

  /** The ids among the new facts are distinct, and so are their unique keys. */
  predicate NoClash(facts: seq<Fact>) {
    forall i, j :: 0 <= i < j < |facts| ==> facts[i].id != facts[j].id && !SameKey(facts[i], facts[j])
  }

  predicate Insertable(kept: map<nat, Fact>, facts: seq<Fact>, payloadNotNull: bool) {
    && NoClash(facts)
    && forall f :: f in facts ==> f.id !in kept && (payloadNotNull ==> f.payload.Some?)
  }

  /** Rows of other groups cannot stand in the way of an insertion. */
  predicate OtherGroups(kept: map<nat, Fact>, groups: set<string>) {
    forall id :: id in kept ==> kept[id].group !in groups
  }

  lemma NoClashSnoc(front: seq<Fact>, f: Fact)
    ensures NoClash(front + [f]) <==> NoClash(front) && forall e :: e in front ==> e.id != f.id && !SameKey(e, f)
  {
    var all := front + [f];
    if NoClash(all) {
      assert all[..|front|] == front;
      forall e | e in front ensures e.id != f.id && !SameKey(e, f) {
        var i :| 0 <= i < |front| && front[i] == e;
        assert all[i] == e && all[|front|] == f;
      }
    }
  }

  lemma LastInsert(kept: map<nat, Fact>, m: map<nat, Fact>, front: seq<Fact>, f: Fact, payloadNotNull: bool)
    requires OtherGroups(kept, {f.group})
    requires m.Keys == kept.Keys + IdsOf(front)
    requires forall id :: id in kept ==> m[id] == kept[id]
    requires forall e :: e in front ==> e.id in m && m[e.id] == e
    ensures CanInsert(m, f, payloadNotNull) <==>
      && f.id !in kept && (payloadNotNull ==> f.payload.Some?)
      && forall e :: e in front ==> e.id != f.id && !SameKey(e, f)
  {
    forall id | id in m && SameKey(m[id], f) ensures exists e :: e in front && SameKey(e, f) {
      assert id !in kept;
      var e :| e in front && e.id == id;
    }
  }

  lemma OtherGroupsFront(kept: map<nat, Fact>, front: seq<Fact>, f: Fact)
    requires OtherGroups(kept, GroupsOf(front + [f]))
    ensures OtherGroups(kept, GroupsOf(front)) && OtherGroups(kept, {f.group})
  {
    assert forall e :: e in front ==> e in front + [f];
    assert f in front + [f];
    assert GroupsOf(front) <= GroupsOf(front + [f]) && f.group in GroupsOf(front + [f]);
  }

  lemma {:induction false} InsertCondition(kept: map<nat, Fact>, facts: seq<Fact>, payloadNotNull: bool)
    requires OtherGroups(kept, GroupsOf(facts))
    ensures InsertAll(kept, facts, payloadNotNull).Some? <==> Insertable(kept, facts, payloadNotNull)
    decreases |facts|
  {
    hide SameKey, CanInsert, OtherGroups, GroupsOf;
    if facts != [] {
      var front, f := facts[..|facts| - 1], facts[|facts| - 1];
      assert facts == front + [f];
      OtherGroupsFront(kept, front, f);
      InsertCondition(kept, front, payloadNotNull);
      NoClashSnoc(front, f);
      if InsertAll(kept, front, payloadNotNull).Some? {
        var m := InsertAll(kept, front, payloadNotNull).value;
        InsertAllEffect(kept, front, payloadNotNull);
        LastInsert(kept, m, front, f, payloadNotNull);
      }
    }
  }

  /** When an ingest commits: no row of a named group is locked or attached, no new id is
      taken outside those groups, and the new facts do not clash among themselves. */
  lemma UpsertCondition(db: Db, facts: seq<Fact>)
    ensures var ids := InGroups(db.facts, GroupsOf(facts));
      UpsertFacts(db, facts).Some? <==> Replaceable(db, ids) && Insertable(db.facts - ids, facts, db.payloadNotNull)
  {
    InsertCondition(db.facts - InGroups(db.facts, GroupsOf(facts)), facts, db.payloadNotNull);
  }

  function Where(facts: map<nat, Fact>, groups: set<string>): map<nat, Fact> {
    map id | id in facts && facts[id].group in groups :: facts[id]
  }

  function Without(facts: map<nat, Fact>, groups: set<string>): map<nat, Fact> {
    map id | id in facts && facts[id].group !in groups :: facts[id]
  }

  lemma KeptRows(facts: map<nat, Fact>, groups: set<string>)
    ensures facts - InGroups(facts, groups) == Without(facts, groups)
  {}

  /** Group replacement. After a committed ingest every group it names holds exactly the new
      facts, every other group holds what it held, and the other tables are as before. If a
      row of a named group is batched, posted or reversed, nothing is committed at all. */
  lemma GroupsReplaced(db: Db, facts: seq<Fact>)
    ensures UpsertFacts(db, facts).Some? ==>
      var db' := UpsertFacts(db, facts).value; var groups := GroupsOf(facts);
      && Where(db'.facts, groups).Keys == IdsOf(facts)
      && (forall f :: f in facts ==> f.id in db'.facts && db'.facts[f.id] == f)
      && Without(db'.facts, groups) == Without(db.facts, groups)
      && db' == db.(facts := db'.facts)
    ensures (exists id :: id in db.facts && db.facts[id].group in GroupsOf(facts) && Locks(db.facts[id].status))
      ==> UpsertFacts(db, facts).None?
  {
    var groups := GroupsOf(facts);
    var kept := db.facts - InGroups(db.facts, groups);
    KeptRows(db.facts, groups);
    if UpsertFacts(db, facts).Some? {
      var m := UpsertFacts(db, facts).value.facts;
      InsertAllEffect(kept, facts, db.payloadNotNull);
      forall id | id in IdsOf(facts) ensures id in Where(m, groups) {
        var f :| f in facts && f.id == id;
      }
      forall id | id in m && id !in kept ensures m[id].group in groups {
        var f :| f in facts && f.id == id;
      }
    }
  }

  /** No stored row stands in the way: none of a named group is batched, posted, reversed or attached
      to a run, and none of another group has an id of the new facts. */
  predicate Clears(db: Db, facts: seq<Fact>) {
    && (forall id, f :: id in db.facts && f in facts && db.facts[id].group == f.group ==>
        && db.facts[id].status != Batched && db.facts[id].status != Posted && db.facts[id].status != Reversed
        && forall d :: d in db.attached ==> id !in db.attached[d])
    && (forall f :: f in facts && f.id in db.facts ==> db.facts[f.id].group in GroupsOf(facts))
  }

  /** The facts fit the table by themselves: ids and unique keys differ, and a payload is there where
      the column needs one. */
  predicate FitsTable(db: Db, facts: seq<Fact>) {
    && (forall i, j :: 0 <= i < j < |facts| ==>
        && facts[i].id != facts[j].id
        && (facts[i].group, facts[i].factType, facts[i].account, facts[i].direction, facts[i].date)
          != (facts[j].group, facts[j].factType, facts[j].account, facts[j].direction, facts[j].date))
    && (db.payloadNotNull ==> forall f :: f in facts ==> f.payload.Some?)
  }

  lemma ClearsMeans(db: Db, facts: seq<Fact>)
    ensures var ids := InGroups(db.facts, GroupsOf(facts));
      Clears(db, facts) <==> Replaceable(db, ids) && forall f :: f in facts ==> f.id !in db.facts - ids
  {
    var ids := InGroups(db.facts, GroupsOf(facts));
    forall id, f | id in db.facts && f in facts && db.facts[id].group == f.group ensures id in ids {
      assert f.group in GroupsOf(facts);
    }
    forall id | id in ids ensures exists f :: f in facts && db.facts[id].group == f.group {}
    if Clears(db, facts) {
      forall id | id in ids ensures !Locks(db.facts[id].status) && forall d :: d in db.attached ==> id !in db.attached[d] {
        var f :| f in facts && db.facts[id].group == f.group;
      }
    }
  }

  lemma FitsMeans(db: Db, kept: map<nat, Fact>, facts: seq<Fact>)
    ensures FitsTable(db, facts) && (forall f :: f in facts ==> f.id !in kept) <==> Insertable(kept, facts, db.payloadNotNull)
  {}

  /** UpsertAccountingFacts commits exactly when nothing stored stands in the way and the facts fit;
      the table then holds the new facts and, of the old ones, those of all other groups. */
  lemma IngestMeans(db: Db, facts: seq<Fact>)
    ensures UpsertFacts(db, facts).Some? <==> Clears(db, facts) && FitsTable(db, facts)
    ensures UpsertFacts(db, facts).Some? ==>
      var after := UpsertFacts(db, facts).value.facts;
      && (forall f :: f in facts ==> f.id in after && after[f.id] == f)
      && (forall id :: id in after ==> after[id] in facts || (id in db.facts && after[id] == db.facts[id]))
      && (forall id :: id in db.facts ==>
          ((forall f :: f in facts ==> f.group != db.facts[id].group) ==> id in after && after[id] == db.facts[id]))
      && (forall id :: id in db.facts && id in after && after[id] == db.facts[id] && after[id] !in facts ==>
          forall f :: f in facts ==> f.group != db.facts[id].group)
  {
    var ids := InGroups(db.facts, GroupsOf(facts));
    UpsertCondition(db, facts);
    ClearsMeans(db, facts);
    FitsMeans(db, db.facts - ids, facts);
    hide Clears, FitsTable, Insertable, Replaceable;
    if UpsertFacts(db, facts).Some? {
      InsertAllEffect(db.facts - ids, facts, db.payloadNotNull);
      var after := UpsertFacts(db, facts).value.facts;
      forall id | id in after ensures after[id] in facts || (id in db.facts - ids && after[id] == db.facts[id]) {
        if id !in db.facts - ids { var f :| f in facts && f.id == id; }
      }
      forall id | id in db.facts && forall f :: f in facts ==> f.group != db.facts[id].group ensures id !in ids {}
    }
  }

  /** Rows that a webhook may have stored: unsettled, attached to no run. */
  predicate Unsettled(db: Db, facts: seq<Fact>) {
    && (forall f :: f in facts ==> f.status.Pending? || f.status.NeedsReview?)
    && Detached(db.attached, IdsOf(facts))
  }

  lemma ReplaceableAgain(db: Db, db1: Db, a: seq<Fact>, b: seq<Fact>)
    requires UpsertFacts(db, a) == Some(db1) && Unsettled(db, a) && GroupsOf(a) <= GroupsOf(b)
    ensures Replaceable(db1, InGroups(db1.facts, GroupsOf(b))) <==> Replaceable(db, InGroups(db.facts, GroupsOf(b)))
  {
    var ids, ids1 := InGroups(db.facts, GroupsOf(b)), InGroups(db1.facts, GroupsOf(b));
    GroupsReplaced(db, a);
    assert ids1 <= ids + IdsOf(a) by {
      forall id | id in ids1 ensures id in ids + IdsOf(a) {
        if db1.facts[id].group in GroupsOf(a) { assert id in Where(db1.facts, GroupsOf(a)); }
        else { assert id in Without(db1.facts, GroupsOf(a)); }
      }
    }
    forall id | id in ids && db.facts[id].group !in GroupsOf(a) ensures id in ids1 && db1.facts[id] == db.facts[id] {
      assert id in Without(db.facts, GroupsOf(a));
    }
    forall id | id in IdsOf(a) ensures id in db1.facts && !Locks(db1.facts[id].status) {
      var f :| f in a && f.id == id;
    }
    forall id | id in ids1 && id !in IdsOf(a) ensures id in db.facts && db1.facts[id] == db.facts[id] {
      assert id !in Where(db1.facts, GroupsOf(a));
      assert id in Without(db1.facts, GroupsOf(a));
    }
    assert Replaceable(db, InGroups(db.facts, GroupsOf(a)));
    forall id | id in ids && db.facts[id].group in GroupsOf(a) ensures id in InGroups(db.facts, GroupsOf(a)) {}
  }

  /** Redelivery. Once a webhook's facts are stored, delivering the same groups again, with
      whatever facts, leaves exactly what that last delivery alone would have left. */
  lemma LastDeliveryWins(db: Db, a: seq<Fact>, b: seq<Fact>)
    requires UpsertFacts(db, a).Some? && Unsettled(db, a) && GroupsOf(a) <= GroupsOf(b)
    ensures UpsertFacts(UpsertFacts(db, a).value, b) == UpsertFacts(db, b)
  {
    var db1 := UpsertFacts(db, a).value;
    GroupsReplaced(db, a);
    KeptRows(db.facts, GroupsOf(b));
    KeptRows(db1.facts, GroupsOf(b));
    assert Without(db1.facts, GroupsOf(b)) == Without(Without(db1.facts, GroupsOf(a)), GroupsOf(b));
    assert Without(db.facts, GroupsOf(b)) == Without(Without(db.facts, GroupsOf(a)), GroupsOf(b));
    ReplaceableAgain(db, db1, a, b);
  }

  /** Batched, posted and reversed facts survive: only their status may still change. */
  predicate LockedKept(before: map<nat, Fact>, after: map<nat, Fact>) {
    forall id :: id in before && Locks(before[id].status) ==>
      id in after && Locks(after[id].status) && after[id].Core() == before[id].Core()
  }

  lemma UpsertKeepsLocked(db: Db, facts: seq<Fact>)
    requires UpsertFacts(db, facts).Some?
    ensures LockedKept(db.facts, UpsertFacts(db, facts).value.facts)
  {
    InsertAllEffect(db.facts - InGroups(db.facts, GroupsOf(facts)), facts, db.payloadNotNull);
  }

  lemma CommitJournalKeepsLocked(db: Db, d: Date, ids: set<nat>, rounding: Option<Fact>, row: JournalRow)
    requires CommitJournalTx(db, d, ids, rounding, row).Some?
    ensures LockedKept(db.facts, CommitJournalTx(db, d, ids, rounding, row).value.facts)
  {
    var facts := match rounding case None => db.facts case Some(r) => UpsertFacts(db, [r]).value.facts;
    if rounding.Some? { UpsertKeepsLocked(db, [rounding.value]); }
    MarkKeepsLocked(db.facts, facts, ids, Batched);
  }

  lemma CommitUploadKeepsLocked(db: Db, d: Date, ids: set<nat>, row: JournalRow)
    requires CommitUploadTx(db, d, ids, row).Some?
    ensures LockedKept(db.facts, CommitUploadTx(db, d, ids, row).value.facts)
  {
    MarkKeepsLocked(db.facts, db.facts, ids, Posted);
  }

  lemma MarkKeepsLocked(before: map<nat, Fact>, after: map<nat, Fact>, ids: set<nat>, status: FactStatus)
    requires LockedKept(before, after) && Locks(status)
    ensures LockedKept(before, MarkStatus(after, ids, status))
  {}
}
