/** internal/store: the rows behind the daily close, and the transactions on them.

    `Db` is the content of the four tables as a value. Its functions say what a query leaves
    behind, None standing for the error that makes the transaction roll back. `Database` is
    the store itself, whose methods change the tables row by row. A posting run is identified
    by its date, which is what the unique index on daily-close runs allows. */
module Store {
  import opened Grouping
  import opened Ledger

  datatype RunStatus = Started | JournalCreated | UploadCreated | Completed | RunFailed

  datatype JournalRow = JournalRow(entry: nat, upload: Option<nat>, title: string, date: Date)

  datatype Db = Db(
    facts: map<nat, Fact>,
    runs: map<Date, RunStatus>,
    attached: map<Date, set<nat>>,
    journals: map<Date, JournalRow>,
    payloadNotNull: bool)

  /** How a call or transaction ends: it takes effect and says so, it has no effect and
      reports an error, or it takes effect and still reports an error. */
  datatype Outcome = Done | Aborted | Lost

  /** The database after a transaction that would leave `attempt`, None if it cannot commit. */
  function Settled(db: Db, attempt: Option<Db>, outcome: Outcome): Db {
    if outcome.Aborted? || attempt.None? then db else attempt.value
  }

  /** Whether the caller is told that it committed. */
  predicate Acknowledged(attempt: Option<Db>, outcome: Outcome) { outcome.Done? && attempt.Some? }

  function Attached(db: Db, d: Date): set<nat> {
    if d in db.attached then db.attached[d] else {}
  }

  predicate Locks(status: FactStatus) { status.Batched? || status.Posted? || status.Reversed? }

  /** The columns of the unique constraint on facts. */
  predicate SameKey(a: Fact, b: Fact) {
    a.group == b.group && a.factType == b.factType && a.account == b.account
    && a.direction == b.direction && a.date == b.date
  }

  function GroupsOf(facts: seq<Fact>): set<string> { set f | f in facts :: f.group }

  /** The ids of the stored facts in any of the groups. */
  function InGroups(facts: map<nat, Fact>, groups: set<string>): set<nat> {
    set id | id in facts && facts[id].group in groups
  }

  predicate CanInsert(facts: map<nat, Fact>, f: Fact, payloadNotNull: bool) {
    && f.id !in facts
    && (forall id :: id in facts ==> !SameKey(facts[id], f))
    && (payloadNotNull ==> f.payload.Some?)
  }

  function InsertAll(facts: map<nat, Fact>, new_: seq<Fact>, payloadNotNull: bool): Option<map<nat, Fact>> {
    if new_ == [] then Some(facts)
    else
      match InsertAll(facts, new_[..|new_| - 1], payloadNotNull)
      case None => None
      case Some(m) =>
        var f := new_[|new_| - 1];
        if CanInsert(m, f, payloadNotNull) then Some(m[f.id := f]) else None
  }

  predicate Detached(attached: map<Date, set<nat>>, ids: set<nat>) {
    forall d :: d in attached ==> attached[d] !! ids
  }

  /** Whether a replacement may delete these rows: none is locked, none is attached. */
  predicate Replaceable(db: Db, ids: set<nat>) {
    && (forall id :: id in ids && id in db.facts ==> !Locks(db.facts[id].status))
    && Detached(db.attached, ids)
  }

  /** UpsertAccountingFacts: every group named by a new fact is replaced as a whole. */
  function UpsertFacts(db: Db, facts: seq<Fact>): Option<Db> {
    var ids := InGroups(db.facts, GroupsOf(facts));
    if !Replaceable(db, ids) then None
    else
      match InsertAll(db.facts - ids, facts, db.payloadNotNull)
      case None => None
      case Some(m) => Some(db.(facts := m))
  }

  function MarkStatus(facts: map<nat, Fact>, ids: set<nat>, status: FactStatus): map<nat, Fact> {
    map id | id in facts :: if id in ids then facts[id].(status := status) else facts[id]
  }

  function IdsOf(facts: seq<Fact>): set<nat> { set f | f in facts :: f.id }

  /** Transaction 1 of a close: store the rounding line, attach and batch the facts, record
      the remote journal. Attaching a fact that was replaced meanwhile breaks the foreign key. */
  function CommitJournalTx(db: Db, d: Date, ids: set<nat>, rounding: Option<Fact>, row: JournalRow): Option<Db> {
    var stored := match rounding case None => Some(db) case Some(r) => UpsertFacts(db, [r]);
    match stored
    case None => None
    case Some(db1) =>
      if !(ids <= db1.facts.Keys) || d !in db1.runs then None
      else Some(db1.(
        facts := MarkStatus(db1.facts, ids, Batched),
        attached := db1.attached[d := Attached(db1, d) + ids],
        journals := db1.journals[d := row],
        runs := db1.runs[d := JournalCreated]))
  }

  /** Transaction 2 of a close, and the last step of a resumed one. */
  function CommitUploadTx(db: Db, d: Date, ids: set<nat>, row: JournalRow): Option<Db> {
    if d !in db.runs then None
    else Some(db.(
      facts := MarkStatus(db.facts, ids, Posted),
      journals := db.journals[d := row],
      runs := db.runs[d := Completed]))
  }

  /** The listing of a set of facts, each once, in some order. */
  predicate Lists(listing: seq<Fact>, facts: map<nat, Fact>, ids: set<nat>) {
    && (forall i :: 0 <= i < |listing| ==> listing[i].id in facts && facts[listing[i].id] == listing[i])
    && (forall i, j :: 0 <= i < j < |listing| ==> listing[i].id != listing[j].id)
    && IdsOf(listing) == ids
  }

  lemma InsertAllSplit(facts: map<nat, Fact>, new_: seq<Fact>, payloadNotNull: bool)
    returns (front: seq<Fact>, f: Fact, m: map<nat, Fact>)
    requires new_ != [] && InsertAll(facts, new_, payloadNotNull).Some?
    ensures new_ == front + [f] && |front| == |new_| - 1
    ensures InsertAll(facts, front, payloadNotNull) == Some(m)
    ensures f.id !in m && InsertAll(facts, new_, payloadNotNull) == Some(m[f.id := f])
    ensures payloadNotNull ==> f.payload.Some?
  {
    front, f := new_[..|new_| - 1], new_[|new_| - 1];
    m := InsertAll(facts, front, payloadNotNull).value;
  }

  /** Inserting keeps what was there and adds exactly the new facts, all under new ids. */
  lemma {:induction false} InsertAllEffect(facts: map<nat, Fact>, new_: seq<Fact>, payloadNotNull: bool)
    requires InsertAll(facts, new_, payloadNotNull).Some?
    ensures var m := InsertAll(facts, new_, payloadNotNull).value;
      && m.Keys == facts.Keys + IdsOf(new_)
      && (forall id :: id in facts ==> m[id] == facts[id])
      && (forall f :: f in new_ ==> f.id !in facts && m[f.id] == f)
      && (forall i, j :: 0 <= i < j < |new_| ==> new_[i].id != new_[j].id)
      && (payloadNotNull ==> forall f :: f in new_ ==> f.payload.Some?)
    decreases |new_|
  {
    if new_ != [] {
      var front, f, m := InsertAllSplit(facts, new_, payloadNotNull);
      InsertAllEffect(facts, front, payloadNotNull);
      assert IdsOf(new_) == IdsOf(front) + {f.id};
      assert f.id !in IdsOf(front);
      forall i, j | 0 <= i < j < |new_| ensures new_[i].id != new_[j].id {
        assert new_[i] == front[i] && front[i] in front && front[i].id in IdsOf(front);
      }
    }
  }
}
