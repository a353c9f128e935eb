/** The versioned exports of one filing period, under any interleaving of evaluations.

    internal/filings/service_run.go (evaluatePeriod), internal/filings/service_notify.go and
    internal/store/filing_export_queries.go. A checksum stands for the content it is taken of. */
module Exports {
  import opened Grouping
  import opened Store
  import opened Periods
  import opened Filing

  datatype Checksum = ZeroReminder | Sha(content: string)

  datatype Export = Export(version: nat, checksum: Checksum, supersededBy: Option<nat>)

  datatype Found = Found(id: nat, row: Export)

  // ---------------------------------------------------------------------------
  // The queries
  // ---------------------------------------------------------------------------

  /** Whether `found` is the row with the highest version, which GetLatestFilingExport reads. */
  ghost predicate IsLatest(t: map<nat, Export>, found: Option<Found>) {
    match found
    case None => t == map[]
    case Some(f) => f.id in t && t[f.id] == f.row && forall id :: id in t ==> t[id].version <= f.row.version
  }

  function NextVersion(latest: Option<Found>): nat {
    match latest case None => 1 case Some(f) => f.row.version + 1
  }

  predicate VersionTaken(t: map<nat, Export>, version: nat) { exists id :: id in t && t[id].version == version }

  /** CreateFilingExport, then MarkFilingExportSuperseded for the export read as the latest. A
      version that is taken breaks the unique key, and nothing is stored. */
  function StoreExport(t: map<nat, Export>, latest: Option<Found>, id: nat,
                       checksum: Checksum): Option<map<nat, Export>> {
    if id in t || VersionTaken(t, NextVersion(latest)) then None
    else
      var created := t[id := Export(NextVersion(latest), checksum, None)];
      if latest.Some? && latest.value.id in created then
        Some(created[latest.value.id := created[latest.value.id].(supersededBy := Some(id))])
      else Some(created)
  }

  predicate Current(latest: Option<Found>, checksum: Checksum) { latest.Some? && latest.value.row.checksum == checksum }

  // ---------------------------------------------------------------------------
  // Evaluations
  // ---------------------------------------------------------------------------

  /** What the ready entries of the period render to: there are none, they cannot be rendered,
      or they give a file. */
  datatype Input = Nothing | Broken | Content(text: string)

  /** Where an evaluation stands; each phase ends with one query, mail or transaction. */
  datatype Phase =
    | Idle
    | ReadPeriod(due: bool)
    | ReadLatest(row: PeriodRow)
    | ReadEntries(row: PeriodRow, latest: Option<Found>)
    | Mail(latest: Option<Found>, checksum: Checksum)
    | Create(latest: Option<Found>, checksum: Checksum)
    | Mark(status: PeriodStatus)

  /** `order` lists the ids of the exports as they were stored; no step reads it. */
  datatype System = System(
    kind: Kind, exports: map<nat, Export>, row: PeriodRow, input: Input, mails: nat, procs: map<nat, Phase>, order: seq<nat>)

  /** `due`: the evaluation is forced, or the first sending time has come. */
  datatype Event =
    | Begin(who: nat, due: bool)
    | Advance(who: nat, outcome: Outcome, latest: Option<Found>, id: nat)
    | Crash(who: nat)
    | ChangeEntries(input: Input)
    | Submit

  function At(s: System, who: nat): Phase { if who in s.procs then s.procs[who] else Idle }

  function Goto(s: System, who: nat, p: Phase): System { s.(procs := s.procs[who := p]) }

  function Init(kind: Kind, input: Input): System {
    System(kind, map[], PeriodRow(NotEvaluated, false, false), input, 0, map[], [])
  }

  /** What follows from the ready entries, the period row and the latest export. */
  function Decided(kind: Kind, row: PeriodRow, latest: Option<Found>, input: Input): Phase {
    match input
    case Broken => Mark(EvaluationFailed)
    case Content(text) => if Current(latest, Sha(text)) then Mark(Unchanged) else Mail(latest, Sha(text))
    case Nothing =>
      if kind.PeriodicSummary? || row.zeroReminderSent || Current(latest, ZeroReminder) then Mark(Unchanged)
      else Mail(latest, ZeroReminder)
  }

  /** UpdateFilingPeriodEvaluation; a sent reminder stays sent. */
  function Marked(row: PeriodRow, status: PeriodStatus): PeriodRow {
    row.(status := status, zeroReminderSent := row.zeroReminderSent || status.NoDataReminder?)
  }

  function StatusOf(checksum: Checksum): PeriodStatus { if checksum.ZeroReminder? then NoDataReminder else Exported }

  function StepCreate(s: System, who: nat, outcome: Outcome, id: nat, latest: Option<Found>, checksum: Checksum): System {
    var stored := StoreExport(s.exports, latest, id, checksum);
    if outcome.Aborted? || stored.None? then Goto(s, who, Idle)
    else Goto(s.(exports := stored.value, row := Marked(s.row, StatusOf(checksum)), order := s.order + [id]), who, Idle)
  }

  ghost function Step(s: System, who: nat, outcome: Outcome, latest: Option<Found>, id: nat): System {
    match At(s, who)
    case Idle => s
    case ReadPeriod(due) =>
      if !outcome.Done? || s.row.submitted || !due then Goto(s, who, Idle) else Goto(s, who, ReadLatest(s.row))
    case ReadLatest(row) =>
      if !outcome.Done? then Goto(s, who, Idle)
      else if !IsLatest(s.exports, latest) then s
      else Goto(s, who, ReadEntries(row, latest))
    case ReadEntries(row, found) =>
      if !outcome.Done? then Goto(s, who, Mark(EvaluationFailed))
      else Goto(s, who, Decided(s.kind, row, found, s.input))
    case Mail(found, checksum) =>
      var sent := if outcome.Aborted? then s else s.(mails := s.mails + 1);
      Goto(sent, who, if outcome.Done? then Create(found, checksum) else Mark(EvaluationFailed))
    case Create(found, checksum) => StepCreate(s, who, outcome, id, found, checksum)
    case Mark(status) => Goto(if outcome.Aborted? then s else s.(row := Marked(s.row, status)), who, Idle)
  }

  ghost function Next(s: System, e: Event): System {
    match e
    case Begin(who, due) => if At(s, who).Idle? then Goto(s, who, ReadPeriod(due)) else s
    case Advance(who, outcome, latest, id) => Step(s, who, outcome, latest, id)
    case Crash(who) => Goto(s, who, Idle)
    case ChangeEntries(input) => s.(input := input)
    case Submit => s.(row := s.row.(submitted := true, status := Submitted))
  }

  ghost function Run(s: System, events: seq<Event>): System {
    if events == [] then s else Next(Run(s, events[..|events| - 1]), events[|events| - 1])
  }

  // ---------------------------------------------------------------------------
  // The chain
  // ---------------------------------------------------------------------------

  /** The k-th export has version k + 1, is superseded by the next one if there is one, and
      differs from it. */
  ghost predicate Linked(t: map<nat, Export>, order: seq<nat>, k: nat)
    requires k < |order|
  {
    && order[k] in t && t[order[k]].version == k + 1
    && t[order[k]].supersededBy == (if k + 1 < |order| then Some(order[k + 1]) else None)
    && (k + 1 < |order| ==> order[k + 1] in t && t[order[k]].checksum != t[order[k + 1]].checksum)
  }

  /** `order` lists the exports by version. */
  ghost predicate Chain(t: map<nat, Export>, order: seq<nat>) {
    && Distinct(order)
    && (forall id :: id in t <==> id in order)
    && (forall k :: 0 <= k < |order| ==> Linked(t, order, k))
  }

  /** An export that was read as the latest keeps its version and its checksum. */
  ghost predicate Remembered(t: map<nat, Export>, latest: Option<Found>) {
    latest.Some? ==>
      var f := latest.value;
      f.id in t && t[f.id].version == f.row.version && t[f.id].checksum == f.row.checksum
  }

  ghost predicate PhaseInv(s: System, p: Phase) {
    match p
    case ReadEntries(_, latest) => Remembered(s.exports, latest)
    case Mail(latest, checksum) => Remembered(s.exports, latest) && !Current(latest, checksum)
    case Create(latest, checksum) => Remembered(s.exports, latest) && !Current(latest, checksum)
    case _ => true
  }

  ghost predicate Inv(s: System) {
    Chain(s.exports, s.order) && forall who :: PhaseInv(s, At(s, who))
  }

  lemma StoredKeepsMemory(t: map<nat, Export>, latest: Option<Found>, id: nat, checksum: Checksum, other: Option<Found>)
    requires StoreExport(t, latest, id, checksum).Some? && Remembered(t, other)
    ensures Remembered(StoreExport(t, latest, id, checksum).value, other)
  {}

  lemma IndexOf(t: map<nat, Export>, order: seq<nat>, a: nat)
    requires Chain(t, order) && a in t
    ensures 1 <= t[a].version <= |order| && order[t[a].version - 1] == a && Linked(t, order, t[a].version - 1)
  {
    var k :| 0 <= k < |order| && order[k] == a;
    assert Linked(t, order, k);
  }

  lemma VersionsTaken(t: map<nat, Export>, order: seq<nat>, version: nat)
    requires Chain(t, order)
    ensures VersionTaken(t, version) <==> 1 <= version <= |order|
  {
    if 1 <= version <= |order| {
      assert Linked(t, order, version - 1);
    }
    if VersionTaken(t, version) {
      var id :| id in t && t[id].version == version;
      IndexOf(t, order, id);
    }
  }

  /** If the version after the one read is still free, the one read is the last: a stale reading
      loses on the unique key. */
  lemma ReadTheLast(t: map<nat, Export>, order: seq<nat>, latest: Option<Found>)
    requires Chain(t, order) && Remembered(t, latest) && !VersionTaken(t, NextVersion(latest))
    ensures NextVersion(latest) == |order| + 1
    ensures latest.Some? ==> |order| > 0 && order[|order| - 1] == latest.value.id
  {
    VersionsTaken(t, order, NextVersion(latest));
    if latest.Some? { IndexOf(t, order, latest.value.id); }
    hide Chain, VersionTaken;
  }

  /** A link added to the end of a chain. */
  lemma ChainExtends(t: map<nat, Export>, order: seq<nat>, t': map<nat, Export>, id: nat, checksum: Checksum)
    requires Chain(t, order) && id !in t && t'.Keys == t.Keys + {id}
    requires t'[id] == Export(|order| + 1, checksum, None)
    requires forall k :: 0 <= k < |order| - 1 ==> order[k] in t && t'[order[k]] == t[order[k]]
    requires |order| > 0 ==>
      var last := order[|order| - 1];
      last in t && t'[last] == t[last].(supersededBy := Some(id)) && t[last].checksum != checksum
    ensures Chain(t', order + [id])
  {
    var order', n := order + [id], |order|;
    forall a ensures a in t' <==> a in order' { assert a in t <==> a in order; }
    forall k | 0 <= k < n ensures order'[k] != id { assert order[k] in order; }
    forall k | 0 <= k <= n ensures Linked(t', order', k) {
      if k < n { assert Linked(t, order, k); }
      if k + 1 < n { assert Linked(t, order, k + 1); }
    }
  }

  lemma StoredExtends(t: map<nat, Export>, order: seq<nat>, latest: Option<Found>, id: nat, checksum: Checksum)
    requires Chain(t, order) && Remembered(t, latest) && !Current(latest, checksum)
    requires StoreExport(t, latest, id, checksum).Some?
    ensures Chain(StoreExport(t, latest, id, checksum).value, order + [id])
  {
    ReadTheLast(t, order, latest);
    var n := |order|;
    forall k | 0 <= k < n ensures order[k] in t && (k < n - 1 ==> order[k] != order[n - 1]) { assert order[k] in order; }
    if n > 0 { assert Linked(t, order, n - 1); }
    hide VersionTaken, Chain;
    ChainExtends(t, order, StoreExport(t, latest, id, checksum).value, id, checksum);
  }

  lemma StepKeeps(s: System, who: nat, outcome: Outcome, latest: Option<Found>, id: nat)
    requires Inv(s)
    ensures Inv(Step(s, who, outcome, latest, id))
  {
    assert PhaseInv(s, At(s, who));
    if At(s, who).Create? {
      CreateKeeps(s, who, outcome, id);
    } else {
      OtherStepKeeps(s, who, outcome, latest, id);
    }
  }

  lemma CreateKeeps(s: System, who: nat, outcome: Outcome, id: nat)
    requires Inv(s) && At(s, who).Create?
    ensures Inv(StepCreate(s, who, outcome, id, At(s, who).latest, At(s, who).checksum))
  {
    hide Chain, StoreExport, Remembered;
    assert PhaseInv(s, At(s, who));
    var found, checksum := At(s, who).latest, At(s, who).checksum;
    var s' := StepCreate(s, who, outcome, id, found, checksum);
    if outcome.Aborted? || StoreExport(s.exports, found, id, checksum).None? {
      SameExports(s, s');
      forall other ensures PhaseInv(s', At(s', other)) { assert PhaseInv(s, At(s, other)); }
    } else {
      StoredExtends(s.exports, s.order, found, id, checksum);
      forall other ensures PhaseInv(s', At(s', other)) {
        assert PhaseInv(s, At(s, other));
        PhaseKept(s, s', other, found, id, checksum);
      }
    }
  }

  lemma LatestIsRemembered(t: map<nat, Export>, latest: Option<Found>)
    requires IsLatest(t, latest)
    ensures Remembered(t, latest)
  {}

  lemma OtherStepKeeps(s: System, who: nat, outcome: Outcome, latest: Option<Found>, id: nat)
    requires Inv(s) && !At(s, who).Create?
    ensures Inv(Step(s, who, outcome, latest, id))
  {
    hide Chain, StoreExport, Remembered, IsLatest;
    assert PhaseInv(s, At(s, who));
    var s' := Step(s, who, outcome, latest, id);
    if IsLatest(s.exports, latest) { LatestIsRemembered(s.exports, latest); }
    SameExports(s, s');
    assert PhaseInv(s, At(s', who));
    forall other ensures PhaseInv(s', At(s', other)) {
      if other != who { assert PhaseInv(s, At(s, other)); }
    }
  }

  lemma PhaseKept(s: System, s': System, other: nat, latest: Option<Found>, id: nat, checksum: Checksum)
    requires PhaseInv(s, At(s, other)) && (At(s', other) == At(s, other) || At(s', other).Idle?)
    requires StoreExport(s.exports, latest, id, checksum) == Some(s'.exports)
    ensures PhaseInv(s', At(s', other))
  {
    match At(s, other)
    case ReadEntries(_, l) => StoredKeepsMemory(s.exports, latest, id, checksum, l);
    case Mail(l, _) => StoredKeepsMemory(s.exports, latest, id, checksum, l);
    case Create(l, _) => StoredKeepsMemory(s.exports, latest, id, checksum, l);
    case _ =>
  }

  lemma SameExports(s: System, s': System)
    requires s'.exports == s.exports
    ensures forall p :: PhaseInv(s, p) <==> PhaseInv(s', p)
  {}

  lemma NextKeeps(s: System, e: Event)
    requires Inv(s)
    ensures Inv(Next(s, e))
  {
    match e
    case Advance(who, outcome, latest, id) => StepKeeps(s, who, outcome, latest, id);
    case _ =>
      var s' := Next(s, e);
      SameExports(s, s');
      forall who ensures PhaseInv(s', At(s', who)) { assert PhaseInv(s, At(s, who)); }
  }

  lemma {:induction false} RunKeeps(s: System, events: seq<Event>)
    requires Inv(s)
    ensures Inv(Run(s, events))
  {
    if events != [] {
      RunKeeps(s, events[..|events| - 1]);
      NextKeeps(Run(s, events[..|events| - 1]), events[|events| - 1]);
    }
  }

  /** The stored versions are exactly 1..n, each once; version k is superseded by version k + 1
      and only the last by none; and neighbouring versions have different contents. This holds
      after any interleaving of evaluations, crashes, lost mails, aborted transactions,
      submissions and changes of the entries. */
  lemma ExportChain(kind: Kind, input: Input, events: seq<Event>)
    ensures var t := Run(Init(kind, input), events).exports;
      && (forall a :: a in t ==> 1 <= t[a].version <= |t|)
      && (forall a, b :: a in t && b in t && t[a].version == t[b].version ==> a == b)
      && (forall a, b :: a in t && b in t ==> (t[a].supersededBy == Some(b) <==> t[b].version == t[a].version + 1))
      && (forall a :: a in t ==> (t[a].supersededBy.None? <==> t[a].version == |t|))
      && (forall a, b :: a in t && b in t && t[b].version == t[a].version + 1 ==> t[a].checksum != t[b].checksum)
  {
    var s := Run(Init(kind, input), events);
    RunKeeps(Init(kind, input), events);
    ChainSpelledOut(s.exports, s.order);
  }

  lemma {:induction false} DistinctSize(order: seq<nat>)
    requires Distinct(order)
    ensures |ToSet(order)| == |order|
  {
    if order != [] {
      var front, x := order[..|order| - 1], order[|order| - 1];
      DistinctSize(front);
      assert order == front + [x];
      assert ToSet(order) == ToSet(front) + {x};
      assert x !in ToSet(front);
    }
  }

  lemma ChainSize(t: map<nat, Export>, order: seq<nat>)
    requires Chain(t, order)
    ensures |t| == |order|
  {
    DistinctSize(order);
    assert ToSet(order) == t.Keys;
  }

  lemma LinkSpelledOut(t: map<nat, Export>, order: seq<nat>, a: nat, b: nat)
    requires Chain(t, order) && a in t && b in t
    ensures t[a].version == t[b].version ==> a == b
    ensures t[a].supersededBy == Some(b) <==> t[b].version == t[a].version + 1
    ensures t[b].version == t[a].version + 1 ==> t[a].checksum != t[b].checksum
  {
    IndexOf(t, order, a);
    IndexOf(t, order, b);
    if t[a].version < |order| { assert Linked(t, order, t[a].version); }
  }

  lemma ChainSpelledOut(t: map<nat, Export>, order: seq<nat>)
    requires Chain(t, order)
    ensures forall a :: a in t ==> 1 <= t[a].version <= |t|
    ensures forall a, b :: a in t && b in t && t[a].version == t[b].version ==> a == b
    ensures forall a, b :: a in t && b in t ==> (t[a].supersededBy == Some(b) <==> t[b].version == t[a].version + 1)
    ensures forall a :: a in t ==> (t[a].supersededBy.None? <==> t[a].version == |t|)
    ensures forall a, b :: a in t && b in t && t[b].version == t[a].version + 1 ==> t[a].checksum != t[b].checksum
  {
    ChainSize(t, order);
    forall a | a in t ensures 1 <= t[a].version <= |t| && (t[a].supersededBy.None? <==> t[a].version == |t|) {
      IndexOf(t, order, a);
    }
    hide Chain;
    forall a, b | a in t && b in t
      ensures t[a].version == t[b].version ==> a == b
      ensures t[a].supersededBy == Some(b) <==> t[b].version == t[a].version + 1
      ensures t[b].version == t[a].version + 1 ==> t[a].checksum != t[b].checksum
    {
      LinkSpelledOut(t, order, a, b);
    }
  }
}
