/** evaluatePeriod and what it calls, step by step, for one evaluation that nobody disturbs.

    `machine` and `trace` follow along: every query, mail and transaction of the code is one
    event of the machine in `Exports`, and the store is always where its run has led. */
module Evaluation {
  import opened Grouping
  import opened Store
  import opened Periods
  import opened Filing
  import opened Render
  import opened Exports

  datatype Answer = Made(id: nat) | Quiet | Failed

  /** How the environment answers: whether each read succeeds, how the mail and the two kinds
      of transaction end, and the id of a new export. */
  datatype Environment = Environment(
    periodRead: Outcome, latestRead: Outcome, entriesRead: Outcome, mail: Outcome, create: Outcome, mark: Outcome, newId: nat)
  {
    predicate Faultless() {
      periodRead.Done? && latestRead.Done? && entriesRead.Done? && mail.Done? && create.Done? && mark.Done?
    }
  }

  function IfReadyOss(e: OssEntry): Option<OssEntry> { if e.state.Ready? then Some(e) else None }

  function IfReadyPs(e: PsEntry): Option<PsEntry> { if e.state.Ready? then Some(e) else None }

  function FileInput(file: Option<string>): Input { match file case None => Broken case Some(text) => Content(text) }

  function OssInput(identifier: string, period: string, entries: seq<OssEntry>): Input {
    var ready := Collect(IfReadyOss, entries);
    if ready == [] then Nothing else FileInput(OssFile(identifier, period, ready))
  }

  function PsInput(reporter: Reporter, period: string, entries: seq<PsEntry>): Input {
    var ready := Collect(IfReadyPs, entries);
    if ready == [] then Nothing else FileInput(PsFile(reporter, period, ready))
  }

  /** The latest export has this content. */
  ghost predicate Shows(t: map<nat, Export>, checksum: Checksum) {
    exists f :: IsLatest(t, Some(f)) && f.row.checksum == checksum
  }

  /** The latest export is a file. */
  ghost predicate ShowsFile(t: map<nat, Export>) {
    exists f :: IsLatest(t, Some(f)) && f.row.checksum.Sha?
  }

  class PeriodExports {
    const kind: Kind
    const period: string
    const identifier: string
    const reporter: Reporter
    var ossEntries: seq<OssEntry>
    var psEntries: seq<PsEntry>
    var exports: map<nat, Export>
    var row: PeriodRow
    var mails: nat
    ghost var machine: System
    ghost var trace: seq<Event>

    constructor (kind: Kind, period: string, identifier: string, reporter: Reporter)
      ensures Valid() && exports == map[] && ossEntries == [] && psEntries == [] && At(machine, 0).Idle?
    {
      this.kind, this.period, this.identifier, this.reporter := kind, period, identifier, reporter;
      ossEntries, psEntries, exports, row, mails := [], [], map[], PeriodRow(NotEvaluated, false, false), 0;
      machine, trace := Init(kind, Nothing), [];
    }

    /** What the ready entries now stored render to. */
    function InputNow(): Input
      reads this`ossEntries, this`psEntries
    {
      match kind
      case OssUnion => OssInput(identifier, period, ossEntries)
      case PeriodicSummary => PsInput(reporter, period, psEntries)
    }

    ghost predicate Mirrors()
      reads this
    {
      machine.kind == kind && machine.exports == exports && machine.row == row && machine.mails == mails && machine.input == InputNow()
    }

    ghost predicate Valid()
      reads this
    {
      Mirrors() && machine == Run(Init(kind, Nothing), trace)
    }

    ghost method Did(e: Event)
      requires machine == Run(Init(kind, Nothing), trace)
      modifies this`machine, this`trace
      ensures machine == Next(old(machine), e) && machine == Run(Init(kind, Nothing), trace)
    {
      assert (trace + [e])[..|trace|] == trace;
      machine, trace := Next(machine, e), trace + [e];
    }

    /** A sync or a backfill has changed the entries. */
    method ReplaceEntries(oss: seq<OssEntry>, ps: seq<PsEntry>)
      requires Valid()
      modifies this`ossEntries, this`psEntries, this`machine, this`trace
      ensures Valid() && ossEntries == oss && psEntries == ps && At(machine, 0) == old(At(machine, 0))
    {
      hide Init, Run, OssInput, PsInput;
      ossEntries, psEntries := oss, ps;
      Did(ChangeEntries(InputNow()));
    }

    method MarkSubmitted()
      requires Valid()
      modifies this`row, this`machine, this`trace
      ensures Valid() && row == old(row).(submitted := true, status := Submitted) && At(machine, 0) == old(At(machine, 0))
    {
      hide Init, Run, InputNow;
      row := row.(submitted := true, status := Submitted);
      Did(Submit);
    }

    /** ORDER BY version DESC LIMIT 1. */
    method GetLatestFilingExport() returns (found: Option<Found>)
      ensures IsLatest(exports, found)
    {
      found := None;
      var rest := exports.Keys;
      while rest != {}
        invariant rest <= exports.Keys
        invariant found.None? ==> rest == exports.Keys
        invariant found.Some? ==> found.value.id in exports && exports[found.value.id] == found.value.row
        invariant found.Some? ==> forall id :: id in exports && id !in rest ==> exports[id].version <= found.value.row.version
        decreases rest
      {
        var id :| id in rest;
        if found.None? || found.value.row.version < exports[id].version { found := Some(Found(id, exports[id])); }
        rest := rest - {id};
      }
      if found.None? { assert exports.Keys == {}; }
    }

    method ReadyOss() returns (ready: seq<OssEntry>)
      ensures ready == Collect(IfReadyOss, ossEntries)
    {
      ready := [];
      for i := 0 to |ossEntries|
        invariant ready == Collect(IfReadyOss, ossEntries[..i])
      {
        CollectSnoc(IfReadyOss, ossEntries[..i], ossEntries[i]);
        assert ossEntries[..i + 1] == ossEntries[..i] + [ossEntries[i]];
        if ossEntries[i].state == Ready { ready := ready + [ossEntries[i]]; }
      }
      assert ossEntries[..|ossEntries|] == ossEntries;
    }

    method ReadyPs() returns (ready: seq<PsEntry>)
      ensures ready == Collect(IfReadyPs, psEntries)
    {
      ready := [];
      for i := 0 to |psEntries|
        invariant ready == Collect(IfReadyPs, psEntries[..i])
      {
        CollectSnoc(IfReadyPs, psEntries[..i], psEntries[i]);
        assert psEntries[..i + 1] == psEntries[..i] + [psEntries[i]];
        if psEntries[i].state == Ready { ready := ready + [psEntries[i]]; }
      }
      assert psEntries[..|psEntries|] == psEntries;
    }

    /** Lists the period's entries, keeps the ready ones and renders them. */
    method RenderReady() returns (input: Input)
      ensures input == InputNow()
    {
      hide OssFile, PsFile, Collect;
      match kind {
        case OssUnion =>
          var ready := ReadyOss();
          if |ready| == 0 { return Nothing; }
          var file := RenderOssUnion(identifier, period, ready);
          return FileInput(file);
        case PeriodicSummary =>
          var ready := ReadyPs();
          if |ready| == 0 { return Nothing; }
          var file := RenderPeriodicSummary(reporter, period, ready);
          return FileInput(file);
      }
    }

    /** One transaction that only updates the period row. */
    method UpdateEvaluation(status: PeriodStatus, outcome: Outcome) returns (ok: bool)
      requires Valid() && At(machine, 0) == Mark(status)
      modifies this`row, this`machine, this`trace
      ensures Valid() && At(machine, 0).Idle?
      ensures row == if outcome.Aborted? then old(row) else Marked(old(row), status)
      ensures ok <==> outcome.Done?
    {
      hide Init, Run;
      if outcome != Aborted { row := Marked(row, status); }
      Did(Advance(0, outcome, None, 0));
      return outcome == Done;
    }

    /** sendRenderedExport and sendZeroReminder, for an export that differs from the latest. */
    method SendAndStore(latest: Option<Found>, checksum: Checksum, env: Environment) returns (r: Answer)
      requires Valid() && At(machine, 0) == Mail(latest, checksum)
      requires IsLatest(exports, latest) && !Current(latest, checksum)
      modifies this`row, this`exports, this`mails, this`machine, this`trace
      ensures Valid() && At(machine, 0).Idle?
      ensures r.Made? <==> env.mail.Done? && env.create.Done? && StoreExport(old(exports), latest, env.newId, checksum).Some?
      ensures !r.Quiet?
      ensures r.Made? ==> Some(exports) == StoreExport(old(exports), latest, env.newId, checksum)
      ensures r.Made? ==> row == Marked(old(row), StatusOf(checksum)) && mails == old(mails) + 1
      ensures !env.mail.Done? ==> row == if env.mark.Aborted? then old(row) else Marked(old(row), EvaluationFailed)
    {
      hide Init, Run, StoreExport, IsLatest, InputNow, Marked, Current;
      if env.mail != Aborted { mails := mails + 1; }
      Did(Advance(0, env.mail, None, 0));
      if env.mail != Done {
        var ok := UpdateEvaluation(EvaluationFailed, env.mark);
        return Failed;
      }
      var stored := StoreExport(exports, latest, env.newId, checksum);
      if stored.Some? && env.create != Aborted {
        exports := stored.value;
        row := Marked(row, StatusOf(checksum));
      }
      Did(Advance(0, env.create, None, env.newId));
      return if stored.Some? && env.create == Done then Made(env.newId) else Failed;
    }

    /** The evaluation after the reads. */
    method Conclude(latest: Option<Found>, input: Input, env: Environment) returns (r: Answer)
      requires Valid() && IsLatest(exports, latest)
      requires At(machine, 0) == Decided(kind, row, latest, input)
      modifies this`row, this`exports, this`mails, this`machine, this`trace
      ensures Valid() && At(machine, 0).Idle?
      ensures Decided(kind, old(row), latest, input).Mark? ==> exports == old(exports) && mails == old(mails) && !r.Made?
      ensures Decided(kind, old(row), latest, input).Mail? && r != Failed ==>
        r.Made? && Some(exports) == StoreExport(old(exports), latest, env.newId, Decided(kind, old(row), latest, input).checksum)
      ensures input.Broken? ==> r.Failed? && row == if env.mark.Aborted? then old(row) else old(row).(status := EvaluationFailed)
      ensures !input.Broken? && env.mail.Done? && env.create.Done? && env.mark.Done? && env.newId !in old(exports) ==> !r.Failed?
      ensures r.Made? ==> Decided(kind, old(row), latest, input).Mail? && mails == old(mails) + 1
      ensures r.Made? && input.Content? ==> row == old(row).(status := PeriodStatus.Exported)
      ensures r.Made? && !input.Content? ==> row == old(row).(status := NoDataReminder, zeroReminderSent := true)
      ensures r.Quiet? ==> row == old(row).(status := Unchanged)
      ensures r.Failed? && env.mark.Done? && !env.mail.Done? ==> row == old(row).(status := EvaluationFailed)
    {
      hide Init, Run, StoreExport, IsLatest, Mirrors;
      if env.newId !in exports { NextIsFree(exports, latest, env.newId); }
      match input {
        case Broken =>
          var ok := UpdateEvaluation(EvaluationFailed, env.mark);
          return Failed;
        case Content(text) =>
          if Current(latest, Sha(text)) {
            var ok := UpdateEvaluation(Unchanged, env.mark);
            return if ok then Quiet else Failed;
          }
          r := SendAndStore(latest, Sha(text), env);
        case Nothing =>
          if kind == PeriodicSummary || row.zeroReminderSent || Current(latest, ZeroReminder) {
            var ok := UpdateEvaluation(Unchanged, env.mark);
            return if ok then Quiet else Failed;
          }
          r := SendAndStore(latest, ZeroReminder, env);
      }
    }

    /** What the evaluation leaves behind, once the latest export and the entries are read. */
    method Decide(latest: Option<Found>, input: Input, env: Environment) returns (r: Answer)
      requires Valid() && IsLatest(exports, latest)
      requires At(machine, 0) == Decided(kind, row, latest, input)
      modifies this`row, this`exports, this`mails, this`machine, this`trace
      ensures Valid() && At(machine, 0).Idle?
      ensures r != Failed && input.Content? ==> Shows(exports, Sha(input.text))
      ensures r != Failed && input.Nothing? && kind.OssUnion? ==> row.zeroReminderSent || Shows(exports, ZeroReminder)
      ensures r != Failed && input.Nothing? ==>
        (ShowsFile(exports) <==> ShowsFile(old(exports)) && (kind.PeriodicSummary? || old(row).zeroReminderSent))
      ensures input.Content? && Shows(old(exports), Sha(input.text)) ==> exports == old(exports) && mails == old(mails)
      ensures input.Nothing? && (kind.PeriodicSummary? || old(row).zeroReminderSent) ==> exports == old(exports) && mails == old(mails)
      ensures r.Made? ==> env.newId in exports && mails == old(mails) + 1
      ensures r.Made? && input.Content? ==> row == old(row).(status := PeriodStatus.Exported)
      ensures r.Made? && !input.Content? ==> input.Nothing? && row == old(row).(status := NoDataReminder, zeroReminderSent := true)
      ensures r.Quiet? ==> row == old(row).(status := Unchanged)
      ensures r.Failed? && env.mark.Done? && !env.mail.Done? ==> row == old(row).(status := EvaluationFailed)
      ensures input.Broken? ==> row == if env.mark.Aborted? then old(row) else old(row).(status := EvaluationFailed)
      ensures !input.Broken? && env.mail.Done? && env.create.Done? && env.mark.Done? && env.newId !in old(exports) ==> r != Failed
    {
      hide Init, Run, StoreExport, IsLatest, ShowsFile, Mirrors, Marked, StatusOf;
      VersionsUnique(kind, trace);
      StillMirrored();
      ghost var before := exports;
      if input.Content? && Shows(exports, Sha(input.text)) { LatestIsCurrent(exports, latest, Sha(input.text)); }
      r := Conclude(latest, input, env);
      if input.Content? && r != Failed { StoredIsShown(before, exports, latest, env.newId, Sha(input.text)); }
      if input.Nothing? && Current(latest, ZeroReminder) { StoredIsShown(before, exports, latest, env.newId, ZeroReminder); }
      if input.Nothing? && r != Failed {
        LatestFile(before, latest);
        if r.Made? {
          StoredIsShown(before, exports, latest, env.newId, ZeroReminder);
          VersionsUnique(kind, trace);
          StillMirrored();
          ReminderIsNoFile(exports);
        }
      }
      if r.Made? { StoredIsThere(before, exports, latest, env.newId, StatusChecksum(input)); }
    }

    lemma StillMirrored()
      requires Valid()
      ensures exports == Run(Init(kind, Nothing), trace).exports
    {
      hide Run, Init;
    }

    /** The evaluation of a period that is due and not submitted. */
    method EvaluateDue(env: Environment) returns (r: Answer)
      requires Valid() && At(machine, 0) == ReadLatest(row)
      modifies this`row, this`exports, this`mails, this`machine, this`trace
      ensures Valid() && At(machine, 0).Idle?
      ensures r != Failed && InputNow().Content? ==> Shows(exports, Sha(InputNow().text))
      ensures r != Failed && InputNow().Nothing? && kind.OssUnion? ==> row.zeroReminderSent || Shows(exports, ZeroReminder)
      ensures r != Failed && InputNow().Nothing? ==>
        (ShowsFile(exports) <==> ShowsFile(old(exports)) && (kind.PeriodicSummary? || old(row).zeroReminderSent))
      ensures InputNow().Content? && Shows(old(exports), Sha(InputNow().text)) ==> exports == old(exports) && mails == old(mails)
      ensures InputNow().Nothing? && (kind.PeriodicSummary? || old(row).zeroReminderSent) ==> exports == old(exports) && mails == old(mails)
      ensures r.Made? ==> env.newId in exports && mails == old(mails) + 1
      ensures r.Made? && InputNow().Content? ==> row == old(row).(status := PeriodStatus.Exported)
      ensures r.Made? && !InputNow().Content? ==>
        InputNow().Nothing? && row == old(row).(status := NoDataReminder, zeroReminderSent := true)
      ensures r.Quiet? ==> row == old(row).(status := Unchanged)
      ensures r.Failed? && env.latestRead.Done? && env.mark.Done? && !env.mail.Done? ==> row == old(row).(status := EvaluationFailed)
      ensures InputNow().Broken? && env.latestRead.Done? ==>
        row == if env.mark.Aborted? then old(row) else old(row).(status := EvaluationFailed)
      ensures env.Faultless() && !InputNow().Broken? && env.newId !in old(exports) ==> r != Failed
    {
      hide Init, Run, StoreExport, IsLatest, InputNow, Shows, ShowsFile;
      var latest := GetLatestFilingExport();
      Did(Advance(0, env.latestRead, latest, 0));
      if env.latestRead != Done { return Failed; }
      var input := RenderReady();
      Did(Advance(0, env.entriesRead, None, 0));
      if env.entriesRead != Done {
        var ok := UpdateEvaluation(EvaluationFailed, env.mark);
        return Failed;
      }
      r := Decide(latest, input, env);
    }

    /** `due`: forced, or past the first sending time. */
    method EvaluatePeriod(due: bool, env: Environment) returns (r: Answer)
      requires Valid() && At(machine, 0).Idle?
      modifies this`row, this`exports, this`mails, this`machine, this`trace
      ensures Valid() && At(machine, 0).Idle?
      ensures old(row).submitted || !due ==> exports == old(exports) && mails == old(mails) && row == old(row)
      ensures due && !old(row).submitted && r != Failed && InputNow().Content? ==> Shows(exports, Sha(InputNow().text))
      ensures due && !old(row).submitted && r != Failed && InputNow().Nothing? && kind.OssUnion? ==>
        row.zeroReminderSent || Shows(exports, ZeroReminder)
      ensures due && !old(row).submitted && r != Failed && InputNow().Nothing? ==>
        (ShowsFile(exports) <==> ShowsFile(old(exports)) && (kind.PeriodicSummary? || old(row).zeroReminderSent))
      ensures InputNow().Content? && Shows(old(exports), Sha(InputNow().text)) ==> exports == old(exports) && mails == old(mails)
      ensures InputNow().Nothing? && (kind.PeriodicSummary? || old(row).zeroReminderSent) ==> exports == old(exports) && mails == old(mails)
      ensures r.Made? ==> env.newId in exports && mails == old(mails) + 1
      ensures r.Made? && InputNow().Content? ==> row == old(row).(status := PeriodStatus.Exported)
      ensures r.Made? && !InputNow().Content? ==>
        InputNow().Nothing? && row == old(row).(status := NoDataReminder, zeroReminderSent := true)
      ensures due && !old(row).submitted && r.Quiet? ==> row == old(row).(status := Unchanged)
      ensures due && !old(row).submitted && r.Failed? && env.periodRead.Done? && env.latestRead.Done? ==>
        env.mark.Done? && !env.mail.Done? ==>
        row == old(row).(status := EvaluationFailed)
      ensures due && !old(row).submitted && InputNow().Broken? && env.periodRead.Done? && env.latestRead.Done? ==>
        row == if env.mark.Aborted? then old(row) else old(row).(status := EvaluationFailed)
      ensures env.Faultless() && !InputNow().Broken? && env.newId !in old(exports) ==> r != Failed
    {
      hide Init, Run, StoreExport, IsLatest, InputNow, Shows, ShowsFile;
      Did(Begin(0, due));
      Did(Advance(0, env.periodRead, None, 0));
      if env.periodRead != Done { return Failed; }
      if row.submitted || !due { return Quiet; }
      r := EvaluateDue(env);
    }
  }

  lemma VersionsUnique(kind: Kind, trace: seq<Event>)
    ensures var t := Run(Init(kind, Nothing), trace).exports;
      forall a, b :: a in t && b in t && t[a].version == t[b].version ==> a == b
  {
    ExportChain(kind, Nothing, trace);
  }

  /** The latest export is unique up to what it contains. */
  lemma LatestIsCurrent(t: map<nat, Export>, latest: Option<Found>, checksum: Checksum)
    requires IsLatest(t, latest) && Shows(t, checksum)
    requires forall a, b :: a in t && b in t && t[a].version == t[b].version ==> a == b
    ensures Current(latest, checksum)
  {
    var f :| IsLatest(t, Some(f)) && f.row.checksum == checksum;
    assert f.id in t;
  }

  lemma LatestFile(t: map<nat, Export>, latest: Option<Found>)
    requires IsLatest(t, latest)
    requires forall a, b :: a in t && b in t && t[a].version == t[b].version ==> a == b
    ensures ShowsFile(t) <==> latest.Some? && latest.value.row.checksum.Sha?
  {
    if f :| IsLatest(t, Some(f)) && f.row.checksum.Sha? { assert f.id in t; }
  }

  lemma ReminderIsNoFile(t: map<nat, Export>)
    requires Shows(t, ZeroReminder)
    requires forall a, b :: a in t && b in t && t[a].version == t[b].version ==> a == b
    ensures !ShowsFile(t)
  {
    var f :| IsLatest(t, Some(f)) && f.row.checksum == ZeroReminder;
    LatestFile(t, Some(f));
  }

  lemma NextIsFree(t: map<nat, Export>, latest: Option<Found>, id: nat)
    requires IsLatest(t, latest) && id !in t
    ensures forall checksum :: StoreExport(t, latest, id, checksum).Some?
  {}

  function StatusChecksum(input: Input): Checksum { if input.Content? then Sha(input.text) else ZeroReminder }

  lemma StoredIsThere(before: map<nat, Export>, after: map<nat, Export>, latest: Option<Found>, id: nat,
                      checksum: Checksum)
    requires StoreExport(before, latest, id, checksum) == Some(after)
    ensures id in after
  {}

  lemma StoredIsShown(before: map<nat, Export>, after: map<nat, Export>, latest: Option<Found>, id: nat,
                      checksum: Checksum)
    requires IsLatest(before, latest)
    requires if Current(latest, checksum) then after == before else StoreExport(before, latest, id, checksum) == Some(after)
    ensures Shows(after, checksum)
  {
    if Current(latest, checksum) {
      assert IsLatest(after, Some(latest.value));
    } else {
      assert IsLatest(after, Some(Found(id, after[id])));
    }
  }
}
