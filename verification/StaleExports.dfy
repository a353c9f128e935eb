/** A file that stays the latest export although nothing is ready any more. */
module StaleExports {
  import opened Grouping
  import opened Store
  import opened Periods
  import opened Filing
  import opened Exports
  import opened Evaluation

  lemma {:induction false} RunConcat(s: System, a: seq<Event>, b: seq<Event>)
    ensures Run(s, a + b) == Run(Run(s, a), b)
  {
    if b == [] {
      assert a + b == a;
    } else {
      RunConcat(s, a, b[..|b| - 1]);
      assert (a + b)[..|a + b| - 1] == a + b[..|b| - 1];
    }
  }

  lemma Go(s: System, s0: System, events: seq<Event>, e: Event) returns (s': System, events': seq<Event>)
    requires s == Run(s0, events)
    ensures s' == Next(s, e) && s' == Run(s0, events') && events' == events + [e]
  {
    events' := events + [e];
    assert events'[..|events|] == events;
    s' := Next(s, e);
  }

  /** An answer that succeeds. */
  function Well(latest: Option<Found>, id: nat): Event { Advance(0, Done, latest, id) }

  /** A forced evaluation, its answers all successes. */
  lemma Evaluated(s: System, latest: Option<Found>, id: nat) returns (events: seq<Event>)
    requires At(s, 0).Idle? && !s.row.submitted && IsLatest(s.exports, latest)
    ensures var s' := Run(s, events); var p := Decided(s.kind, s.row, latest, s.input);
      && events != [] && events[0] == Begin(0, true) && (forall i :: 0 < i < |events| ==> events[i] == Well(latest, id))
      && At(s', 0).Idle? && s'.kind == s.kind && s'.input == s.input
      && (p.Mark? ==> s'.exports == s.exports && s'.row == Marked(s.row, p.status))
      && (p.Mail? && StoreExport(s.exports, latest, id, p.checksum).Some? ==>
          && Some(s'.exports) == StoreExport(s.exports, latest, id, p.checksum)
          && s'.row == Marked(s.row, StatusOf(p.checksum)))
  {
    hide Run, IsLatest, StoreExport, Decided;
    var m;
    m, events := s, [];
    NothingRun(s);
    m, events := Go(m, s, events, Begin(0, true));
    m, events := Go(m, s, events, Well(latest, id));
    m, events := Go(m, s, events, Well(latest, id));
    m, events := Go(m, s, events, Well(latest, id));
    assert At(m, 0) == Decided(s.kind, s.row, latest, s.input);
    DecidedIsMailOrMark(s.kind, s.row, latest, s.input);
    if At(m, 0).Mail? { m, events := Go(m, s, events, Well(latest, id)); }
    m, events := Go(m, s, events, Well(latest, id));
  }

  lemma NothingRun(s: System)
    ensures Run(s, []) == s
  {}

  lemma DecidedIsMailOrMark(kind: Kind, row: PeriodRow, latest: Option<Found>, input: Input)
    ensures var p := Decided(kind, row, latest, input); p.Mark? || (p.Mail? && p.latest == latest)
  {}

  lemma Stored(t: map<nat, Export>, latest: Option<Found>, id: nat, checksum: Checksum)
    requires IsLatest(t, latest) && id !in t
    ensures StoreExport(t, latest, id, checksum).Some?
    ensures var t' := StoreExport(t, latest, id, checksum).value;
      id in t' && t'[id].checksum == checksum && IsLatest(t', Some(Found(id, t'[id])))
  {}

  /** Sends a file, then takes its entries away. */
  lemma FileThenNothing(s: System, latest: Option<Found>, id: nat, text: string) returns (events: seq<Event>)
    requires At(s, 0).Idle? && !s.row.submitted && IsLatest(s.exports, latest) && id !in s.exports
    requires !Current(latest, Sha(text))
    ensures var s' := Run(s, events);
      && At(s', 0).Idle? && s'.input.Nothing? && s'.kind == s.kind && s'.row == Marked(s.row, Exported)
      && id in s'.exports && s'.exports[id].checksum == Sha(text) && IsLatest(s'.exports, Some(Found(id, s'.exports[id])))
  {
    hide Run, IsLatest, StoreExport;
    NothingRun(s);
    var m;
    m, events := Go(s, s, [], ChangeEntries(Content(text)));
    Stored(s.exports, latest, id, Sha(text));
    var send := Evaluated(m, latest, id);
    RunConcat(s, events, send);
    events := events + send;
    m, events := Go(Run(s, events), s, events, ChangeEntries(Nothing));
  }

  /** With no entry ready, an evaluation without a fault leaves the file as it is, marks the period
      as unchanged and sends nothing: always for a periodic summary, and for the OSS file where a
      reminder was once sent. */
  lemma FileStays(kind: Kind) returns (before: seq<Event>, evaluation: seq<Event>)
    ensures var s, s' := Run(Init(kind, Nothing), before), Run(Init(kind, Nothing), before + evaluation);
      && s.input.Nothing? && !s.row.submitted && ShowsFile(s.exports)
      && evaluation != [] && evaluation[0] == Begin(0, true)
      && (forall i :: 0 < i < |evaluation| ==> evaluation[i].Advance? && evaluation[i].outcome.Done?)
      && At(s', 0).Idle? && s'.exports == s.exports && s'.row == s.row.(status := Unchanged) && s'.row.status.Unchanged?
  {
    hide Run, IsLatest, StoreExport, ShowsFile;
    var s0 := Init(kind, Nothing);
    NothingRun(s0);
    NothingLatest();
    before := [];
    var latest := None;
    if kind.OssUnion? {
      Stored(map[], None, 5, ZeroReminder);
      before := Evaluated(s0, None, 5);
      latest := Some(Found(5, Run(s0, before).exports[5]));
      OnlyStored(None, 5, ZeroReminder);
    }
    var s := Run(s0, before);
    var file := FileThenNothing(s, latest, 7, "file");
    RunConcat(s0, before, file);
    before := before + file;
    s := Run(s0, before);
    latest := Some(Found(7, s.exports[7]));
    FileIsShown(s.exports, latest.value);
    evaluation := Evaluated(s, latest, 9);
    RunConcat(s0, before, evaluation);
  }

  lemma NothingLatest()
    ensures IsLatest(map[], None)
  {}

  lemma OnlyStored(latest: Option<Found>, id: nat, checksum: Checksum)
    requires latest.None?
    ensures StoreExport(map[], latest, id, checksum) == Some(map[id := Export(1, checksum, None)])
  {}

  lemma FileIsShown(t: map<nat, Export>, f: Found)
    requires IsLatest(t, Some(f)) && f.row.checksum.Sha?
    ensures ShowsFile(t)
  {}
}
