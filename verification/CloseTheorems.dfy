/** What every run of the posting protocol guarantees.

    `Reachable(s)` is any state after any sequence of events from an empty system. */
module CloseTheorems {
  import opened Grouping
  import opened Text
  import opened Ledger
  import opened Journal
  import opened JournalLaws
  import opened Bokio
  import opened Store
  import opened StoreLaws
  import opened Close
  import opened CloseInvariant
  import opened CloseSteps
  import opened Periods
  import opened PeriodLaws

  lemma ReachableHolds(payloadNotNull: bool, events: seq<Event>) returns (s: System)
    ensures s == Run(Init(payloadNotNull), events) && Inv(s)
  {
    s := Run(Init(payloadNotNull), events);
    InitHolds(payloadNotNull);
    RunKeeps(Init(payloadNotNull), events);
  }

  // ---------------------------------------------------------------------------
  // Sent equals stored
  // ---------------------------------------------------------------------------

  function IdSeq(facts: seq<Fact>): (ids: seq<nat>)
    ensures |ids| == |facts|
    ensures forall i :: 0 <= i < |facts| ==> ids[i] == facts[i].id
  {
    seq(|facts|, i requires 0 <= i < |facts| => facts[i].id)
  }

  lemma IdSeqSet(facts: seq<Fact>)
    ensures ToSet(IdSeq(facts)) == IdsOf(facts)
  {
    forall id | id in IdsOf(facts) ensures id in ToSet(IdSeq(facts)) {
      var f :| f in facts && f.id == id;
      var i :| 0 <= i < |facts| && facts[i] == f;
      assert IdSeq(facts)[i] == id;
    }
    forall id | id in ToSet(IdSeq(facts)) ensures id in IdsOf(facts) {
      var i :| 0 <= i < |facts| && IdSeq(facts)[i] == id;
      assert facts[i] in facts;
    }
  }

  function IssuedLine(issued: map<nat, Fact>): nat -> Keyed<string> {
    id => if id in issued then LineOf(issued[id]) else Keyed("", 0)
  }

  lemma GenuineLines(facts: seq<Fact>, issued: map<nat, Fact>)
    requires Genuine(facts, issued)
    ensures Lines(facts) == MapSeq(IssuedLine(issued), IdSeq(facts))
  {
    forall i | 0 <= i < |facts| ensures LineOf(facts[i]) == IssuedLine(issued)(facts[i].id) {
      assert LineOf(facts[i]) == LineOf(facts[i].Core());
    }
  }

  /** Two listings of the same facts, in any order and whatever their status by then, have
      the same lines. */
  lemma SameIdsSameLines(a: seq<Fact>, b: seq<Fact>, issued: map<nat, Fact>)
    requires Genuine(a, issued) && Genuine(b, issued) && IdsOf(a) == IdsOf(b)
    ensures multiset(Lines(a)) == multiset(Lines(b))
  {
    GenuineLines(a, issued);
    GenuineLines(b, issued);
    IdSeqSet(a);
    IdSeqSet(b);
    DistinctSameSet(IdSeq(a), IdSeq(b));
    MapPermutation(IssuedLine(issued), IdSeq(a), IdSeq(b));
  }

  /** Aggregating the facts attached to a date with a journal, in any order and with any
      configuration, succeeds without a rounding line and gives the items that were sent. */
  lemma AttachedReaggregate(s: System, d: Date, listing: seq<Fact>, account: int, tolerance: int, id: nat)
    requires Inv(s) && d in s.db.journals && Lists(listing, s.db.facts, Attached(s.db, d))
    ensures Difference(listing) == 0 && d in s.log.booked
    ensures ItemsOf(Lines(listing)) == ItemsOf(Lines(s.log.booked[d]))
    ensures Aggregate(listing, account, tolerance, id)
      == Balanced(ItemsOf(Lines(s.log.booked[d])), None, SumDirection(listing, Debit), SumDirection(listing, Credit))
  {
    assert DateInv(s, d);
    ListedIsGenuine(s, Attached(s.db, d), listing);
    SameIdsSameLines(listing, s.log.booked[d], s.log.issued);
    SameLinesSameJournal(listing, s.log.booked[d]);
  }

  /** In every reachable state a stored journal row names a remote journal with its title and
      date, whose items are exactly the aggregate of the facts attached to the run. */
  lemma SentEqualsStored(payloadNotNull: bool, events: seq<Event>, d: Date, listing: seq<Fact>, account: int,
                         tolerance: int, id: nat)
    requires var s := Run(Init(payloadNotNull), events);
      d in s.db.journals && Lists(listing, s.db.facts, Attached(s.db, d))
    ensures var s := Run(Init(payloadNotNull), events);
      var row, r := s.db.journals[d], Aggregate(listing, account, tolerance, id);
      && row.entry in s.remote.journals && r.Balanced? && r.rounding.None?
      && s.remote.journals[row.entry].title == row.title == Title(d)
      && s.remote.journals[row.entry].date == row.date == d
      && multiset(s.remote.journals[row.entry].items) == multiset(r.items)
  {
    var s := ReachableHolds(payloadNotNull, events);
    assert DateInv(s, d);
    AttachedReaggregate(s, d, listing, account, tolerance, id);
  }

  // ---------------------------------------------------------------------------
  // The texts by which a date is recognised
  // ---------------------------------------------------------------------------

  lemma DateText(d: Date)
    requires CivilDate(d)
    ensures var text := FormatDate(d);
      && |text| == 10 && text[4] == '-' == text[7]
      && AllDigits(text[..4]) && Value(text[..4]) == d.year
      && AllDigits(text[5..7]) && Value(text[5..7]) == d.month
      && AllDigits(text[8..]) && Value(text[8..]) == d.day
  {
    FourDigits(d.year);
    TwoDigits(d.month);
    TwoDigits(d.day);
    ValueOfPad(d.year, 4);
    ValueOfPad(d.month, 2);
    ValueOfPad(d.day, 2);
    hide Pad, Value;
    var text := FormatDate(d);
    assert text[..4] == Pad(d.year, 4) && text[5..7] == Pad(d.month, 2) && text[8..] == Pad(d.day, 2);
  }

  /** The title of a date's journal ends with the date, and the description of its upload is the title
      with a suffix, in a close as in the resuming of one: both tell the date. */
  lemma TitlesTellDates(a: Date, b: Date, row: JournalRow)
    requires CivilDate(a) && CivilDate(b)
    ensures Title(a) == "Stripe dagsverifikat " + FormatDate(a) && CloseDescription(a) == Title(a) + " underlag"
    ensures Title(a) == Title(b) <==> a == b
    ensures CloseDescription(a) == CloseDescription(b) <==> a == b
    ensures row.title == Title(a) ==> ResumeDescription(row) == CloseDescription(a)
  {
    DateText(a);
    DateText(b);
    hide FormatDate, Value;
    var n, x, y := |TITLE_PREFIX|, FormatDate(a), FormatDate(b);
    assert Title(a)[n..] == x && Title(b)[n..] == y;
    assert CloseDescription(a)[n..n + 10] == x && CloseDescription(b)[n..n + 10] == y;
    if x == y { assert x[..4] == y[..4] && x[5..7] == y[5..7] && x[8..] == y[8..]; }
  }

  // ---------------------------------------------------------------------------
  // Exactly once
  // ---------------------------------------------------------------------------

  /** No create call for the date took effect without its response arriving. */
  predicate NoLostCreate(s: System, events: seq<Event>, d: Date) {
    events == [] ||
      (&& NoLostCreate(s, events[..|events| - 1], d)
       && var e := events[|events| - 1];
       !(e.Advance? && e.date == d && e.turn.outcome.Lost? && At(Run(s, events[..|events| - 1]), d).CreateJournal?))
  }

  lemma NothingLostBy(s: System, d: Date, t: Turn)
    requires !At(s, d).CreateJournal?
    ensures Step(s, d, t).log.lost == s.log.lost
  {
    hide CommitJournalTx, CommitUploadTx, Aggregate, Lists, PendingIds, UploadLookup, JournalLookup, ValidForPosting;
    if At(s, d).Prepare? || At(s, d).ResumeUpload? || At(s, d).Upload? || At(s, d).CommitJournal? {
    } else {
      assert Step(s, d, t).log == s.log;
    }
  }

  lemma LostOnlyByCreate(s: System, e: Event, d: Date)
    requires d !in s.log.lost && d in Next(s, e).log.lost
    ensures e.Advance? && e.date == d && e.turn.outcome.Lost? && At(s, d).CreateJournal?
  {
    hide Step;
    match e
    case Advance(d', t) =>
      if At(s, d').CreateJournal? { LostByCreate(s, d', t); } else { NothingLostBy(s, d', t); }
    case _ =>
  }

  lemma LostByCreate(s: System, d: Date, t: Turn)
    requires At(s, d).CreateJournal?
    ensures Step(s, d, t).log.lost <= s.log.lost + if t.outcome.Lost? then {d} else {}
  {}

  lemma {:induction false} NothingLost(s: System, events: seq<Event>, d: Date)
    requires d !in s.log.lost && NoLostCreate(s, events, d)
    ensures d !in Run(s, events).log.lost
  {
    if events != [] {
      NothingLost(s, events[..|events| - 1], d);
      if d in Run(s, events).log.lost {
        LostOnlyByCreate(Run(s, events[..|events| - 1]), events[|events| - 1], d);
      }
    }
  }

  /** If no create response is lost, at most one remote journal is ever made per date,
      however often the date is retried and wherever crashes and failures fall. */
  lemma OneJournalPerDate(payloadNotNull: bool, events: seq<Event>, d: Date, e1: nat, e2: nat)
    requires NoLostCreate(Init(payloadNotNull), events, d)
    requires var s := Run(Init(payloadNotNull), events); MadeOn(s, e1, d) && MadeOn(s, e2, d)
    ensures e1 == e2
  {
    var s := ReachableHolds(payloadNotNull, events);
    NothingLost(Init(payloadNotNull), events, d);
    assert DateInv(s, d);
  }

  /** Even with lost responses no two journals made by the service have the same title, date
      and multiset of items, and no two uploads the same journal and description. */
  lemma NoDuplicates(payloadNotNull: bool, events: seq<Event>)
    ensures var s := Run(Init(payloadNotNull), events);
      && (forall e1, e2 :: e1 in s.log.made && e2 in s.log.made && e1 != e2 ==>
          e1 in s.remote.journals && e2 in s.remote.journals && !SameEntry(s.remote.journals[e1], s.remote.journals[e2]))
      && (forall u1, u2 :: u1 in s.log.uploaded && u2 in s.log.uploaded && u1 != u2 ==>
          u1 in s.remote.uploads && u2 in s.remote.uploads && s.remote.uploads[u1] != s.remote.uploads[u2])
  {
    var s := ReachableHolds(payloadNotNull, events);
    hide Run, Init, SameEntry;
  }

  // ---------------------------------------------------------------------------
  // Run states
  // ---------------------------------------------------------------------------

  /** The run's status and the journal row always fit, and a close that claims a run never
      holds one that already has a journal. */
  lemma RunStates(payloadNotNull: bool, events: seq<Event>, d: Date)
    ensures var s := Run(Init(payloadNotNull), events);
      && (d in s.db.journals ==> d in s.db.runs)
      && (d in s.db.runs ==>
        && (s.db.runs[d].Started? ==> d !in s.db.journals)
        && (s.db.runs[d].JournalCreated? ==> d in s.db.journals && s.db.journals[d].upload.None?)
        && !s.db.runs[d].UploadCreated?
        && (s.db.runs[d].Completed? <==> d in s.db.journals && s.db.journals[d].upload.Some?))
      && (At(s, d).Prepare? || At(s, d).FindJournal? || At(s, d).CreateJournal? || At(s, d).CommitJournal? ==>
          d in s.db.runs && s.db.runs[d].Started? && d !in s.db.journals)
  {
    var s := ReachableHolds(payloadNotNull, events);
    assert DateInv(s, d);
  }

  predicate IsCompleted(s: System, d: Date) { d in s.db.runs && s.db.runs[d].Completed? }

  lemma CompletedIdle(s: System, d: Date, t: Turn)
    requires Inv(s) && IsCompleted(s, d)
    ensures Step(s, d, t) == Goto(s, d, At(Step(s, d, t), d)) || Step(s, d, t) == s
    ensures At(s, d).ReadRun? ==> Step(s, d, t) == Goto(s, d, Idle)
  {
    assert DateInv(s, d);
  }

  lemma CompletedStep(s: System, e: Event, d: Date)
    requires Inv(s) && IsCompleted(s, d)
    ensures var s' := Next(s, e);
      && IsCompleted(s', d) && d in s.db.journals && d in s'.db.journals && s'.db.journals[d] == s.db.journals[d]
      && Attached(s'.db, d) == Attached(s.db, d)
      && (forall id :: id in Attached(s.db, d) ==> id in s.db.facts && id in s'.db.facts && s'.db.facts[id] == s.db.facts[id])
      && Grows(s.remote.journals, s'.remote.journals)
  {
    hide SameEntry, ItemsOf, Lines, Genuine, BookedInv, FactsInv, RemoteInv;
    assert DateInv(s, d);
    match e
    case Advance(d', t) =>
      if d' == d { CompletedIdle(s, d, t); } else { StepKeeps(s, d', t); assert Undisturbed(s, Step(s, d', t), d); }
    case Webhook(facts) =>
      if StepWebhook(s, facts) != s { WebhookUndisturbed(s, facts, StepWebhook(s, facts), d); }
    case _ =>
  }

  /** Once a date is completed, its run, its journal row, its attached facts and the remote
      journal never change again, whatever happens afterwards. */
  lemma {:induction false} CompletedIsFinal(s: System, events: seq<Event>, d: Date)
    requires Inv(s) && IsCompleted(s, d)
    ensures var s' := Run(s, events);
      && IsCompleted(s', d) && d in s.db.journals && d in s'.db.journals && s'.db.journals[d] == s.db.journals[d]
      && Attached(s'.db, d) == Attached(s.db, d)
      && (forall id :: id in Attached(s.db, d) ==> id in s.db.facts && id in s'.db.facts && s'.db.facts[id] == s.db.facts[id])
      && Grows(s.remote.journals, s'.remote.journals)
  {
    assert DateInv(s, d);
    if events != [] {
      var front := events[..|events| - 1];
      CompletedIsFinal(s, front, d);
      RunKeeps(s, front);
      CompletedStep(Run(s, front), events[|events| - 1], d);
    }
  }

  // ---------------------------------------------------------------------------
  // The life of a fact
  // ---------------------------------------------------------------------------

  /** Unsettled facts are attached to no run; batched facts to exactly one, which has a
      journal without attachment; posted facts to exactly one, which is completed. */
  lemma FactLifecycle(payloadNotNull: bool, events: seq<Event>, id: nat)
    requires id in Run(Init(payloadNotNull), events).db.facts
    ensures var s := Run(Init(payloadNotNull), events); var f := s.db.facts[id];
      && !f.status.Reversed? && !f.status.Failed?
      && (f.status.Pending? || f.status.NeedsReview? ==> forall d :: id !in Attached(s.db, d))
      && (f.status.Batched? ==> forall d :: id in Attached(s.db, d) <==> d == f.date)
      && (f.status.Batched? ==> f.date in s.db.journals && s.db.journals[f.date].upload.None?)
      && (f.status.Posted? ==> forall d :: id in Attached(s.db, d) <==> d == f.date)
      && (f.status.Posted? ==> IsCompleted(s, f.date))
  {
    var s := ReachableHolds(payloadNotNull, events);
    assert FactInv(s, id);
    assert DateInv(s, s.db.facts[id].date);
    forall d | id in Attached(s.db, d) ensures d == s.db.facts[id].date { assert DateInv(s, d); }
  }

  /** No fact is counted in two committed journals. */
  lemma NoFactTwice(payloadNotNull: bool, events: seq<Event>, d1: Date, d2: Date, id: nat)
    requires var s := Run(Init(payloadNotNull), events);
      && d1 in s.db.journals && d2 in s.db.journals && d1 in s.log.booked && d2 in s.log.booked
      && id in IdsOf(s.log.booked[d1]) && id in IdsOf(s.log.booked[d2])
    ensures d1 == d2
  {
    var s := ReachableHolds(payloadNotNull, events);
    assert DateInv(s, d1) && DateInv(s, d2);
  }

  lemma LockedStays(facts: map<nat, Fact>)
    ensures LockedKept(facts, facts)
  {}

  lemma LockedStep(s: System, d: Date, t: Turn)
    ensures LockedKept(s.db.facts, Step(s, d, t).db.facts)
  {
    hide CommitJournalTx, CommitUploadTx, Aggregate, LockedKept;
    LockedStays(s.db.facts);
    match At(s, d)
    case CommitJournal(draft, entry) =>
      var row := JournalRow(entry, None, Title(d), d);
      if CommitJournalTx(s.db, d, IdsOf(draft.facts), draft.rounding, row).Some? {
        CommitJournalKeepsLocked(s.db, d, IdsOf(draft.facts), draft.rounding, row);
      }
    case ResumeCommit(row, ids) => if CommitUploadTx(s.db, d, ids, row).Some? { CommitUploadKeepsLocked(s.db, d, ids, row); }
    case CommitUpload(row, ids) => if CommitUploadTx(s.db, d, ids, row).Some? { CommitUploadKeepsLocked(s.db, d, ids, row); }
    case _ => assert Step(s, d, t).db.facts == s.db.facts;
  }

  lemma LockedOnce(before: map<nat, Fact>, mid: System, e: Event)
    requires LockedKept(before, mid.db.facts)
    ensures LockedKept(before, Next(mid, e).db.facts)
  {
    match e
    case Advance(d, t) => LockedStep(mid, d, t);
    case Webhook(facts) => if UpsertFacts(mid.db, facts).Some? { UpsertKeepsLocked(mid.db, facts); }
    case _ => assert Next(mid, e).db == mid.db;
  }

  /** A booked fact is never deleted or rewritten, whatever is ingested afterwards. */
  lemma {:induction false} LockedFactsStay(s: System, events: seq<Event>)
    ensures LockedKept(s.db.facts, Run(s, events).db.facts)
    ensures forall id :: (
      id in s.db.facts && s.db.facts[id].status in {Batched, FactStatus.Posted, Reversed} ==>
      && id in Run(s, events).db.facts
      && Run(s, events).db.facts[id].(status := Pending) == s.db.facts[id].(status := Pending))
  {
    if events != [] {
      LockedFactsStay(s, events[..|events| - 1]);
      LockedOnce(s.db.facts, Run(s, events[..|events| - 1]), events[|events| - 1]);
    }
  }
}
