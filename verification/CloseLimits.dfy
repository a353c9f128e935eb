/** Runs that show what the theorems need and what the code does not prevent: a lost response that
    leads to a second journal for a date, and a rounding line that is sent but never stored. */
module CloseLimits {
  import opened Grouping
  import opened Ledger
  import opened FactBuilders
  import opened Journal
  import opened JournalLaws
  import opened Bokio
  import opened Store
  import opened Close
  import opened CloseInvariant
  import opened CloseTheorems
  import opened CloseRecovery

  const DAY := Date(2026, 1, 2)

  /** A payout of `amount`, booked under two consecutive ids. */
  function Payout(id: nat, amount: nat): seq<Fact> {
    PayoutTransfer(None, "payout:1", "1", DAY, amount, 1930, 1521, "{}").Facts(id)
  }

  /** A sale whose explicit VAT is -1: a debit of 100 and a credit of 101. */
  function OddSale(id: nat): seq<Fact> {
    SaleInput(Some(1), "charge:1", "charge", "1", DAY, None, 100, 101, -1, 0, 0,
              SaleAccounts(1510, 3001, 2611, 1521, 6570, 2645, 2614), "{}").Facts(id)
  }

  /** The facts of one event as a webhook ingests them: a debit and a credit. */
  predicate EventFacts(p: seq<Fact>, id: nat, group: string) {
    && |p| == 2 && p[0].id == id && p[1].id == id + 1 && p[0].direction != p[1].direction
    && forall i :: 0 <= i < 2 ==> p[i].group == group && p[i].date == DAY && p[i].status.Pending? && p[i].payload.Some?
  }

  function Table(p: seq<Fact>): map<nat, Fact>
    requires |p| == 2
  {
    map[p[0].id := p[0], p[1].id := p[1]]
  }

  function Sent(amount: nat): seq<JournalItem> { ItemsOf(Lines(Payout(0, amount))) }

  function Well(found: Option<nat>, id: nat, listing: seq<Fact>): Turn {
    Turn(Done, id, found, listing, Config(3740, 1, false))
  }

  // ---------------------------------------------------------------------------
  // The amounts
  // ---------------------------------------------------------------------------

  function DebitOf(i: JournalItem): Keyed<int> { Keyed(0, i.debit) }

  lemma {:induction false} DebitSumIsTotal(items: seq<JournalItem>)
    ensures DebitSum(items) == Total(MapSeq(DebitOf, items), 0)
  {
    if items != [] {
      var front := items[..|items| - 1];
      DebitSumIsTotal(front);
      assert MapSeq(DebitOf, items)[..|items| - 1] == MapSeq(DebitOf, front);
    }
  }

  lemma PairSums(x: Fact, y: Fact, direction: Direction)
    ensures SumDirection([x, y], direction)
      == (if x.direction == direction then x.amount else 0) + (if y.direction == direction then y.amount else 0)
  {
    assert [x][..0] == [];
    assert SumDirection([x], direction) == if x.direction == direction then x.amount else 0;
    assert [x, y][..1] == [x];
  }

  lemma PayoutSums(id: nat, amount: nat)
    ensures EventFacts(Payout(id, amount), id, "payout:1")
    ensures SumDirection(Payout(id, amount), Debit) == amount && SumDirection(Payout(id, amount), Credit) == amount
    ensures Lines(Payout(id, amount)) == Lines(Payout(0, amount))
  {
    var p := Payout(id, amount);
    PairSums(p[0], p[1], Debit);
    PairSums(p[0], p[1], Credit);
  }

  lemma OddSaleSums(id: nat)
    ensures EventFacts(OddSale(id), id, "charge:1:sale")
    ensures SumDirection(OddSale(id), Debit) == 100 && SumDirection(OddSale(id), Credit) == 101
  {
    var p := OddSale(id);
    assert "charge:1" + ":sale" == "charge:1:sale";
    assert p == [p[0], p[1]];
    PairSums(p[0], p[1], Debit);
    PairSums(p[0], p[1], Credit);
  }

  lemma SentDiffers(a: nat, b: nat)
    requires multiset(Sent(a)) == multiset(Sent(b))
    ensures a == b
  {
    PayoutSums(0, a);
    PayoutSums(0, b);
    ItemsConserve(Payout(0, a));
    ItemsConserve(Payout(0, b));
    hide ItemsOf, Lines, DebitSum;
    DebitSumIsTotal(Sent(a));
    DebitSumIsTotal(Sent(b));
    MapPermutation(DebitOf, Sent(a), Sent(b));
    TotalPermutation(MapSeq(DebitOf, Sent(a)), MapSeq(DebitOf, Sent(b)), 0);
  }

  lemma PayoutAggregates(id: nat, amount: nat, unused: nat)
    ensures Aggregate(Payout(id, amount), 3740, 1, unused) == Balanced(Sent(amount), None, amount, amount)
  {
    PayoutSums(id, amount);
    hide SumDirection, Lines, ItemsOf;
  }

  lemma OddSaleAggregates(id: nat, roundingId: nat)
    ensures var r := Aggregate(OddSale(id), 3740, 1, roundingId);
      r.Balanced? && r.rounding.Some? && r.rounding.value.id == roundingId && r.rounding.value.group == "rounding"
  {
    OddSaleSums(id);
    hide SumDirection, Lines, ItemsOf;
  }

  // ---------------------------------------------------------------------------
  // The ingest
  // ---------------------------------------------------------------------------

  lemma Go(notNull: bool, s: System, events: seq<Event>, e: Event) returns (s': System, events': seq<Event>)
    requires s == Run(Init(notNull), events)
    ensures s' == Next(s, e) && s' == Run(Init(notNull), events')
  {
    events' := events + [e];
    assert events'[..|events|] == events;
    s' := Next(s, e);
  }

  /** Only these facts are stored, and no journal row. */
  predicate Holding(s: System, p: seq<Fact>, id: nat) {
    && |p| == 2 && s.db.facts == Table(p) && s.db.attached == map[] && s.db.journals == map[]
    && forall k :: k in s.log.issued ==> k < id + 2
  }

  lemma EventListed(p: seq<Fact>, id: nat, group: string, db: Db)
    requires EventFacts(p, id, group) && db.facts == Table(p)
    ensures Lists(p, db.facts, PendingIds(db, DAY)) && ValidForPosting(p, false)
  {
    assert PendingIds(db, DAY) == {id, id + 1};
    assert p[0] in p && p[1] in p;
    assert IdsOf(p) == {id, id + 1};
  }

  lemma EventStored(db: Db, p: seq<Fact>, id: nat, group: string)
    requires EventFacts(p, id, group) && db.attached == map[]
    requires forall k :: k in db.facts ==> db.facts[k].group == group && db.facts[k].status.Pending?
    ensures UpsertFacts(db, p) == Some(db.(facts := Table(p)))
  {
    assert p[..1] == [p[0]] && p[..1][..0] == [];
    assert p[0] in p && p[1] in p;
    assert GroupsOf(p) == {group};
    assert db.facts - InGroups(db.facts, GroupsOf(p)) == map[];
    assert InsertAll(map[], p[..1], db.payloadNotNull) == Some(map[id := p[0]]);
    assert InsertAll(map[], p, db.payloadNotNull) == Some(Table(p));
  }

  lemma EventIssued(issued: map<nat, Fact>, p: seq<Fact>, id: nat, group: string)
    requires EventFacts(p, id, group)
    ensures Issue(issued, p).Keys == issued.Keys + {id, id + 1}
  {
    assert p[..1] == [p[0]] && [p[0]][..0] == [];
    assert Issue(issued, [p[0]]) == issued[id := p[0].Core()];
    assert Issue(issued, p) == Issue(issued, p[..1])[id + 1 := p[1].Core()];
  }

  lemma Ingest(notNull: bool, s: System, events: seq<Event>, p: seq<Fact>, id: nat, group: string)
    returns (s': System, events': seq<Event>)
    requires s == Run(Init(notNull), events) && At(s, DAY).Idle? && EventFacts(p, id, group)
    requires s.db.attached == map[] && s.db.journals == map[]
    requires forall k :: k in s.db.facts ==> s.db.facts[k].group == group && s.db.facts[k].status.Pending?
    requires forall k :: k in s.log.issued ==> k < id
    ensures s' == Run(Init(notNull), events') && Holding(s', p, id) && At(s', DAY).Idle?
    ensures s'.db.runs == s.db.runs && s'.remote == s.remote && s'.log.made == s.log.made
  {
    EventStored(s.db, p, id, group);
    EventIssued(s.log.issued, p, id, group);
    assert forall f :: f in p ==> f == p[0] || f == p[1];
    hide Run, UpsertFacts, Issue;
    s', events' := Go(notNull, s, events, Webhook(p));
  }

  // ---------------------------------------------------------------------------
  // A close up to the claimed run
  // ---------------------------------------------------------------------------

  /** Nothing half-done: the close lists the facts. */
  lemma ToList(notNull: bool, s: System, events: seq<Event>, p: seq<Fact>, id: nat, group: string)
    returns (s': System, events': seq<Event>)
    requires s == Run(Init(notNull), events) && EventFacts(p, id, group) && Holding(s, p, id) && At(s, DAY).ListPending?
    ensures s' == Run(Init(notNull), events') && At(s', DAY) == ReadRun(p)
    ensures s'.db == s.db && s'.remote == s.remote && s'.log == s.log
  {
    EventListed(p, id, group, s.db);
    hide Run, Lists, PendingIds, ValidForPosting;
    s', events' := Go(notNull, s, events, Advance(DAY, Well(None, 0, p)));
  }

  /** The first close of the date creates its run. */
  lemma FirstClaim(notNull: bool, s: System, events: seq<Event>, p: seq<Fact>, id: nat, group: string)
    returns (s': System, events': seq<Event>)
    requires s == Run(Init(notNull), events) && EventFacts(p, id, group) && Holding(s, p, id)
    requires At(s, DAY).Idle? && DAY !in s.db.runs
    ensures s' == Run(Init(notNull), events') && Holding(s', p, id) && At(s', DAY) == Prepare(p)
    ensures DAY in s'.db.runs && s'.remote == s.remote && s'.log == s.log
  {
    hide Run, EventFacts;
    s', events' := Go(notNull, s, events, Start(DAY));
    s', events' := Go(notNull, s', events', Advance(DAY, Well(None, 0, [])));
    s', events' := ToList(notNull, s', events', p, id, group);
    s', events' := Go(notNull, s', events', Advance(DAY, Well(None, 0, [])));
    assert At(s', DAY) == CreateRun(p);
    s', events' := Go(notNull, s', events', Advance(DAY, Well(None, 0, [])));
  }

  lemma Reclaim(notNull: bool, s: System, events: seq<Event>, p: seq<Fact>, id: nat)
    returns (s': System, events': seq<Event>)
    requires s == Run(Init(notNull), events) && Holding(s, p, id)
    requires At(s, DAY) == ReadRun(p) && DAY in s.db.runs && s.db.runs[DAY].RunFailed?
    ensures s' == Run(Init(notNull), events') && Holding(s', p, id) && At(s', DAY) == Prepare(p)
    ensures s'.remote == s.remote && s'.log == s.log
  {
    hide Run;
    s', events' := Go(notNull, s, events, Advance(DAY, Well(None, 0, [])));
    s', events' := Go(notNull, s', events', Advance(DAY, Well(None, 0, [])));
    s', events' := Go(notNull, s', events', Advance(DAY, Well(None, 0, [])));
  }

  /** A later close takes a run up again that failed without a journal row. */
  lemma LaterClaim(notNull: bool, s: System, events: seq<Event>, p: seq<Fact>, id: nat, group: string)
    returns (s': System, events': seq<Event>)
    requires s == Run(Init(notNull), events) && EventFacts(p, id, group) && Holding(s, p, id)
    requires At(s, DAY).Idle? && DAY in s.db.runs && s.db.runs[DAY].RunFailed?
    ensures s' == Run(Init(notNull), events') && Holding(s', p, id) && At(s', DAY) == Prepare(p)
    ensures s'.remote == s.remote && s'.log == s.log
  {
    hide Run, EventFacts;
    s', events' := Go(notNull, s, events, Start(DAY));
    s', events' := Go(notNull, s', events', Advance(DAY, Well(None, 0, [])));
    s', events' := Go(notNull, s', events', Advance(DAY, Well(None, 0, [])));
    s', events' := ToList(notNull, s', events', p, id, group);
    s', events' := Reclaim(notNull, s', events', p, id);
  }

  // ---------------------------------------------------------------------------
  // A lost response
  // ---------------------------------------------------------------------------

  ghost predicate Unseen(s: System, amount: nat) {
    forall e :: e in s.remote.journals ==> !SameEntry(s.remote.journals[e], Wanted(DAY, Sent(amount)))
  }

  lemma ToCreate(s: System, events: seq<Event>, id: nat, amount: nat) returns (s': System, events': seq<Event>)
    requires s == Run(Init(true), events) && Holding(s, Payout(id, amount), id) && Unseen(s, amount)
    requires At(s, DAY) == Prepare(Payout(id, amount))
    ensures s' == Run(Init(true), events') && Holding(s', Payout(id, amount), id)
    ensures At(s', DAY) == CreateJournal(Draft(Payout(id, amount), None, Sent(amount)))
    ensures s'.db == s.db && s'.remote == s.remote && s'.log == s.log
  {
    hide Run, Sent, Aggregate, SameEntry, Wanted, Payout;
    PayoutAggregates(id, amount, id + 2);
    s', events' := Go(true, s, events, Advance(DAY, Well(None, id + 2, [])));
    s', events' := Go(true, s', events', Advance(DAY, Well(None, 0, [])));
  }

  /** The create call takes effect, its response is lost, and the run is marked as failed. */
  lemma LoseResponse(s: System, events: seq<Event>, id: nat, amount: nat, entry: nat)
    returns (s': System, events': seq<Event>)
    requires s == Run(Init(true), events) && Holding(s, Payout(id, amount), id) && DAY in s.db.runs
    requires At(s, DAY) == CreateJournal(Draft(Payout(id, amount), None, Sent(amount))) && entry !in s.remote.journals
    ensures s' == Run(Init(true), events') && Holding(s', Payout(id, amount), id) && At(s', DAY).Idle?
    ensures DAY in s'.db.runs && s'.db.runs[DAY].RunFailed?
    ensures s'.remote.journals == s.remote.journals[entry := Wanted(DAY, Sent(amount))] && s'.log.made == s.log.made + {entry}
  {
    hide Run, Sent, Wanted, Payout;
    s', events' := Go(true, s, events, Advance(DAY, Well(None, entry, []).(outcome := Lost)));
    s', events' := Go(true, s', events', Advance(DAY, Well(None, 0, [])));
  }

  /** A first close loses the response to its create call. */
  lemma FirstClose() returns (s: System, events: seq<Event>)
    ensures s == Run(Init(true), events) && Holding(s, Payout(1, 100), 1) && At(s, DAY).Idle?
    ensures DAY in s.db.runs && s.db.runs[DAY].RunFailed?
    ensures s.remote.journals == map[10 := Wanted(DAY, Sent(100))] && s.log.made == {10}
  {
    hide Sent, Run, Holding, Unseen, Payout, EventFacts;
    s, events := Init(true), [];
    NothingRun(true);
    PayoutSums(1, 100);
    s, events := Ingest(true, s, events, Payout(1, 100), 1, "payout:1");
    s, events := FirstClaim(true, s, events, Payout(1, 100), 1, "payout:1");
    NothingSeen(s, 100);
    s, events := ToCreate(s, events, 1, 100);
    s, events := LoseResponse(s, events, 1, 100, 10);
  }

  /** Before a later close the payout has changed. */
  lemma LaterClose() returns (s: System, events: seq<Event>)
    ensures s == Run(Init(true), events) && At(s, DAY) == CreateJournal(Draft(Payout(3, 200), None, Sent(200)))
    ensures s.remote.journals == map[10 := Wanted(DAY, Sent(100))] && s.log.made == {10}
  {
    hide Sent, Run, Holding, Unseen, Payout, EventFacts, Wanted;
    s, events := FirstClose();
    PayoutSums(1, 100);
    FactsOf(s, Payout(1, 100), 1, "payout:1");
    PayoutSums(3, 200);
    s, events := Ingest(true, s, events, Payout(3, 200), 3, "payout:1");
    s, events := LaterClaim(true, s, events, Payout(3, 200), 3, "payout:1");
    OtherSeen(s, 10, 100, 200);
    s, events := ToCreate(s, events, 3, 200);
  }

  /** Two journals of the service for one date, both still there. */
  lemma LostResponseDoubles() returns (events: seq<Event>, e1: nat, e2: nat)
    ensures e1 != e2 && MadeOn(Run(Init(true), events), e1, DAY) && MadeOn(Run(Init(true), events), e2, DAY)
  {
    hide Sent, Run, Payout;
    e1, e2 := 10, 11;
    var s;
    s, events := LaterClose();
    s, events := Go(true, s, events, Advance(DAY, Well(None, e2, [])));
  }

  lemma NothingRun(notNull: bool)
    ensures Run(Init(notNull), []) == Init(notNull)
  {}

  lemma NothingSeen(s: System, amount: nat)
    requires s.remote.journals == map[]
    ensures Unseen(s, amount)
  {}

  lemma OtherSeen(s: System, e: nat, a: nat, b: nat)
    requires s.remote.journals == map[e := Wanted(DAY, Sent(a))] && a != b
    ensures Unseen(s, b)
  {
    hide Sent;
    if multiset(Sent(a)) == multiset(Sent(b)) { SentDiffers(a, b); }
  }

  lemma FactsOf(s: System, p: seq<Fact>, id: nat, group: string)
    requires Holding(s, p, id) && EventFacts(p, id, group)
    ensures s.db.attached == map[] && s.db.journals == map[]
    ensures forall k :: k in s.db.facts ==> s.db.facts[k].group == group && s.db.facts[k].status.Pending?
    ensures forall k :: k in s.log.issued ==> k < id + 2
  {}

  // ---------------------------------------------------------------------------
  // A rounding line
  // ---------------------------------------------------------------------------

  /** The close aggregates the sale with a rounding line. */
  lemma ToDraft(notNull: bool, s: System, events: seq<Event>) returns (s': System, events': seq<Event>, draft: Draft)
    requires s == Run(Init(notNull), events) && Holding(s, OddSale(1), 1) && At(s, DAY) == Prepare(OddSale(1))
    ensures s' == Run(Init(notNull), events') && s'.db.facts == Table(OddSale(1)) && s'.remote == s.remote
    ensures At(s', DAY) == FindJournal(draft)
    ensures draft.rounding.Some? && draft.rounding.value.id == 3 && draft.facts == OddSale(1) + [draft.rounding.value]
  {
    hide Run, Aggregate, OddSale;
    OddSaleAggregates(1, 3);
    s', events' := Go(notNull, s, events, Advance(DAY, Well(None, 3, [])));
    draft := At(s', DAY).draft;
  }

  /** The remote side holds nothing, so the journal is made. */
  lemma ToCommit(notNull: bool, s: System, events: seq<Event>, draft: Draft) returns (s': System, events': seq<Event>)
    requires s == Run(Init(notNull), events) && s.remote.journals == map[] && At(s, DAY) == FindJournal(draft)
    ensures s' == Run(Init(notNull), events') && s'.db == s.db && MadeOn(s', 10, DAY)
    ensures At(s', DAY) == CommitJournal(draft, 10)
  {
    hide Run, SameEntry;
    s', events' := Go(notNull, s, events, Advance(DAY, Well(None, 0, [])));
    s', events' := Go(notNull, s', events', Advance(DAY, Well(None, 10, [])));
  }

  /** Transaction 1 of that day, as the machine attempts it. */
  function Attempt(s: System): Option<Db>
    requires At(s, DAY).CommitJournal?
  {
    var p := At(s, DAY);
    CommitJournalTx(s.db, DAY, IdsOf(p.draft.facts), p.draft.rounding, JournalRow(p.entry, None, Title(DAY), DAY))
  }

  lemma CommitStores(s: System)
    requires At(s, DAY).CommitJournal? && DAY !in s.db.journals
    ensures DAY in Step(s, DAY, Well(None, 0, [])).db.journals <==> Attempt(s).Some?
  {}

  lemma NothingInTheWay(db: Db, facts: seq<Fact>, r: Fact)
    requires EventFacts(OddSale(1), 1, "charge:1:sale") && db.facts == Table(OddSale(1))
    requires facts == OddSale(1) + [r] && r.id == 3
    ensures 3 !in db.facts && !RoundingGroupLocked(db) && IdsOf(facts) <= db.facts.Keys - InGroups(db.facts, {"rounding"}) + {3}
  {
    hide OddSale;
    assert "charge:1:sale" != "rounding" by { assert |"charge:1:sale"| != |"rounding"|; }
    assert InGroups(db.facts, {"rounding"}) == {};
    forall id | id in IdsOf(facts) ensures id in {1, 2, 3} {
      var f :| f in facts && f.id == id;
    }
  }

  lemma BeforeCommit(s: System)
    requires Inv(s) && At(s, DAY).CommitJournal?
    ensures Claimed(s, DAY) && DraftInv(s, DAY, At(s, DAY).draft)
  {
    hide DraftInv, Claimed, FactsInv, RemoteInv, RowInv, CountInv, AttachedInv, RunRowInv;
    assert DateInv(s, DAY);
  }

  lemma RoundedDayCommits(notNull: bool, s: System, events: seq<Event>)
    requires s == Run(Init(notNull), events) && EventFacts(OddSale(1), 1, "charge:1:sale") && s.db.facts == Table(OddSale(1))
    requires At(s, DAY).CommitJournal? && At(s, DAY).draft.rounding.Some? && At(s, DAY).draft.rounding.value.id == 3
    requires At(s, DAY).draft.facts == OddSale(1) + [At(s, DAY).draft.rounding.value]
    ensures DAY !in s.db.journals && (Attempt(s).Some? <==> !notNull)
  {
    hide Run, OddSale, CommitJournalTx, DraftInv, RoundingGroupLocked, InGroups, Inv, EventFacts;
    var reached := ReachableHolds(notNull, events);
    BeforeCommit(s);
    PayloadFixed(notNull, events);
    var draft := At(s, DAY).draft;
    NothingInTheWay(s.db, draft.facts, draft.rounding.value);
    JournalTxCondition(s, DAY, draft, JournalRow(At(s, DAY).entry, None, Title(DAY), DAY));
  }

  /** A day with a rounding line, reached by booking a sale whose explicit VAT is -1: its journal
      is made, and stored if and only if the payload column accepts nil. */
  lemma RoundedDay(notNull: bool) returns (events: seq<Event>)
    ensures var s := Run(Init(notNull), events); var s' := Step(s, DAY, Well(None, 0, []));
      && At(s, DAY).CommitJournal? && At(s, DAY).draft.rounding.Some? && MadeOn(s, 10, DAY)
      && (DAY in s'.db.journals <==> !notNull)
      && (notNull ==> Abandoned(s', DAY))
  {
    hide Run, Holding, OddSale, EventFacts, Attempt, Step, Abandoned;
    var s;
    s, events := Init(notNull), [];
    NothingRun(notNull);
    OddSaleSums(1);
    s, events := Ingest(notNull, s, events, OddSale(1), 1, "charge:1:sale");
    s, events := FirstClaim(notNull, s, events, OddSale(1), 1, "charge:1:sale");
    var draft;
    s, events, draft := ToDraft(notNull, s, events);
    s, events := ToCommit(notNull, s, events, draft);
    RoundedDayCommits(notNull, s, events);
    CommitStores(s);
    if notNull { RoundedDayIsNeverStored(notNull, events, DAY, Well(None, 0, [])); }
  }
}
