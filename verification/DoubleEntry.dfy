/** Double entry from the fact builders to the journal: what balances, what nets to zero. */
module DoubleEntry {
  import opened Grouping
  import opened Ledger
  import opened Journal
  import opened JournalLaws
  import opened FactBuilders

  function Signed(f: Fact): int { if f.direction == Debit then f.amount else -f.amount }

  /** Debits minus credits of the facts that satisfy `p`. */
  function Net(facts: seq<Fact>, p: Fact -> bool): int {
    if facts == [] then 0
    else
      var f := facts[|facts| - 1];
      Net(facts[..|facts| - 1], p) + if p(f) then Signed(f) else 0
  }

  function Dated(d: Date): Fact -> bool { (f: Fact) => f.date == d }

  function OnAccount(account: int): Fact -> bool { (f: Fact) => f.account == account }

  function OnDate(facts: seq<Fact>, d: Date): seq<Fact> {
    if facts == [] then []
    else
      var f := facts[|facts| - 1];
      OnDate(facts[..|facts| - 1], d) + if f.date == d then [f] else []
  }

  /** The debits of every posting date equal its credits. */
  ghost predicate BalancesDaily(facts: seq<Fact>) {
    forall d :: Net(facts, Dated(d)) == 0
  }

  lemma {:induction false} NetConcat(a: seq<Fact>, b: seq<Fact>, p: Fact -> bool)
    ensures Net(a + b, p) == Net(a, p) + Net(b, p)
  {
    if b == [] {
      assert a + b == a;
    } else {
      NetConcat(a, b[..|b| - 1], p);
      assert (a + b)[..|a + b| - 1] == a + b[..|b| - 1];
    }
  }

  lemma NetOfOne(f: Fact, p: Fact -> bool)
    ensures Net([f], p) == if p(f) then Signed(f) else 0
  {
    assert [f][..0] == [];
  }

  lemma NetOfTwo(f: Fact, g: Fact, p: Fact -> bool)
    ensures Net([f, g], p) == (if p(f) then Signed(f) else 0) + (if p(g) then Signed(g) else 0)
  {
    NetOfOne(f, p);
    assert [f, g][..1] == [f];
  }

  lemma DifferenceSnoc(facts: seq<Fact>, f: Fact)
    ensures Difference(facts + [f]) == Difference(facts) + Signed(f)
  {
    assert (facts + [f])[..|facts|] == facts;
  }

  lemma {:induction false} NetOfDate(facts: seq<Fact>, d: Date)
    ensures Difference(OnDate(facts, d)) == Net(facts, Dated(d))
  {
    if facts != [] {
      var front, f := facts[..|facts| - 1], facts[|facts| - 1];
      NetOfDate(front, d);
      DifferenceSnoc(OnDate(front, d), f);
      hide Difference;
      assert OnDate(front, d) + [] == OnDate(front, d);
    }
  }

  lemma BalanceConcat(a: seq<Fact>, b: seq<Fact>)
    requires BalancesDaily(b)
    ensures BalancesDaily(a + b) <==> BalancesDaily(a)
  {
    forall d ensures Net(a + b, Dated(d)) == Net(a, Dated(d)) { NetConcat(a, b, Dated(d)); }
  }

  /** The same amount to and from two accounts on one date. */
  lemma PairBalances(f: Fact, g: Fact)
    requires f.direction == Debit && g.direction == Credit && f.amount == g.amount && f.date == g.date
    ensures BalancesDaily([f, g])
  {
    forall d ensures Net([f, g], Dated(d)) == 0 { NetOfTwo(f, g, Dated(d)); }
  }

  // ---------------------------------------------------------------------------
  // What each builder's facts do
  // ---------------------------------------------------------------------------

  lemma TransferBalances(t: Transfer, id: nat)
    ensures BalancesDaily(t.Facts(id))
  {
    PairBalances(t.Facts(id)[0], t.Facts(id)[1]);
  }

  /** When a gross amount, split into revenue = gross - VAT and VAT, is booked in balance:
      the VAT is zero, or it is booked and lies between zero and the gross amount, or it is
      not booked and happens to be twice the gross amount. */
  predicate VatFits(gross: int, vat: int, account: int) {
    || vat == 0
    || (account != 0 && 0 < vat <= gross)
    || (account == 0 && vat == 2 * gross)
  }

  function BookedVat(vat: int, account: int): int { if vat > 0 && account != 0 then vat else 0 }

  /** The refund pays back the whole sale, with all of its VAT. */
  predicate Mirrors(r: RefundInput, s: SaleInput) {
    && r.taxCase == s.taxCase && r.gross == s.gross && r.revenue == s.revenue
    && r.vat == s.vat && r.outputVat == s.accounts.outputVat
  }

  lemma SplitFits(gross: int, vat: int, account: int)
    requires gross >= 0
    ensures gross == Abs(gross - vat) + BookedVat(vat, account) <==> VatFits(gross, vat, account)
  {}

  lemma SaleGroupNet(s: SaleInput, id: nat, p: Fact -> bool)
    ensures Net(s.SaleGroup(id), p)
      == (if p(s.SaleGroup(id)[0]) then Abs(s.gross) else 0) - (if p(s.SaleGroup(id)[1]) then Abs(s.revenue) else 0)
       - (if |s.SaleGroup(id)| == 3 && p(s.SaleGroup(id)[2]) then s.vat else 0)
    ensures |s.SaleGroup(id)| == if BookedVat(s.vat, s.accounts.outputVat) > 0 then 3 else 2
  {
    var g := s.SaleGroup(id);
    NetOfTwo(g[0], g[1], p);
    if |g| == 3 {
      NetOfOne(g[2], p);
      assert g == [g[0], g[1]] + [g[2]];
      NetConcat([g[0], g[1]], [g[2]], p);
    } else {
      assert g == [g[0], g[1]];
    }
  }

  lemma SaleGroupDay(s: SaleInput, id: nat, d: Date)
    requires s.gross >= 0
    ensures Net(s.SaleGroup(id), Dated(d)) ==
      if d == s.chargeDate then s.gross - Abs(s.revenue) - BookedVat(s.vat, s.accounts.outputVat) else 0
  {
    SaleGroupNet(s, id, Dated(d));
  }

  lemma FeeGroupBalances(s: SaleInput, id: nat)
    ensures BalancesDaily(s.FeeGroup(id))
  {
    var g := s.FeeGroup(id);
    if g != [] {
      PairBalances(g[0], g[1]);
      if |g| == 4 {
        PairBalances(g[2], g[3]);
        assert g == [g[0], g[1]] + [g[2], g[3]];
        BalanceConcat([g[0], g[1]], [g[2], g[3]]);
      } else {
        assert g == [g[0], g[1]];
      }
    }
  }

  lemma AvailableGroupBalances(s: SaleInput, id: nat)
    ensures BalancesDaily(s.AvailableGroup(id))
  {
    var g := s.AvailableGroup(id);
    if g != [] { PairBalances(g[0], g[1]); }
  }

  lemma SaleGroupBalances(s: SaleInput, id: nat)
    requires s.gross > 0 && s.revenue == s.gross - s.vat
    ensures BalancesDaily(s.SaleGroup(id)) <==> VatFits(s.gross, s.vat, s.accounts.outputVat)
  {
    hide SaleInput.SaleGroup, Net;
    SplitFits(s.gross, s.vat, s.accounts.outputVat);
    SaleGroupDay(s, id, s.chargeDate);
    if BalancesDaily(s.SaleGroup(id)) { assert Net(s.SaleGroup(id), Dated(s.chargeDate)) == 0; }
    if VatFits(s.gross, s.vat, s.accounts.outputVat) {
      forall d ensures Net(s.SaleGroup(id), Dated(d)) == 0 { SaleGroupDay(s, id, d); }
    }
  }

  /** A sale balances on every date exactly when its VAT fits. */
  lemma SaleBalances(s: SaleInput, id: nat)
    requires s.gross > 0 && s.revenue == s.gross - s.vat
    ensures BalancesDaily(s.Facts(id)) <==> VatFits(s.gross, s.vat, s.accounts.outputVat)
  {
    hide SaleInput.SaleGroup, SaleInput.FeeGroup, SaleInput.AvailableGroup, BalancesDaily;
    var sale := s.SaleGroup(id);
    var fees := s.FeeGroup(id + |sale|);
    var available := s.AvailableGroup(id + |sale| + |fees|);
    FeeGroupBalances(s, id + |sale|);
    AvailableGroupBalances(s, id + |sale| + |fees|);
    BalanceConcat(sale + fees, available);
    BalanceConcat(sale, fees);
    SaleGroupBalances(s, id);
  }

  lemma RefundNet(r: RefundInput, id: nat, p: Fact -> bool)
    ensures Net(r.Facts(id), p)
      == (if p(r.Facts(id)[1]) then Abs(r.revenue) else 0) - (if p(r.Facts(id)[0]) then Abs(r.gross) else 0)
       + (if |r.Facts(id)| == 3 && p(r.Facts(id)[2]) then r.vat else 0)
    ensures |r.Facts(id)| == if BookedVat(r.vat, r.outputVat) > 0 then 3 else 2
  {
    var g := r.Facts(id);
    NetOfTwo(g[0], g[1], p);
    if |g| == 3 {
      NetOfOne(g[2], p);
      assert g == [g[0], g[1]] + [g[2]];
      NetConcat([g[0], g[1]], [g[2]], p);
    } else {
      assert g == [g[0], g[1]];
    }
  }

  lemma RefundDay(r: RefundInput, id: nat, d: Date)
    requires r.gross >= 0
    ensures Net(r.Facts(id), Dated(d)) ==
      if d == r.date then Abs(r.revenue) + BookedVat(r.vat, r.outputVat) - r.gross else 0
  {
    RefundNet(r, id, Dated(d));
  }

  lemma RefundBalances(r: RefundInput, id: nat)
    requires r.gross >= 0 && r.revenue == r.gross - r.vat
    ensures BalancesDaily(r.Facts(id)) <==> VatFits(r.gross, r.vat, r.outputVat)
  {
    hide RefundInput.Facts, Net;
    SplitFits(r.gross, r.vat, r.outputVat);
    RefundDay(r, id, r.date);
    if BalancesDaily(r.Facts(id)) { assert Net(r.Facts(id), Dated(r.date)) == 0; }
    if VatFits(r.gross, r.vat, r.outputVat) {
      forall d ensures Net(r.Facts(id), Dated(d)) == 0 { RefundDay(r, id, d); }
    }
  }

  // ---------------------------------------------------------------------------
  // Any list of events
  // ---------------------------------------------------------------------------

  datatype Booking =
    | Sale(sale: SaleInput)
    | Refund(refund: RefundInput)
    | Move(transfer: Transfer)
    | Note(group: string, objectType: string, objectId: string, date: Date, account: int, reason: string, payload: string)

  function Booked(b: Booking, id: nat): seq<Fact> {
    match b
    case Sale(s) => s.Facts(id)
    case Refund(r) => r.Facts(id)
    case Move(t) => t.Facts(id)
    case Note(group, objectType, objectId, date, account, reason, payload) =>
      [ReviewNote(group, objectType, objectId, date, account, reason, payload, id)]
  }

  function BookAll(bookings: seq<Booking>, id: nat): seq<Fact> {
    if bookings == [] then []
    else
      var front := BookAll(bookings[..|bookings| - 1], id);
      front + Booked(bookings[|bookings| - 1], id + |front|)
  }

  predicate Sound(b: Booking) {
    match b
    case Sale(s) => s.gross > 0 && s.revenue == s.gross - s.vat && VatFits(s.gross, s.vat, s.accounts.outputVat)
    case Refund(r) => r.gross >= 0 && r.revenue == r.gross - r.vat && VatFits(r.gross, r.vat, r.outputVat)
    case Move(_) => true
    case Note(_, _, _, _, _, _, _) => true
  }

  lemma BookedBalances(b: Booking, id: nat)
    requires Sound(b)
    ensures BalancesDaily(Booked(b, id))
  {
    match b
    case Sale(s) => SaleBalances(s, id);
    case Refund(r) => RefundBalances(r, id);
    case Move(t) => TransferBalances(t, id);
    case Note(_, _, _, _, _, _, _) =>
      forall d ensures Net(Booked(b, id), Dated(d)) == 0 { NetOfOne(Booked(b, id)[0], Dated(d)); }
  }

  lemma {:induction false} BookAllBalances(bookings: seq<Booking>, id: nat)
    requires forall i :: 0 <= i < |bookings| ==> Sound(bookings[i])
    ensures BalancesDaily(BookAll(bookings, id))
  {
    hide BalancesDaily, Sound, Booked;
    if bookings == [] {
      NothingBalances();
    } else {
      var front := bookings[..|bookings| - 1];
      BookAllBalances(front, id);
      var facts := BookAll(front, id);
      BookedBalances(bookings[|bookings| - 1], id + |facts|);
      BalanceConcat(facts, Booked(bookings[|bookings| - 1], id + |facts|));
    }
  }

  lemma NothingBalances()
    ensures BalancesDaily([])
  {}

  /** Whatever sales, refunds, payouts, disputes and reviews a day collects, in whatever order
      its facts are listed, its journal needs no rounding line, even with no tolerance. */
  lemma BookedDaysNeedNoRounding(bookings: seq<Booking>, firstId: nat, d: Date, listing: seq<Fact>,
                                 account: int, tolerance: int, id: nat)
    requires forall i :: 0 <= i < |bookings| ==> Sound(bookings[i])
    requires multiset(listing) == multiset(OnDate(BookAll(bookings, firstId), d))
    ensures var r := Aggregate(listing, account, tolerance, id);
      r.Balanced? && r.rounding.None? && DebitSum(r.items) == CreditSum(r.items)
  {
    hide Aggregate, Sound;
    var day := OnDate(BookAll(bookings, firstId), d);
    BookAllBalances(bookings, firstId);
    NetOfDate(BookAll(bookings, firstId), d);
    LinesOfPermutation(listing, day);
    SameLinesSameJournal(listing, day);
    AggregateBalances(listing, account, tolerance, id);
    assert Difference(listing) == 0;
  }

  // ---------------------------------------------------------------------------
  // One charge
  // ---------------------------------------------------------------------------

  /** The receivable and the Stripe balance are accounts of their own. */
  predicate SeparateAccounts(a: SaleAccounts) {
    && a.receivable !in {a.revenue, a.outputVat, a.balance, a.fee, a.feeInputVat, a.feeOutputVat}
    && a.balance !in {a.revenue, a.outputVat, a.fee, a.feeInputVat, a.feeOutputVat}
  }

  lemma SaleGroupAccounts(s: SaleInput, id: nat)
    requires SeparateAccounts(s.accounts) && s.gross > 0
    ensures Net(s.SaleGroup(id), OnAccount(s.accounts.receivable)) == s.gross
    ensures Net(s.SaleGroup(id), OnAccount(s.accounts.balance)) == 0
  {
    SaleGroupNet(s, id, OnAccount(s.accounts.receivable));
    SaleGroupNet(s, id, OnAccount(s.accounts.balance));
  }

  lemma FeeGroupNet(s: SaleInput, id: nat)
    requires SeparateAccounts(s.accounts)
    ensures Net(s.FeeGroup(id), OnAccount(s.accounts.receivable)) == 0
    ensures Net(s.FeeGroup(id), OnAccount(s.accounts.balance)) == if s.fee > 0 then -s.fee else 0
  {
    var g := s.FeeGroup(id);
    var p, q := OnAccount(s.accounts.receivable), OnAccount(s.accounts.balance);
    if g != [] {
      NetOfTwo(g[0], g[1], p);
      NetOfTwo(g[0], g[1], q);
      if |g| == 4 {
        NetOfTwo(g[2], g[3], p);
        NetOfTwo(g[2], g[3], q);
        assert g == [g[0], g[1]] + [g[2], g[3]];
        NetConcat([g[0], g[1]], [g[2], g[3]], p);
        NetConcat([g[0], g[1]], [g[2], g[3]], q);
      } else {
        assert g == [g[0], g[1]];
      }
    }
  }

  lemma AvailableGroupNet(s: SaleInput, id: nat)
    requires SeparateAccounts(s.accounts) && s.gross > 0 && s.availableOn.Some?
    ensures Net(s.AvailableGroup(id), OnAccount(s.accounts.receivable)) == -s.gross
    ensures Net(s.AvailableGroup(id), OnAccount(s.accounts.balance)) == s.gross
  {
    var g := s.AvailableGroup(id);
    NetOfTwo(g[0], g[1], OnAccount(s.accounts.receivable));
    NetOfTwo(g[0], g[1], OnAccount(s.accounts.balance));
  }

  /** Over a charge's sale, fee and available groups the receivable is settled and the Stripe
      balance has grown by what Stripe pays out: the gross amount less the fee. */
  lemma ChargeNets(s: SaleInput, id: nat)
    requires SeparateAccounts(s.accounts) && s.gross > 0 && s.fee >= 0 && s.availableOn.Some?
    ensures Net(s.Facts(id), OnAccount(s.accounts.receivable)) == 0
    ensures Net(s.Facts(id), OnAccount(s.accounts.balance)) == s.gross - s.fee
  {
    hide SaleInput.SaleGroup, SaleInput.FeeGroup, SaleInput.AvailableGroup, Net, SeparateAccounts;
    var sale := s.SaleGroup(id);
    var fees := s.FeeGroup(id + |sale|);
    var available := s.AvailableGroup(id + |sale| + |fees|);
    var p, q := OnAccount(s.accounts.receivable), OnAccount(s.accounts.balance);
    SaleGroupAccounts(s, id);
    FeeGroupNet(s, id + |sale|);
    AvailableGroupNet(s, id + |sale| + |fees|);
    NetConcat(sale + fees, available, p);
    NetConcat(sale, fees, p);
    NetConcat(sale + fees, available, q);
    NetConcat(sale, fees, q);
  }

  // ---------------------------------------------------------------------------
  // What happens to a charge afterwards
  // ---------------------------------------------------------------------------

  lemma TransferNet(t: Transfer, id: nat, account: int)
    ensures Net(t.Facts(id), OnAccount(account))
      == (if account == t.debit then Abs(t.amount) else 0) - (if account == t.credit then Abs(t.amount) else 0)
  {
    NetOfTwo(t.Facts(id)[0], t.Facts(id)[1], OnAccount(account));
  }

  lemma TransferAfter(s: SaleInput, id: nat, t: Transfer, id2: nat, account: int)
    ensures Net(s.Facts(id) + t.Facts(id2), OnAccount(account)) == Net(s.Facts(id), OnAccount(account))
      + (if account == t.debit then Abs(t.amount) else 0) - (if account == t.credit then Abs(t.amount) else 0)
    ensures BalancesDaily(s.Facts(id) + t.Facts(id2)) <==> BalancesDaily(s.Facts(id))
  {
    hide Net, SaleInput.Facts, Transfer.Facts, BalancesDaily;
    TransferNet(t, id2, account);
    NetConcat(s.Facts(id), t.Facts(id2), OnAccount(account));
    TransferBalances(t, id2);
    BalanceConcat(s.Facts(id), t.Facts(id2));
  }

  /** A charge that is paid out, gross less fee, leaves nothing on the receivable or the Stripe
      balance. */
  lemma PaidOut(s: SaleInput, id: nat, group: string, objectId: string, date: Date, bank: int, payload: string, id2: nat)
    requires SeparateAccounts(s.accounts) && s.gross >= s.fee >= 0 && s.gross > 0 && s.availableOn.Some?
    requires bank !in {s.accounts.receivable, s.accounts.balance}
    ensures var t := PayoutTransfer(None, group, objectId, date, s.gross - s.fee, bank, s.accounts.balance, payload);
      var facts := s.Facts(id) + t.Facts(id2);
      && Net(facts, OnAccount(s.accounts.receivable)) == 0 && Net(facts, OnAccount(s.accounts.balance)) == 0
      && Net(facts, OnAccount(bank)) == Net(s.Facts(id), OnAccount(bank)) + s.gross - s.fee
      && (BalancesDaily(facts) <==> BalancesDaily(s.Facts(id)))
  {
    hide SaleInput.Facts, Transfer.Facts, Net, BalancesDaily;
    var t := PayoutTransfer(None, group, objectId, date, s.gross - s.fee, bank, s.accounts.balance, payload);
    ChargeNets(s, id);
    TransferAfter(s, id, t, id2, s.accounts.receivable);
    TransferAfter(s, id, t, id2, s.accounts.balance);
    TransferAfter(s, id, t, id2, bank);
  }

  /** A charge that is disputed in full leaves the fee on the Stripe balance and the gross amount
      on the dispute account. */
  lemma Disputed(s: SaleInput, id: nat, group: string, objectId: string, date: Date, dispute: int, payload: string,
                 id2: nat)
    requires SeparateAccounts(s.accounts) && s.gross > 0 && s.fee >= 0 && s.availableOn.Some?
    requires dispute !in {s.accounts.receivable, s.accounts.balance}
    ensures var t := DisputeTransfer(None, group, objectId, date, s.gross, dispute, s.accounts.balance, payload);
      var facts := s.Facts(id) + t.Facts(id2);
      && Net(facts, OnAccount(s.accounts.receivable)) == 0 && Net(facts, OnAccount(s.accounts.balance)) == -s.fee
      && Net(facts, OnAccount(dispute)) == Net(s.Facts(id), OnAccount(dispute)) + s.gross
      && (BalancesDaily(facts) <==> BalancesDaily(s.Facts(id)))
  {
    hide SaleInput.Facts, Transfer.Facts, Net, BalancesDaily;
    var t := DisputeTransfer(None, group, objectId, date, s.gross, dispute, s.accounts.balance, payload);
    ChargeNets(s, id);
    TransferAfter(s, id, t, id2, s.accounts.receivable);
    TransferAfter(s, id, t, id2, s.accounts.balance);
    TransferAfter(s, id, t, id2, dispute);
  }
}
