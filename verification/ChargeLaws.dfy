/** What the facts of a charge and of its refunds add up to. */
module ChargeLaws {
  import opened Grouping
  import opened Ledger
  import opened Rounding
  import opened FactBuilders
  import opened DoubleEntry
  import opened Charges

  /** An explicit VAT amount is taken as it comes; it should be part of the gross amount. */
  predicate ExplicitVatFits(m: Market, gross: int, explicit: Option<int>) {
    m.outputVat == 0 || explicit.None? || 0 <= explicit.value <= gross
  }

  /** The split adds up to the gross amount, and can be booked in balance exactly when an
      explicit VAT amount, if one is used, lies between zero and the gross amount. */
  lemma SplitIsSound(m: Market, gross: int, explicit: Option<int>)
    requires gross >= 0 && SplitVat(m, gross, explicit).review.None?
    ensures var r := SplitVat(m, gross, explicit);
      r.revenue + r.vat == gross && (VatFits(gross, r.vat, r.outputVat) <==> ExplicitVatFits(m, gross, explicit))
  {
    hide IncludedVat;
    if m.outputVat != 0 && explicit.None? { IncludedVatIsNearest(gross, m.rate); }
  }

  // ---------------------------------------------------------------------------
  // The charge
  // ---------------------------------------------------------------------------

  lemma {:induction false} ReviewsBalance(moves: seq<Transfer>, reason: string, id: nat)
    requires ReviewAll(moves, reason, id).Some?
    ensures BalancesDaily(ReviewAll(moves, reason, id).value)
  {
    if moves == [] {
      NothingBalances();
    } else {
      var front := ReviewAll(moves[..|moves| - 1], reason, id).value;
      var t := moves[|moves| - 1].(status := NeedsReview, reason := Some(reason));
      ReviewsBalance(moves[..|moves| - 1], reason, id);
      TransferBalances(t, id + |front|);
      BalanceConcat(front, t.Facts(id + |front|));
    }
  }

  predicate BookedAsSale(a: Accounts, c: Charge, bt: BalanceTransaction, r: Resolution) {
    (bt.amountSek != 0 || c.currency == "SEK") && r.review.None? && bt.currency in a.balances
  }

  /** However a charge ends up booked, it balances on every date, except for a sale whose
      explicit VAT is negative or more than the gross amount, which never does. */
  lemma ChargeBalances(a: Accounts, c: Charge, bt: BalanceTransaction, m: Market, explicit: Option<int>, id: nat)
    requires ChargeFacts(a, c, bt, SplitVat(m, Abs(bt.amountSek), explicit), id).Some?
    ensures var r := SplitVat(m, Abs(bt.amountSek), explicit);
      BalancesDaily(ChargeFacts(a, c, bt, r, id).value)
      <==> (BookedAsSale(a, c, bt, r) ==> ExplicitVatFits(m, Abs(bt.amountSek), explicit))
  {
    hide SplitVat, SaleInput.Facts, ReviewAll, ReviewMoves, BalancesDaily, VatFits;
    var r := SplitVat(m, Abs(bt.amountSek), explicit);
    if bt.amountSek == 0 && c.currency != "SEK" {
      NoteBalances(ChargeFacts(a, c, bt, r, id).value[0]);
    } else if r.review.Some? {
      ReviewsBalance(ReviewMoves(a, c, bt), r.review.value, id);
    } else if bt.currency !in a.balances {
      ReviewsBalance(ReviewMoves(a, c, bt), NoBalanceAccount(bt.currency), id);
    } else {
      SplitIsSound(m, Abs(bt.amountSek), explicit);
      SaleBalances(SaleOf(a, c, bt, r), id);
    }
  }

  lemma NoteBalances(f: Fact)
    requires f.amount == 0
    ensures BalancesDaily([f])
  {
    forall d ensures Net([f], Dated(d)) == 0 { NetOfOne(f, Dated(d)); }
  }

  lemma MoveNet(t: Transfer, reason: string, id: nat, account: int)
    requires t.amount > 0
    ensures ReviewTransferFacts(t, reason, id).Some?
    ensures Net(ReviewTransferFacts(t, reason, id).value, OnAccount(account))
      == (if account == t.debit then t.amount else 0) - (if account == t.credit then t.amount else 0)
  {
    var facts := ReviewTransferFacts(t, reason, id).value;
    NetOfTwo(facts[0], facts[1], OnAccount(account));
  }

  function MovedTo(moves: seq<Transfer>, account: int): int {
    if moves == [] then 0
    else
      var t := moves[|moves| - 1];
      MovedTo(moves[..|moves| - 1], account)
      + (if account == t.debit then t.amount else 0) - (if account == t.credit then t.amount else 0)
  }

  lemma {:induction false} ReviewsNet(moves: seq<Transfer>, reason: string, id: nat, account: int)
    requires forall i :: 0 <= i < |moves| ==> moves[i].amount > 0
    ensures ReviewAll(moves, reason, id).Some?
    ensures Net(ReviewAll(moves, reason, id).value, OnAccount(account)) == MovedTo(moves, account)
  {
    hide ReviewTransferFacts;
    if moves != [] {
      ReviewsNet(moves[..|moves| - 1], reason, id, account);
      var front := ReviewAll(moves[..|moves| - 1], reason, id).value;
      MoveNet(moves[|moves| - 1], reason, id + |front|, account);
      NetConcat(front, ReviewTransferFacts(moves[|moves| - 1], reason, id + |front|).value, OnAccount(account));
    }
  }

  lemma MovedSnoc(moves: seq<Transfer>, t: Transfer, account: int)
    ensures MovedTo(moves + [t], account) == MovedTo(moves, account)
      + (if account == t.debit then t.amount else 0) - (if account == t.credit then t.amount else 0)
  {
    assert (moves + [t])[..|moves|] == moves;
  }

  function MoveOf(t: Transfer, account: int): int {
    (if account == t.debit then t.amount else 0) - (if account == t.credit then t.amount else 0)
  }

  /** The moves that every charge under review has. */
  function FirstMoves(sale: Transfer, fee: Transfer): seq<Transfer> { [sale] + if fee.amount > 0 then [fee] else [] }

  lemma FirstMovesOn(sale: Transfer, fee: Transfer, account: int)
    requires fee.amount >= 0
    ensures MovedTo(FirstMoves(sale, fee), account) == MoveOf(sale, account) + MoveOf(fee, account)
  {
    hide MovedTo;
    NothingMoved(account);
    MovedSnoc([], sale, account);
    assert [] + [sale] == [sale] && [sale] + [] == [sale];
    if fee.amount > 0 { MovedSnoc([sale], fee, account); }
  }

  lemma MovesInOrder(a: Accounts, c: Charge, bt: BalanceTransaction)
    ensures ReviewMoves(a, c, bt) == FirstMoves(SaleReview(a, c, bt), FeeReview(a, c, bt))
      + match bt.availableOn case None => [] case Some(d) => [AvailableReview(a, c, bt, d)]
    ensures FeeReview(a, c, bt).amount >= 0
  {
    assert FeeReview(a, c, bt).amount == Abs(bt.feeSek);
    hide SaleReview, FeeReview, AvailableReview;
  }

  lemma ReviewMovesOn(a: Accounts, c: Charge, bt: BalanceTransaction, account: int)
    ensures MovedTo(ReviewMoves(a, c, bt), account) == MoveOf(SaleReview(a, c, bt), account) + MoveOf(FeeReview(a, c, bt), account)
      + match bt.availableOn case None => 0 case Some(d) => MoveOf(AvailableReview(a, c, bt, d), account)
  {
    hide MovedTo, ReviewMoves, FirstMoves, SaleReview, FeeReview, AvailableReview;
    MovesInOrder(a, c, bt);
    var first := FirstMoves(SaleReview(a, c, bt), FeeReview(a, c, bt));
    FirstMovesOn(SaleReview(a, c, bt), FeeReview(a, c, bt), account);
    match bt.availableOn
    case None => assert first + [] == first;
    case Some(d) => MovedSnoc(first, AvailableReview(a, c, bt, d), account);
  }

  lemma ReviewMovesNet(a: Accounts, c: Charge, bt: BalanceTransaction)
    requires bt.currency in a.balances && bt.availableOn.Some?
    requires a.receivable != a.fallback && a.balances[bt.currency] !in {a.receivable, a.fallback}
    ensures MovedTo(ReviewMoves(a, c, bt), a.receivable) == 0
    ensures MovedTo(ReviewMoves(a, c, bt), a.balances[bt.currency]) == Abs(bt.amountSek) - Abs(bt.feeSek)
  {
    hide MovedTo, ReviewMoves;
    ReviewMovesOn(a, c, bt, a.receivable);
    ReviewMovesOn(a, c, bt, a.balances[bt.currency]);
  }

  lemma NothingMoved(account: int)
    ensures MovedTo([], account) == 0
  {}

  predicate OwnAccounts(a: Accounts, bt: BalanceTransaction, r: Resolution)
    requires bt.currency in a.balances
  {
    && SeparateAccounts(SaleAccounts(a.receivable, r.revenueAccount, r.outputVat, a.balances[bt.currency],
                                     a.fee, a.feeInputVat, a.feeOutputVat))
    && a.receivable != a.fallback && a.balances[bt.currency] != a.fallback
  }

  /** Once a charge is available, booked as a sale or put up for review, its receivable is
      settled and the Stripe balance has grown by the gross amount less the fee. */
  lemma ChargeSettles(a: Accounts, c: Charge, bt: BalanceTransaction, r: Resolution, id: nat)
    requires bt.amountSek != 0 && bt.availableOn.Some? && bt.currency in a.balances && OwnAccounts(a, bt, r)
    ensures ChargeFacts(a, c, bt, r, id).Some?
    ensures Net(ChargeFacts(a, c, bt, r, id).value, OnAccount(a.receivable)) == 0
    ensures Net(ChargeFacts(a, c, bt, r, id).value, OnAccount(a.balances[bt.currency])) == Abs(bt.amountSek) - Abs(bt.feeSek)
  {
    if r.review.Some? {
      hide ReviewAll, Net;
      var moves := ReviewMoves(a, c, bt);
      assert moves[|moves| - 1].amount > 0;
      ReviewsNet(moves, r.review.value, id, a.receivable);
      ReviewsNet(moves, r.review.value, id, a.balances[bt.currency]);
      ReviewMovesNet(a, c, bt);
    } else {
      hide SaleInput.Facts, Net;
      ChargeNets(SaleOf(a, c, bt, r), id);
    }
  }

  // ---------------------------------------------------------------------------
  // Refunds
  // ---------------------------------------------------------------------------

  function SumParts(refunds: seq<RefundData>): int {
    if refunds == [] then 0 else SumParts(refunds[..|refunds| - 1]) + refunds[|refunds| - 1].amount
  }

  /** The refunds are settled: each has its balance transaction and a known amount in ore. */
  predicate Settled(refunds: seq<RefundData>) {
    forall i :: 0 <= i < |refunds| ==>
      refunds[i].amount >= 0 && refunds[i].settled.Some? && (refunds[i].settled.value != 0 || refunds[i].currency == "SEK")
  }

  function ReversedVat(r: Resolution, c: Charge, refunds: seq<RefundData>): int {
    if refunds == [] then 0
    else ReversedVat(r, c, refunds[..|refunds| - 1]) + Proportional(r.vat, refunds[|refunds| - 1].amount, c.amount)
  }

  lemma ProportionalWithin(total: int, part: int, whole: int)
    requires whole > 0 && total >= 0 && 0 <= part <= whole
    ensures 0 <= Proportional(total, part, whole) <= total
  {
    hide Round;
    if total > 0 {
      Scale(total, 0, part);
      Scale(total, part, whole);
    }
    RoundWithin(total * part, whole, total);
  }

  lemma ErrorAdds(whole: int, vat: int, reversed: int, parts: int, n: int, v: int, part: int)
    requires -n * whole <= 2 * (whole * reversed - vat * parts) <= n * whole
    requires -whole <= 2 * (whole * v - vat * part) <= whole
    ensures -(n + 1) * whole <= 2 * (whole * (reversed + v) - vat * (parts + part)) <= (n + 1) * whole
  {
    assert whole * (reversed + v) == whole * reversed + whole * v;
    assert vat * (parts + part) == vat * parts + vat * part;
    assert (n + 1) * whole == n * whole + whole;
    assert -(n + 1) * whole == -n * whole - whole;
  }

  /** Each part is rounded on its own, so the error grows by half an ore per part. */
  lemma {:induction false} ReversedVatError(r: Resolution, c: Charge, refunds: seq<RefundData>)
    requires c.amount > 0
    ensures -|refunds| * c.amount <= 2 * (c.amount * ReversedVat(r, c, refunds) - r.vat * SumParts(refunds)) <= |refunds| * c.amount
  {
    if refunds != [] {
      var front, last := refunds[..|refunds| - 1], refunds[|refunds| - 1];
      ReversedVatError(r, c, front);
      var v := Proportional(r.vat, last.amount, c.amount);
      RoundError(r.vat * last.amount, c.amount);
      ErrorAdds(c.amount, r.vat, ReversedVat(r, c, front), SumParts(front), |front|, v, last.amount);
    }
  }

  /** A charge refunded in full, in n parts, has its VAT reversed within n/2 ore: with a single
      refund exactly. */
  lemma FullRefundReversesVat(r: Resolution, c: Charge, refunds: seq<RefundData>)
    requires c.amount > 0 && SumParts(refunds) == c.amount
    ensures -|refunds| <= 2 * (ReversedVat(r, c, refunds) - r.vat) <= |refunds|
    ensures |refunds| == 1 ==> ReversedVat(r, c, refunds) == r.vat
  {
    hide ReversedVat, SumParts;
    ReversedVatError(r, c, refunds);
    var e, n := 2 * (ReversedVat(r, c, refunds) - r.vat), |refunds|;
    assert c.amount * e == 2 * (c.amount * ReversedVat(r, c, refunds) - r.vat * c.amount);
    assert -n * c.amount == c.amount * -n && n * c.amount == c.amount * n;
    Scale(c.amount, n + 1, e);
    Scale(c.amount, e, -n - 1);
    assert c.amount * (n + 1) == c.amount * n + c.amount;
    assert c.amount * (-n - 1) == c.amount * -n - c.amount;
  }

  lemma WholeShare(total: int, whole: int)
    requires whole != 0
    ensures Proportional(total, whole, whole) == total
  {
    if whole > 0 {
      RoundWhole(total, whole);
    } else {
      RoundWhole(total, -whole);
      assert -(total * whole) == total * -whole;
    }
  }

  /** A single refund of a whole charge, settled for what the charge was settled for, mirrors the
      sale it was booked as. */
  lemma FullRefundMirrorsSale(a: Accounts, c: Charge, bt: BalanceTransaction, m: Market, explicit: Option<int>,
                              refund: RefundData)
    requires bt.currency in a.balances && c.amount != 0 && refund.amount == c.amount
    requires refund.settled.Some? && Abs(refund.settled.value) == Abs(bt.amountSek)
    requires SplitVat(m, Abs(bt.amountSek), explicit).review.None?
    ensures var r := SplitVat(m, Abs(bt.amountSek), explicit); Mirrors(RefundOf(a, c, r, refund), SaleOf(a, c, bt, r))
  {
    SplitIsSound(m, Abs(bt.amountSek), explicit);
    hide Proportional, SplitVat;
    WholeShare(SplitVat(m, Abs(bt.amountSek), explicit).vat, c.amount);
  }

  /** The VAT account sees exactly that: each refund debits it with its share of the charge's VAT,
      to the nearest ore. */
  lemma RefundOnVatAccount(a: Accounts, c: Charge, r: Resolution, refund: RefundData, id: nat)
    requires r.review.None? && r.outputVat !in {0, a.receivable, r.revenueAccount} && r.vat >= 0
    requires c.amount > 0 && Settled([refund]) && refund.amount <= c.amount
    ensures OneRefund(a, c, r, refund, id).Some?
    ensures var v := Proportional(r.vat, refund.amount, c.amount);
      && 0 <= v <= r.vat && -c.amount <= 2 * (c.amount * v - r.vat * refund.amount) <= c.amount
      && Net(OneRefund(a, c, r, refund, id).value, OnAccount(r.outputVat)) == v
  {
    assert [refund][0] == refund;
    ShareIsNearest(r.vat, refund.amount, c.amount);
    hide Proportional;
    ProportionalWithin(r.vat, refund.amount, c.amount);
    RefundNet(RefundOf(a, c, r, refund), id, OnAccount(r.outputVat));
  }

  lemma ShareIsNearest(total: int, part: int, whole: int)
    requires whole > 0
    ensures -whole <= 2 * (whole * Proportional(total, part, whole) - total * part) <= whole
  {
    RoundError(total * part, whole);
  }

  predicate WithinCharge(refunds: seq<RefundData>, c: Charge) {
    forall i :: 0 <= i < |refunds| ==> refunds[i].amount <= c.amount
  }

  lemma {:induction false} RefundsOnVatAccount(a: Accounts, c: Charge, r: Resolution, refunds: seq<RefundData>, id: nat)
    requires r.review.None? && r.outputVat !in {0, a.receivable, r.revenueAccount} && r.vat >= 0
    requires c.amount > 0 && Settled(refunds) && WithinCharge(refunds, c)
    ensures AllRefunds(a, c, r, refunds, id).Some?
    ensures Net(AllRefunds(a, c, r, refunds, id).value, OnAccount(r.outputVat)) == ReversedVat(r, c, refunds)
  {
    hide OneRefund, Proportional;
    if refunds != [] {
      var front, last := refunds[..|refunds| - 1], refunds[|refunds| - 1];
      RefundsOnVatAccount(a, c, r, front, id);
      var facts := AllRefunds(a, c, r, front, id).value;
      RefundOnVatAccount(a, c, r, last, id + |facts|);
      NetConcat(facts, OneRefund(a, c, r, last, id + |facts|).value, OnAccount(r.outputVat));
    }
  }

  lemma {:induction false} PartsWithin(refunds: seq<RefundData>, c: Charge)
    requires Settled(refunds) && SumParts(refunds) <= c.amount
    ensures SumParts(refunds) >= 0 && WithinCharge(refunds, c)
  {
    if refunds != [] {
      var front := refunds[..|refunds| - 1];
      assert SumParts(front) <= c.amount by { assert refunds[|refunds| - 1].amount >= 0; }
      PartsWithin(front, c);
      forall i | 0 <= i < |refunds| ensures refunds[i].amount <= c.amount {
        if i < |front| { assert front[i] == refunds[i]; }
      }
    }
  }

  /** Booking all refunds of a fully refunded charge takes its VAT back off the VAT account, up
      to half an ore per refund. */
  lemma FullyRefundedCharge(a: Accounts, c: Charge, r: Resolution, refunds: seq<RefundData>, id: nat)
    requires r.review.None? && r.outputVat !in {0, a.receivable, r.revenueAccount} && r.vat >= 0
    requires c.amount > 0 && Settled(refunds) && SumParts(refunds) == c.amount
    ensures AllRefunds(a, c, r, refunds, id).Some?
    ensures var reversed := Net(AllRefunds(a, c, r, refunds, id).value, OnAccount(r.outputVat));
      -|refunds| <= 2 * (reversed - r.vat) <= |refunds| && (|refunds| == 1 ==> reversed == r.vat)
  {
    PartsWithin(refunds, c);
    RefundsOnVatAccount(a, c, r, refunds, id);
    FullRefundReversesVat(r, c, refunds);
  }

  /** One refund balances unless its share of the VAT is more than what was paid back, which a
      changed exchange rate can bring about. */
  predicate ShareFits(c: Charge, r: Resolution, refund: RefundData) {
    refund.settled.Some? && (refund.settled.value != 0 || refund.currency == "SEK") && r.review.None? ==>
      VatFits(Abs(refund.settled.value), Proportional(r.vat, refund.amount, c.amount), r.outputVat)
  }

  lemma OneRefundBalances(a: Accounts, c: Charge, r: Resolution, refund: RefundData, id: nat)
    requires OneRefund(a, c, r, refund, id).Some?
    ensures BalancesDaily(OneRefund(a, c, r, refund, id).value) <==> ShareFits(c, r, refund)
  {
    hide BalancesDaily, Proportional, VatFits, RefundInput.Facts, Transfer.Facts;
    if refund.settled.None? {
      NothingBalances();
    } else if refund.settled.value == 0 && refund.currency != "SEK" {
      NoteBalances(OneRefund(a, c, r, refund, id).value[0]);
    } else if r.review.Some? {
      TransferBalances(RefundReview(a, c, refund).(status := NeedsReview, reason := Some(r.review.value)), id);
    } else {
      RefundBalances(RefundOf(a, c, r, refund), id);
    }
  }

  /** Debits are never less than credits, on any date. */
  ghost predicate LeansToDebit(facts: seq<Fact>) {
    forall d :: Net(facts, Dated(d)) >= 0
  }

  lemma LeanConcat(a: seq<Fact>, b: seq<Fact>)
    requires LeansToDebit(a) && LeansToDebit(b)
    ensures LeansToDebit(a + b)
    ensures BalancesDaily(a + b) <==> BalancesDaily(a) && BalancesDaily(b)
  {
    forall d ensures Net(a + b, Dated(d)) == Net(a, Dated(d)) + Net(b, Dated(d)) { NetConcat(a, b, Dated(d)); }
    hide Net;
    if BalancesDaily(a + b) {
      forall d ensures Net(a, Dated(d)) == 0 && Net(b, Dated(d)) == 0 { assert Net(a + b, Dated(d)) == 0; }
    }
  }

  lemma BalancedLeans(facts: seq<Fact>)
    requires BalancesDaily(facts)
    ensures LeansToDebit(facts)
  {
    hide Net;
    forall d ensures Net(facts, Dated(d)) >= 0 { assert Net(facts, Dated(d)) == 0; }
  }

  /** A share that is negative, or more than was paid back, debits too much, never too little. */
  lemma MisfitLeans(r: RefundInput, id: nat)
    requires r.gross >= 0 && r.revenue == r.gross - r.vat && (r.outputVat == 0 ==> r.vat == 0)
    ensures LeansToDebit(r.Facts(id))
  {
    hide RefundInput.Facts, Net;
    forall d ensures Net(r.Facts(id), Dated(d)) >= 0 { RefundDay(r, id, d); }
  }

  lemma NoShareOfNothing(part: int, whole: int)
    ensures Proportional(0, part, whole) == 0
  {
    assert 0 * part == 0;
    if whole > 0 { QuotientIs(whole, 2 * whole, 0); }
    if whole < 0 { QuotientIs(-whole, 2 * -whole, 0); }
  }

  predicate BooksItsVat(r: Resolution) { r.outputVat != 0 || r.vat == 0 }

  lemma OneRefundLeans(a: Accounts, c: Charge, r: Resolution, refund: RefundData, id: nat)
    requires OneRefund(a, c, r, refund, id).Some? && BooksItsVat(r)
    ensures LeansToDebit(OneRefund(a, c, r, refund, id).value)
  {
    OneRefundBalances(a, c, r, refund, id);
    NoShareOfNothing(refund.amount, c.amount);
    hide BalancesDaily, LeansToDebit, Proportional, VatFits, RefundInput.Facts, Transfer.Facts;
    if ShareFits(c, r, refund) {
      BalancedLeans(OneRefund(a, c, r, refund, id).value);
    } else {
      MisfitLeans(RefundOf(a, c, r, refund), id);
    }
  }

  /** Refunds whose shares all fit balance; where no VAT goes unbooked, misfits all lean the same
      way, so that they never make up for each other. */
  lemma {:induction false} RefundsLean(a: Accounts, c: Charge, r: Resolution, refunds: seq<RefundData>, id: nat)
    requires AllRefunds(a, c, r, refunds, id).Some?
    ensures var facts := AllRefunds(a, c, r, refunds, id).value;
      var allFit := forall i :: 0 <= i < |refunds| ==> ShareFits(c, r, refunds[i]);
      && (allFit ==> BalancesDaily(facts))
      && (BooksItsVat(r) ==> LeansToDebit(facts) && (BalancesDaily(facts) ==> allFit))
  {
    hide BalancesDaily, LeansToDebit, ShareFits, OneRefund;
    if refunds == [] {
      NothingBalances();
      BalancedLeans([]);
    } else {
      var front, last := refunds[..|refunds| - 1], refunds[|refunds| - 1];
      RefundsLean(a, c, r, front, id);
      var facts := AllRefunds(a, c, r, front, id).value;
      var more := OneRefund(a, c, r, last, id + |facts|).value;
      OneRefundBalances(a, c, r, last, id + |facts|);
      if BalancesDaily(more) { BalanceConcat(facts, more); }
      if BooksItsVat(r) {
        OneRefundLeans(a, c, r, last, id + |facts|);
        LeanConcat(facts, more);
      }
      assert refunds == front + [last];
    }
  }

  /** The facts of all refunds of a charge balance on every date if and only if every refund's
      share of the charge's VAT fits into what was paid back. */
  lemma RefundsBalance(a: Accounts, c: Charge, m: Market, gross: int, explicit: Option<int>, refunds: seq<RefundData>,
                       id: nat)
    requires AllRefunds(a, c, SplitVat(m, gross, explicit), refunds, id).Some?
    ensures var r := SplitVat(m, gross, explicit);
      BalancesDaily(AllRefunds(a, c, r, refunds, id).value)
      <==> forall i :: 0 <= i < |refunds| ==> ShareFits(c, r, refunds[i])
  {
    RefundsLean(a, c, SplitVat(m, gross, explicit), refunds, id);
    hide BalancesDaily, ShareFits, AllRefunds, LeansToDebit;
  }

  // ---------------------------------------------------------------------------
  // Amounts that do not fit
  // ---------------------------------------------------------------------------

  /** A market with a VAT account and 25 percent VAT. */
  function Sweden(): Market { Market(3001, 2611, Rate(25, 1)) }

  /** A charge of 100 whose VAT is given as 150 is booked, out of balance. */
  lemma ExplicitVatTooLarge(a: Accounts, c: Charge, id: nat)
    requires "SEK" in a.balances
    ensures var facts := ChargeFacts(a, c, BalanceTransaction("SEK", 100, 3, None), SplitVat(Sweden(), 100, Some(150)), id);
      facts.Some? && !BalancesDaily(facts.value)
  {
    var bt, r := BalanceTransaction("SEK", 100, 3, None), SplitVat(Sweden(), 100, Some(150));
    ChargeBalances(a, c, bt, Sweden(), Some(150), id);
    hide BalancesDaily, SaleInput.Facts;
  }

  /** A charge of 1000 contains 200 of VAT; refunded in full when its currency has fallen to a tenth,
      it pays back 100, reverses 200 of VAT and is out of balance. */
  lemma ShareTooLarge(a: Accounts, c: Charge, date: Date, payload: string, id: nat)
    requires c.amount == 1000
    ensures var r := SplitVat(Sweden(), 1000, None);
      var facts := AllRefunds(a, c, r, [RefundData("re_1", date, "EUR", 1000, Some(100), payload)], id);
      r.vat == 200 && facts.Some? && !BalancesDaily(facts.value)
  {
    var r, refund := SplitVat(Sweden(), 1000, None), RefundData("re_1", date, "EUR", 1000, Some(100), payload);
    assert r.vat == 200 && Proportional(200, 1000, 1000) == 200;
    hide Proportional, SplitVat, BalancesDaily, RefundInput.Facts;
    assert [refund][..0] == [];
    assert AllRefunds(a, c, r, [], id) == Some([]);
    assert !ShareFits(c, r, [refund][0]);
    RefundsBalance(a, c, Sweden(), 1000, None, [refund], id);
  }
}
