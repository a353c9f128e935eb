/** Which account every amount of a charge, a refund or a review is booked on, and when. */
module AccountLaws {
  import opened Grouping
  import opened Ledger
  import opened Rounding
  import opened FactBuilders
  import opened DoubleEntry
  import opened Charges
  import opened ChargeLaws

  /** The facts of a source group, fact type, account and date that `p` selects. */
  function Where(p: (string, string, int, Date) -> bool): Fact -> bool {
    (f: Fact) => p(f.group, f.factType, f.account, f.date)
  }

  function Counted(counts: bool, amount: int): int { if counts then amount else 0 }

  // ---------------------------------------------------------------------------
  // Sales
  // ---------------------------------------------------------------------------

  /** A fee of nothing has no VAT. */
  function FeeVat(s: SaleInput): int { if s.fee > 0 && s.feeReverseVat > 0 then s.feeReverseVat else 0 }

  function Fee(s: SaleInput): int { if s.fee > 0 then s.fee else 0 }

  lemma SaleGroupWhere(s: SaleInput, id: nat, p: (string, string, int, Date) -> bool)
    ensures var a, g, d := s.accounts, s.prefix + ":sale", s.chargeDate;
      Net(s.SaleGroup(id), Where(p)) == Counted(p(g, "sale_receivable", a.receivable, d), Abs(s.gross))
        - Counted(p(g, "sale_revenue", a.revenue, d), Abs(s.revenue))
        - Counted(p(g, "sale_output_vat", a.outputVat, d), BookedVat(s.vat, a.outputVat))
  {
    SaleGroupNet(s, id, Where(p));
  }

  lemma FeeGroupWhere(s: SaleInput, id: nat, p: (string, string, int, Date) -> bool)
    ensures var a, g, d := s.accounts, s.prefix + ":fee", s.chargeDate;
      Net(s.FeeGroup(id), Where(p)) ==
        Counted(p(g, "stripe_fee_expense", a.fee, d), Fee(s)) - Counted(p(g, "stripe_fee_balance", a.balance, d), Fee(s))
        + Counted(p(g, "stripe_fee_input_vat", a.feeInputVat, d), FeeVat(s))
        - Counted(p(g, "stripe_fee_output_vat", a.feeOutputVat, d), FeeVat(s))
  {
    var g := s.FeeGroup(id);
    if g != [] {
      NetOfTwo(g[0], g[1], Where(p));
      if |g| == 4 {
        NetOfTwo(g[2], g[3], Where(p));
        assert g == [g[0], g[1]] + [g[2], g[3]];
        NetConcat([g[0], g[1]], [g[2], g[3]], Where(p));
      } else {
        assert g == [g[0], g[1]];
      }
    }
  }

  lemma AvailableGroupWhere(s: SaleInput, id: nat, p: (string, string, int, Date) -> bool)
    ensures var a, g := s.accounts, s.prefix + ":available";
      Net(s.AvailableGroup(id), Where(p)) ==
        match s.availableOn
        case None => 0
        case Some(d) =>
          Counted(p(g, "stripe_available_debit", a.balance, d), Abs(s.gross))
          - Counted(p(g, "stripe_available_credit", a.receivable, d), Abs(s.gross))
  {
    var g := s.AvailableGroup(id);
    if g != [] { NetOfTwo(g[0], g[1], Where(p)); }
  }

  /** Every movement of a sale: its source group, type, account and date, and debit or credit. */
  lemma SaleMovements(s: SaleInput, id: nat, p: (string, string, int, Date) -> bool)
    ensures var a, d := s.accounts, s.chargeDate; var sale, fee, available := s.prefix + ":sale", s.prefix + ":fee", s.prefix + ":available";
      Net(s.Facts(id), Where(p)) ==
        Counted(p(sale, "sale_receivable", a.receivable, d), Abs(s.gross)) - Counted(p(sale, "sale_revenue", a.revenue, d), Abs(s.revenue))
        - Counted(p(sale, "sale_output_vat", a.outputVat, d), BookedVat(s.vat, a.outputVat))
        + Counted(p(fee, "stripe_fee_expense", a.fee, d), Fee(s)) - Counted(p(fee, "stripe_fee_balance", a.balance, d), Fee(s))
        + Counted(p(fee, "stripe_fee_input_vat", a.feeInputVat, d), FeeVat(s))
        - Counted(p(fee, "stripe_fee_output_vat", a.feeOutputVat, d), FeeVat(s))
        + match s.availableOn
          case None => 0
          case Some(e) =>
            Counted(p(available, "stripe_available_debit", a.balance, e), Abs(s.gross))
            - Counted(p(available, "stripe_available_credit", a.receivable, e), Abs(s.gross))
  {
    hide SaleInput.SaleGroup, SaleInput.FeeGroup, SaleInput.AvailableGroup, Net;
    var sale := s.SaleGroup(id);
    var fees := s.FeeGroup(id + |sale|);
    var available := s.AvailableGroup(id + |sale| + |fees|);
    SaleGroupWhere(s, id, p);
    FeeGroupWhere(s, id + |sale|, p);
    AvailableGroupWhere(s, id + |sale| + |fees|, p);
    NetConcat(sale + fees, available, Where(p));
    NetConcat(sale, fees, Where(p));
  }

  lemma {:induction false} SameSelection(facts: seq<Fact>, p: Fact -> bool, q: Fact -> bool)
    requires forall f :: p(f) == q(f)
    ensures Net(facts, p) == Net(facts, q)
  {
    if facts != [] { SameSelection(facts[..|facts| - 1], p, q); }
  }

  function ByAccount(account: int): (string, string, int, Date) -> bool {
    (g: string, t: string, a: int, d: Date) => a == account
  }

  lemma OnAccountIsWhere(facts: seq<Fact>, account: int)
    ensures Net(facts, OnAccount(account)) == Net(facts, Where(ByAccount(account)))
  {
    SameSelection(facts, OnAccount(account), Where(ByAccount(account)));
  }

  function AccountsOf(a: SaleAccounts): seq<int> {
    [a.receivable, a.revenue, a.outputVat, a.balance, a.fee, a.feeInputVat, a.feeOutputVat]
  }

  /** Where a sale's seven accounts differ, each carries its own amount: the receivable the gross
      amount until it is available, the Stripe balance what Stripe pays out, revenue and output VAT
      their parts of the gross amount, and the fee accounts the fee and its reverse-charged VAT.
      No other account is touched. */
  lemma SaleOnAccounts(s: SaleInput, id: nat)
    requires s.gross > 0 && s.fee >= 0 && s.feeReverseVat >= 0 && Distinct(AccountsOf(s.accounts))
    ensures var a, facts := s.accounts, s.Facts(id); var vat := if s.fee > 0 then s.feeReverseVat else 0;
      && Net(facts, OnAccount(a.receivable)) == (if s.availableOn.Some? then 0 else s.gross)
      && Net(facts, OnAccount(a.balance)) == (if s.availableOn.Some? then s.gross else 0) - s.fee
      && Net(facts, OnAccount(a.revenue)) == 0 - Abs(s.revenue)
      && Net(facts, OnAccount(a.outputVat)) == -BookedVat(s.vat, a.outputVat)
      && Net(facts, OnAccount(a.fee)) == s.fee
      && Net(facts, OnAccount(a.feeInputVat)) == vat
      && Net(facts, OnAccount(a.feeOutputVat)) == -vat
    ensures forall x :: x !in AccountsOf(s.accounts) ==> Net(s.Facts(id), OnAccount(x)) == 0
  {
    hide SaleInput.Facts, Net;
    var a := AccountsOf(s.accounts);
    forall x
      ensures Net(s.Facts(id), OnAccount(x)) ==
        Counted(x == a[0], s.gross) - Counted(x == a[1], Abs(s.revenue)) - Counted(x == a[2], BookedVat(s.vat, a[2]))
        + Counted(x == a[4], Fee(s)) - Counted(x == a[3], Fee(s)) + Counted(x == a[5], FeeVat(s)) - Counted(x == a[6], FeeVat(s))
        + if s.availableOn.None? then 0 else Counted(x == a[3], s.gross) - Counted(x == a[0], s.gross)
    {
      OnAccountIsWhere(s.Facts(id), x);
      SaleMovements(s, id, ByAccount(x));
    }
  }

  // ---------------------------------------------------------------------------
  // Refunds
  // ---------------------------------------------------------------------------

  lemma RefundMovements(r: RefundInput, id: nat, p: (string, string, int, Date) -> bool)
    ensures Net(r.Facts(id), Where(p)) ==
      Counted(p(r.group, "refund_revenue", r.revenueAccount, r.date), Abs(r.revenue))
      - Counted(p(r.group, "refund_receivable", r.receivable, r.date), Abs(r.gross))
      + Counted(p(r.group, "refund_output_vat", r.outputVat, r.date), BookedVat(r.vat, r.outputVat))
  {
    RefundNet(r, id, Where(p));
  }

  /** A refund takes its gross amount off the receivable and its parts off revenue and output VAT. */
  lemma RefundOnAccounts(r: RefundInput, id: nat)
    requires r.gross >= 0 && Distinct([r.receivable, r.revenueAccount, r.outputVat])
    ensures Net(r.Facts(id), OnAccount(r.receivable)) == -r.gross
    ensures Net(r.Facts(id), OnAccount(r.revenueAccount)) == Abs(r.revenue)
    ensures Net(r.Facts(id), OnAccount(r.outputVat)) == BookedVat(r.vat, r.outputVat)
    ensures forall x :: x !in [r.receivable, r.revenueAccount, r.outputVat] ==> Net(r.Facts(id), OnAccount(x)) == 0
  {
    hide RefundInput.Facts, Net;
    var a := [r.receivable, r.revenueAccount, r.outputVat];
    forall x
      ensures Net(r.Facts(id), OnAccount(x)) ==
        Counted(x == a[1], Abs(r.revenue)) - Counted(x == a[0], r.gross) + Counted(x == a[2], BookedVat(r.vat, r.outputVat))
    {
      OnAccountIsWhere(r.Facts(id), x);
      RefundMovements(r, id, ByAccount(x));
    }
  }

  // ---------------------------------------------------------------------------
  // Transfers
  // ---------------------------------------------------------------------------

  lemma TransferMovements(t: Transfer, id: nat, p: (string, string, int, Date) -> bool)
    ensures Net(t.Facts(id), Where(p)) ==
      Counted(p(t.group, t.debitType, t.debit, t.date), Abs(t.amount)) - Counted(p(t.group, t.creditType, t.credit, t.date), Abs(t.amount))
  {
    NetOfTwo(t.Facts(id)[0], t.Facts(id)[1], Where(p));
  }

  /** A payout moves its amount from the Stripe balance to the bank, a dispute from the Stripe balance
      to the dispute account. */
  lemma PayoutsAndDisputes(taxCase: Option<nat>, group: string, objectId: string, date: Date, amount: int, account: int,
                           balance: int, payload: string, id: nat, p: (string, string, int, Date) -> bool)
    requires amount >= 0
    ensures Net(PayoutTransfer(taxCase, group, objectId, date, amount, account, balance, payload).Facts(id), Where(p)) ==
      Counted(p(group, "payout_bank", account, date), amount) - Counted(p(group, "payout_stripe_balance", balance, date), amount)
    ensures Net(DisputeTransfer(taxCase, group, objectId, date, amount, account, balance, payload).Facts(id), Where(p)) ==
      Counted(p(group, "dispute_debit", account, date), amount) - Counted(p(group, "dispute_credit", balance, date), amount)
    ensures forall f :: f in PayoutTransfer(taxCase, group, objectId, date, amount, account, balance, payload).Facts(id) ==>
      f.status == FactStatus.Pending && f.reviewReason == None && f.taxCase == taxCase && f.objectType == "payout" && f.objectId == objectId
      && f.payload == Some(payload)
    ensures forall f :: f in DisputeTransfer(taxCase, group, objectId, date, amount, account, balance, payload).Facts(id) ==>
      f.status == FactStatus.Pending && f.reviewReason == None && f.taxCase == taxCase && f.objectType == "dispute" && f.objectId == objectId
      && f.payload == Some(payload)
  {
    TransferMovements(PayoutTransfer(taxCase, group, objectId, date, amount, account, balance, payload), id, p);
    TransferMovements(DisputeTransfer(taxCase, group, objectId, date, amount, account, balance, payload), id, p);
    hide Net;
  }

  // ---------------------------------------------------------------------------
  // Charges
  // ---------------------------------------------------------------------------

  /** The accounts that a charge booked as a sale in this market is booked on. */
  function ChargeAccounts(a: Accounts, m: Market, currency: string): seq<int>
    requires currency in a.balances
  {
    [a.receivable, m.revenue, m.outputVat, a.balances[currency], a.fee, a.feeInputVat, a.feeOutputVat]
  }

  /** A quarter of the fee, to the nearest ore. */
  lemma QuarterOfFee(fee: int)
    requires fee >= 0
    ensures -4 <= 2 * (4 * Round(fee, 4) - fee) <= 4 && Round(fee, 4) >= 0
  {
    RoundError(fee, 4);
    RoundWithin(fee, 4, fee);
  }

  /** The VAT of a charge in this market: none without a VAT account, the explicit amount if there is
      one, and otherwise the part of the gross amount that the rate makes up, to the nearest ore. */
  predicate VatReads(m: Market, gross: int, explicit: Option<int>, vat: int) {
    var whole := 100 * m.rate.den + m.rate.num;
    if m.outputVat == 0 then vat == 0
    else if explicit.Some? then vat == explicit.value
    else -whole <= 2 * (whole * vat - gross * m.rate.num) <= whole
  }

  /** The VAT of a fee: a quarter of it, to the nearest ore. */
  predicate FeeVatReads(fee: int, vat: int) { -4 <= 2 * (4 * vat - fee) <= 4 && (fee == 0 ==> vat == 0) }

  lemma SplitParts(m: Market, gross: int, explicit: Option<int>)
    requires gross >= 0 && ExplicitVatFits(m, gross, explicit) && SplitVat(m, gross, explicit).review.None?
    ensures var r := SplitVat(m, gross, explicit); var v := BookedVat(r.vat, r.outputVat);
      && r.revenueAccount == m.revenue && r.outputVat == m.outputVat && r.revenue == gross - v && 0 <= v <= gross
      && VatReads(m, gross, explicit, v)
  {
    hide IncludedVat;
    if m.outputVat != 0 && explicit.None? { IncludedVatIsNearest(gross, m.rate); }
  }

  lemma ChargeIsSale(a: Accounts, c: Charge, bt: BalanceTransaction, r: Resolution, id: nat)
    requires bt.amountSek != 0 && bt.currency in a.balances && r.review.None?
    ensures var s := SaleOf(a, c, bt, r);
      && ChargeFacts(a, c, bt, r, id) == Some(s.Facts(id))
      && s.gross == Abs(bt.amountSek) && s.revenue == r.revenue && s.vat == r.vat
      && s.fee == Abs(bt.feeSek) && s.feeReverseVat == Round(Abs(bt.feeSek), 4) && s.availableOn == bt.availableOn
      && AccountsOf(s.accounts) == [a.receivable, r.revenueAccount, r.outputVat, a.balances[bt.currency], a.fee, a.feeInputVat, a.feeOutputVat]
      && s.accounts.outputVat == r.outputVat
  {
    hide SaleInput.Facts, Round;
  }

  lemma FeeVatOf(fee: int)
    requires fee >= 0
    ensures FeeVatReads(fee, if fee > 0 then Round(fee, 4) else 0)
  {
    QuarterOfFee(fee);
  }

  /** A charge booked as a sale. Its VAT is on the market's VAT account and the rest of the gross amount
      on its revenue account; the fee's VAT is reversed on its second account. */
  lemma ChargeOnAccounts(a: Accounts, c: Charge, bt: BalanceTransaction, m: Market, explicit: Option<int>, id: nat)
    requires bt.amountSek != 0 && bt.currency in a.balances && Distinct(ChargeAccounts(a, m, bt.currency))
    requires var gross := Abs(bt.amountSek); SplitVat(m, gross, explicit).review.None? && ExplicitVatFits(m, gross, explicit)
    ensures var gross, fee := Abs(bt.amountSek), Abs(bt.feeSek);
      var booked := ChargeFacts(a, c, bt, SplitVat(m, gross, explicit), id);
      && booked.Some?
      && var vat, feeVat := -Net(booked.value, OnAccount(m.outputVat)), Net(booked.value, OnAccount(a.feeInputVat));
      && VatReads(m, gross, explicit, vat)
      && Net(booked.value, OnAccount(m.revenue)) == vat - gross
      && Net(booked.value, OnAccount(a.receivable)) == (if bt.availableOn.Some? then 0 else gross)
      && Net(booked.value, OnAccount(a.balances[bt.currency])) == (if bt.availableOn.Some? then gross else 0) - fee
      && Net(booked.value, OnAccount(a.fee)) == fee
      && FeeVatReads(fee, feeVat)
      && Net(booked.value, OnAccount(a.feeOutputVat)) == -feeVat
      && forall x :: x !in ChargeAccounts(a, m, bt.currency) ==> Net(booked.value, OnAccount(x)) == 0
  {
    var r := SplitVat(m, Abs(bt.amountSek), explicit);
    hide SplitVat, Round, BookedVat, Distinct, ExplicitVatFits, VatReads, FeeVatReads, SaleInput.Facts, Net, ChargeFacts, SaleOf;
    SplitParts(m, Abs(bt.amountSek), explicit);
    QuarterOfFee(Abs(bt.feeSek));
    FeeVatOf(Abs(bt.feeSek));
    ChargeIsSale(a, c, bt, r, id);
    var s := SaleOf(a, c, bt, r);
    assert AccountsOf(s.accounts) == ChargeAccounts(a, m, bt.currency);
    SaleOnAccounts(s, id);
  }

  /** What a transfer moves, as `p` selects it. */
  function Moved(t: Transfer, p: (string, string, int, Date) -> bool): int {
    Counted(p(t.group, t.debitType, t.debit, t.date), t.amount) - Counted(p(t.group, t.creditType, t.credit, t.date), t.amount)
  }

  function AllMoved(moves: seq<Transfer>, p: (string, string, int, Date) -> bool): int {
    if moves == [] then 0 else AllMoved(moves[..|moves| - 1], p) + Moved(moves[|moves| - 1], p)
  }

  lemma {:induction false} ReviewsMove(moves: seq<Transfer>, reason: string, id: nat, p: (string, string, int, Date) -> bool)
    requires forall i :: 0 <= i < |moves| ==> moves[i].amount > 0
    ensures ReviewAll(moves, reason, id).Some?
    ensures Net(ReviewAll(moves, reason, id).value, Where(p)) == AllMoved(moves, p)
  {
    if moves != [] {
      var t := moves[|moves| - 1].(status := NeedsReview, reason := Some(reason));
      ReviewsMove(moves[..|moves| - 1], reason, id, p);
      var front := ReviewAll(moves[..|moves| - 1], reason, id).value;
      TransferMovements(t, id + |front|, p);
      hide Net;
      NetConcat(front, t.Facts(id + |front|), Where(p));
    }
  }

  lemma MovedAfter(moves: seq<Transfer>, t: Transfer, p: (string, string, int, Date) -> bool)
    ensures AllMoved(moves + [t], p) == AllMoved(moves, p) + Moved(t, p) && AllMoved([], p) == 0
  {
    assert (moves + [t])[..|moves|] == moves;
  }

  lemma ThreeMoves(a: Accounts, c: Charge, bt: BalanceTransaction, p: (string, string, int, Date) -> bool)
    ensures AllMoved(ReviewMoves(a, c, bt), p) == Moved(SaleReview(a, c, bt), p) + Moved(FeeReview(a, c, bt), p)
      + match bt.availableOn case None => 0 case Some(d) => Moved(AvailableReview(a, c, bt, d), p)
  {
    var sale, fee := SaleReview(a, c, bt), FeeReview(a, c, bt);
    assert fee.amount == Abs(bt.feeSek);
    hide AllMoved, SaleReview, FeeReview, AvailableReview;
    MovedAfter([], sale, p);
    assert [] + [sale] == [sale] && [sale] + [] == [sale];
    var front := [sale] + if fee.amount > 0 then [fee] else [];
    if fee.amount > 0 { MovedAfter([sale], fee, p); }
    match bt.availableOn
    case None => assert ReviewMoves(a, c, bt) == front;
    case Some(d) =>
      assert ReviewMoves(a, c, bt) == front + [AvailableReview(a, c, bt, d)];
      MovedAfter(front, AvailableReview(a, c, bt, d), p);
  }

  /** Every movement of a charge that is put up for review. */
  lemma ReviewMovements(a: Accounts, c: Charge, bt: BalanceTransaction, reason: string, id: nat,
                        p: (string, string, int, Date) -> bool)
    requires bt.amountSek != 0
    ensures var booked, gross, fee := ReviewAll(ReviewMoves(a, c, bt), reason, id), Abs(bt.amountSek), Abs(bt.feeSek);
      var balance := if bt.currency in a.balances then a.balances[bt.currency] else a.fallback;
      var g := "charge:" + c.id;
      && booked.Some?
      && Net(booked.value, Where(p)) ==
        Counted(p(g + ":sale", "sale_review_receivable", a.receivable, c.created), gross)
        - Counted(p(g + ":sale", "sale_review_obs", a.fallback, c.created), gross)
        + Counted(p(g + ":fee", "stripe_fee_review_obs", a.fallback, c.created), fee)
        - Counted(p(g + ":fee", "stripe_fee_review_balance", balance, c.created), fee)
        + match bt.availableOn
          case None => 0
          case Some(d) =>
            Counted(p(g + ":available", "stripe_available_review_debit", balance, d), gross)
            - Counted(p(g + ":available", "stripe_available_review_credit", a.receivable, d), gross)
  {
    ReviewsMove(ReviewMoves(a, c, bt), reason, id, p);
    ThreeMoves(a, c, bt, p);
    hide ReviewMoves, ReviewAll, AllMoved, Net;
  }

  /** A charge put up for review is booked against the suspense account: it is credited with the
      gross amount and debited with the fee; the receivable and the Stripe balance move as in a sale. */
  lemma ReviewOnAccounts(a: Accounts, c: Charge, bt: BalanceTransaction, reason: string, id: nat)
    requires bt.amountSek != 0
    ensures var booked, gross, fee := ReviewAll(ReviewMoves(a, c, bt), reason, id), Abs(bt.amountSek), Abs(bt.feeSek);
      var balance := if bt.currency in a.balances then a.balances[bt.currency] else a.fallback;
      && booked.Some?
      && forall x :: (
          Net(booked.value, OnAccount(x)) ==
          Counted(x == a.receivable, if bt.availableOn.Some? then 0 else gross) + Counted(x == a.fallback, fee - gross)
          + Counted(x == balance, (if bt.availableOn.Some? then gross else 0) - fee))
  {
    var booked := ReviewAll(ReviewMoves(a, c, bt), reason, id);
    ReviewMovements(a, c, bt, reason, id, ByAccount(0));
    hide ReviewMoves, ReviewAll, Net;
    forall x
      ensures Net(booked.value, OnAccount(x)) ==
        Counted(x == a.receivable, if bt.availableOn.Some? then 0 else Abs(bt.amountSek))
        + Counted(x == a.fallback, Abs(bt.feeSek) - Abs(bt.amountSek))
        + Counted(x == BalanceAccount(a, bt), (if bt.availableOn.Some? then Abs(bt.amountSek) else 0) - Abs(bt.feeSek))
    {
      OnAccountIsWhere(booked.value, x);
      ReviewMovements(a, c, bt, reason, id, ByAccount(x));
    }
  }

  /** The fact belongs to the transfer, and waits for review. */
  predicate Waits(f: Fact, t: Transfer, reason: string) {
    && f.status == NeedsReview && f.reviewReason == Some(reason) && f.amount > 0 && f.taxCase == t.taxCase
    && f.group == t.group && f.date == t.date && f.objectType == t.objectType && f.objectId == t.objectId && f.payload == Some(t.payload)
  }

  lemma TransferWaits(t: Transfer, reason: string, id: nat)
    requires t.amount > 0
    ensures ReviewTransferFacts(t, reason, id).Some?
    ensures forall f :: f in ReviewTransferFacts(t, reason, id).value ==> Waits(f, t, reason)
  {}

  lemma {:induction false} ReviewsWait(moves: seq<Transfer>, reason: string, id: nat)
    requires ReviewAll(moves, reason, id).Some?
    ensures forall f :: f in ReviewAll(moves, reason, id).value ==> exists t :: t in moves && Waits(f, t, reason)
  {
    hide Waits;
    if moves != [] {
      var front, t := moves[..|moves| - 1], moves[|moves| - 1];
      ReviewsWait(front, reason, id);
      assert moves == front + [t];
      TransferWaits(t, reason, id + |ReviewAll(front, reason, id).value|);
    }
  }

  /** Why a charge needs review, if it does. */
  function ReviewReason(a: Accounts, c: Charge, bt: BalanceTransaction, r: Resolution): Option<string> {
    if bt.amountSek == 0 && c.currency != "SEK" then Some("charge missing settled SEK amount")
    else if r.review.Some? then r.review
    else if bt.currency !in a.balances then Some("no Stripe balance account mapping for settlement currency " + bt.currency)
    else None
  }

  /** A charge's facts wait for review exactly if there is a reason, and all give that reason. One whose
      settled amount is unknown is a single fact without an amount, which holds up its date. */
  lemma ChargeWaits(a: Accounts, c: Charge, bt: BalanceTransaction, r: Resolution, id: nat)
    requires ChargeFacts(a, c, bt, r, id).Some?
    ensures var why, facts := ReviewReason(a, c, bt, r), ChargeFacts(a, c, bt, r, id).value;
      && (forall f :: f in facts ==> f.reviewReason == why && f.status == if why.Some? then NeedsReview else FactStatus.Pending)
      && (bt.amountSek == 0 && c.currency != "SEK" ==>
          && |facts| == 1 && facts[0].amount == 0 && facts[0].account == a.fallback && facts[0].date == c.created
          && facts[0].direction == Debit && facts[0].factType == "unknown_obs" && facts[0].taxCase == None
          && facts[0].group == "charge:" + c.id + ":sale")
      && (bt.amountSek != 0 || c.currency == "SEK" ==> forall f :: f in facts ==> f.taxCase == Some(c.taxCase))
      && forall f :: f in facts ==> f.objectType == "charge" && f.objectId == c.id && f.payload == Some(c.payload)
  {
    hide ReviewAll, ReviewMoves, SaleInput.Facts, Waits, OfSale, ChargeFacts, SaleOf;
    BookedCases(a, c, bt, r, id);
    var why := ReviewReason(a, c, bt, r);
    if why.None? {
      SaleIsPending(SaleOf(a, c, bt, r), id);
      SaleOfCharge(a, c, bt, r);
    } else if bt.amountSek != 0 || c.currency == "SEK" {
      ReviewsWait(ReviewMoves(a, c, bt), why.value, id);
      MovesOfCharge(a, c, bt, why.value);
    }
  }

  lemma BookedCases(a: Accounts, c: Charge, bt: BalanceTransaction, r: Resolution, id: nat)
    requires ChargeFacts(a, c, bt, r, id).Some?
    ensures var why, booked := ReviewReason(a, c, bt, r), ChargeFacts(a, c, bt, r, id);
      if bt.amountSek == 0 && c.currency != "SEK" then
        |booked.value| == 1 && var f := booked.value[0];
        && f.group == "charge:" + c.id + ":sale" && f.objectType == "charge" && f.objectId == c.id && f.date == c.created
        && f.amount == 0 && f.account == a.fallback && f.direction == Debit && f.factType == "unknown_obs" && f.taxCase == None
        && f.status == NeedsReview && f.reviewReason == why && f.payload == Some(c.payload)
      else if why.Some? then booked == ReviewAll(ReviewMoves(a, c, bt), why.value, id)
      else bt.currency in a.balances && booked == Some(SaleOf(a, c, bt, r).Facts(id))
  {
    hide ReviewAll, ReviewMoves, SaleInput.Facts, SaleOf;
  }

  lemma SaleOfCharge(a: Accounts, c: Charge, bt: BalanceTransaction, r: Resolution)
    requires bt.currency in a.balances
    ensures forall f :: OfSale(f, SaleOf(a, c, bt, r)) ==>
      && f.status == FactStatus.Pending && f.reviewReason == None
      && f.taxCase == Some(c.taxCase) && f.objectType == "charge" && f.objectId == c.id && f.payload == Some(c.payload)
  {
  }

  lemma MovesOfCharge(a: Accounts, c: Charge, bt: BalanceTransaction, reason: string)
    ensures forall f, t :: t in ReviewMoves(a, c, bt) && Waits(f, t, reason) ==>
      && f.status == NeedsReview && f.reviewReason == Some(reason)
      && f.taxCase == Some(c.taxCase) && f.objectType == "charge" && f.objectId == c.id && f.payload == Some(c.payload)
  {}

  /** What all facts of one sale share. */
  predicate OfSale(f: Fact, s: SaleInput) {
    && f.status == FactStatus.Pending && f.reviewReason == None && f.taxCase == s.taxCase
    && f.objectType == s.objectType && f.objectId == s.objectId && f.payload == Some(s.payload)
  }

  lemma SaleIsPending(s: SaleInput, id: nat)
    ensures forall f :: f in s.Facts(id) ==> OfSale(f, s)
  {
    hide SaleInput.SaleGroup, SaleInput.FeeGroup, SaleInput.AvailableGroup, OfSale;
    var sale := s.SaleGroup(id);
    var fees := s.FeeGroup(id + |sale|);
    GroupsOfSale(s, id, id + |sale|, id + |sale| + |fees|);
  }

  lemma GroupsOfSale(s: SaleInput, id1: nat, id2: nat, id3: nat)
    ensures forall f :: f in s.SaleGroup(id1) ==> OfSale(f, s)
    ensures forall f :: f in s.FeeGroup(id2) ==> OfSale(f, s)
    ensures forall f :: f in s.AvailableGroup(id3) ==> OfSale(f, s)
  {}

  // ---------------------------------------------------------------------------
  // Refunds of a charge
  // ---------------------------------------------------------------------------

  /** A refund of a charge. Its share of the charge's VAT, to the nearest ore, comes off the VAT
      account and the rest off revenue; or, where the charge needs review, the whole off the
      suspense account. The receivable is credited with what was paid back. */
  lemma ChargeRefundOnAccounts(a: Accounts, c: Charge, r: Resolution, refund: RefundData, id: nat)
    requires c.amount > 0 && 0 <= refund.amount <= c.amount && r.vat >= 0 && BooksItsVat(r)
    requires refund.settled.Some? && refund.settled.value != 0
    requires if r.review.Some? then a.fallback != a.receivable else Distinct([a.receivable, r.revenueAccount, r.outputVat])
    ensures var booked, gross := OneRefund(a, c, r, refund, id), Abs(refund.settled.value);
      && booked.Some?
      && Net(booked.value, OnAccount(a.receivable)) == 0 - gross
      && (r.review.Some? ==>
          && Net(booked.value, OnAccount(a.fallback)) == gross
          && forall f :: f in booked.value ==> f.status == NeedsReview && f.reviewReason == r.review)
      && (r.review.None? ==>
          var v := Net(booked.value, OnAccount(r.outputVat));
          && -c.amount <= 2 * (c.amount * v - r.vat * refund.amount) <= c.amount
          && Net(booked.value, OnAccount(r.revenueAccount)) == Abs(gross - v)
          && forall f :: f in booked.value ==> f.status == FactStatus.Pending && f.reviewReason == None)
      && forall f :: f in booked.value ==> f.group == "refund:" + refund.id && f.date == refund.created && f.taxCase == Some(c.taxCase)
  {
    if r.review.Some? {
      MoveNet(RefundReview(a, c, refund), r.review.value, id, a.receivable);
      MoveNet(RefundReview(a, c, refund), r.review.value, id, a.fallback);
    } else {
      ShareIsNearest(r.vat, refund.amount, c.amount);
      ProportionalWithin(r.vat, refund.amount, c.amount);
      NoShareOfNothing(refund.amount, c.amount);
      hide Proportional;
      RefundOnAccounts(RefundOf(a, c, r, refund), id);
    }
  }

  /** A refund without its balance transaction is not booked yet; one whose settled amount is unknown is
      a single fact without an amount, on the suspense account, that waits for review. */
  lemma UnsettledRefund(a: Accounts, c: Charge, r: Resolution, refund: RefundData, id: nat)
    ensures refund.settled.None? ==> OneRefund(a, c, r, refund, id) == Some([])
    ensures refund.settled == Some(0) && refund.currency != "SEK" ==>
      var booked := OneRefund(a, c, r, refund, id);
      && booked.Some? && |booked.value| == 1
      && var f := booked.value[0];
      && f.group == "refund:" + refund.id && f.objectType == "refund" && f.objectId == refund.id && f.factType == "unknown_obs"
      && f.date == refund.created && f.account == a.fallback && f.amount == 0 && f.direction == Debit && f.taxCase == None
      && f.status == NeedsReview && f.reviewReason == Some("refund missing settled SEK amount") && f.payload == Some(refund.payload)
  {}
}
