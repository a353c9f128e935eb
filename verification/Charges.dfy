/** From Stripe's amounts to facts: currency conversion, the VAT contained in a gross amount,
    the facts of a charge and of its refunds.

    internal/stripe/helpers.go, internal/stripe/service_charge.go and the VAT split of
    internal/accounting/sales.go. Rates are exact fractions. */
module Charges {
  import opened Grouping
  import opened Ledger
  import opened Rounding
  import opened FactBuilders

  type Positive = n: int | n > 0 witness 1

  // ---------------------------------------------------------------------------
  // Conversion
  // ---------------------------------------------------------------------------

  datatype Rate = Rate(num: int, den: Positive)

  /** amountToSEKOre for a transaction that carries no converted amounts: ore are taken as
      they are, anything else needs the rate. */
  function ToOre(amount: int, currency: string): int {
    if currency == "SEK" || currency == "" then amount else 0
  }

  function Converted(amount: int, currency: string, rate: Option<Rate>): int {
    if currency != "SEK" && rate.Some? then Round(amount * rate.value.num, rate.value.den) else ToOre(amount, currency)
  }

  lemma NetOfParts(amount: int, fee: int, num: int, den: int)
    requires den > 0
    ensures -1 <= Round((amount - fee) * num, den) - (Round(amount * num, den) - Round(fee * num, den)) <= 1
  {
    hide Round;
    RoundDifference(amount * num, fee * num, den);
    assert (amount - fee) * num == amount * num - fee * num;
  }

  /** A converted amount is the amount times the rate up to half an ore; ore stay as they are, and
      other amounts without a rate are unknown, which is zero. What Stripe pays out is the amount
      less the fee; after conversion this still holds up to one ore, whatever the rate, and exactly
      where nothing is converted. */
  method ConvertBalanceTransaction(amount: int, fee: int, net: int, currency: string, rate: Option<Rate>)
    returns (amountSek: int, feeSek: int, netSek: int)
    ensures currency != "SEK" && rate.Some? ==>
      var num: int, den: int := rate.value.num, rate.value.den;
      && -den <= 2 * (den * amountSek - amount * num) <= den
      && -den <= 2 * (den * feeSek - fee * num) <= den
      && -den <= 2 * (den * netSek - net * num) <= den
    ensures currency == "SEK" || (currency == "" && rate.None?) ==> amountSek == amount && feeSek == fee && netSek == net
    ensures currency != "SEK" && currency != "" && rate.None? ==> amountSek == 0 && feeSek == 0 && netSek == 0
    ensures amountSek == Converted(amount, currency, rate)
    ensures feeSek == Converted(fee, currency, rate)
    ensures netSek == Converted(net, currency, rate)
    ensures net == amount - fee ==> -1 <= netSek - (amountSek - feeSek) <= 1
    ensures net == amount - fee && (currency == "SEK" || rate.None?) ==> netSek == amountSek - feeSek
  {
    amountSek := ToOre(amount, currency);
    feeSek := ToOre(fee, currency);
    netSek := ToOre(net, currency);
    if currency != "SEK" && rate.Some? {
      hide Round;
      var num: int, den: int := rate.value.num, rate.value.den;
      amountSek := Round(amount * num, den);
      feeSek := Round(fee * num, den);
      netSek := Round(net * num, den);
      RoundError(amount * num, den);
      RoundError(fee * num, den);
      RoundError(net * num, den);
      NetOfParts(amount, fee, num, den);
    }
  }

  // ---------------------------------------------------------------------------
  // The VAT split
  // ---------------------------------------------------------------------------

  /** A sales account mapping; the rate is in percent, and 0 where none is configured. */
  datatype Market = Market(revenue: int, outputVat: int, rate: Rate)

  datatype Resolution = Resolution(revenueAccount: int, outputVat: int, revenue: int, vat: int, review: Option<string>)

  function IncludedVat(gross: int, rate: Rate): int
    requires rate.num > 0
  {
    Round(gross * rate.num, 100 * rate.den + rate.num)
  }

  /** ResolveTaxCase, once the market's accounts are found. */
  function SplitVat(m: Market, gross: int, explicit: Option<int>): Resolution {
    if m.outputVat == 0 then Resolution(m.revenue, 0, gross, 0, None)
    else if explicit.Some? then Resolution(m.revenue, m.outputVat, gross - explicit.value, explicit.value, None)
    else if m.rate.num <= 0 then Resolution(m.revenue, m.outputVat, 0, 0, Some("market requires VAT amount or vat_rate_percent"))
    else
      var vat := IncludedVat(gross, m.rate);
      Resolution(m.revenue, m.outputVat, gross - vat, vat, None)
  }

  /** The VAT contained in a gross amount at `r` percent lies between zero and that amount, and
      satisfies VAT * (100 + r) = gross * r up to half of 100 + r, so it is the nearest ore. */
  lemma IncludedVatIsNearest(gross: int, rate: Rate)
    requires gross >= 0 && rate.num > 0
    ensures 0 <= IncludedVat(gross, rate) <= gross
    ensures var whole := 100 * rate.den + rate.num;
      -whole <= 2 * (whole * IncludedVat(gross, rate) - gross * rate.num) <= whole
  {
    hide Round;
    var whole := 100 * rate.den + rate.num;
    RoundError(gross * rate.num, whole);
    Scale(rate.num, 0, gross);
    assert gross * whole == gross * (100 * rate.den) + gross * rate.num;
    Scale(100 * rate.den, 0, gross);
    RoundWithin(gross * rate.num, whole, gross);
  }

  // ---------------------------------------------------------------------------
  // The facts of a charge
  // ---------------------------------------------------------------------------

  datatype Accounts = Accounts(
    receivable: int, fallback: int, balances: map<string, int>, fee: int, feeInputVat: int, feeOutputVat: int)

  datatype Charge = Charge(id: string, created: Date, currency: string, amount: int, taxCase: nat, payload: string)

  datatype BalanceTransaction = BalanceTransaction(currency: string, amountSek: int, feeSek: int, availableOn: Option<Date>)

  function SaleOf(a: Accounts, c: Charge, bt: BalanceTransaction, r: Resolution): SaleInput
    requires bt.currency in a.balances
  {
    var fee := Abs(bt.feeSek);
    SaleInput(Some(c.taxCase), "charge:" + c.id, "charge", c.id, c.created, bt.availableOn,
              Abs(bt.amountSek), r.revenue, r.vat, fee, Round(fee, 4),
              SaleAccounts(a.receivable, r.revenueAccount, r.outputVat, a.balances[bt.currency], a.fee, a.feeInputVat, a.feeOutputVat),
              c.payload)
  }

  function ReviewMove(c: Charge, suffix: string, date: Date, amount: int, debitType: string, creditType: string,
                      debit: int, credit: int): Transfer {
    Transfer(Some(c.taxCase), "charge:" + c.id + suffix, "charge", c.id, date, amount, debitType, creditType, debit, credit,
             Pending, None, c.payload)
  }

  function BalanceAccount(a: Accounts, bt: BalanceTransaction): int {
    if bt.currency in a.balances then a.balances[bt.currency] else a.fallback
  }

  function SaleReview(a: Accounts, c: Charge, bt: BalanceTransaction): Transfer {
    ReviewMove(c, ":sale", c.created, Abs(bt.amountSek), "sale_review_receivable", "sale_review_obs", a.receivable, a.fallback)
  }

  function FeeReview(a: Accounts, c: Charge, bt: BalanceTransaction): Transfer {
    ReviewMove(c, ":fee", c.created, Abs(bt.feeSek), "stripe_fee_review_obs", "stripe_fee_review_balance", a.fallback, BalanceAccount(a, bt))
  }

  function AvailableReview(a: Accounts, c: Charge, bt: BalanceTransaction, date: Date): Transfer {
    ReviewMove(c, ":available", date, Abs(bt.amountSek), "stripe_available_review_debit", "stripe_available_review_credit",
               BalanceAccount(a, bt), a.receivable)
  }

  /** The same movements as a sale, against the suspense account instead of revenue and fees. */
  function ReviewMoves(a: Accounts, c: Charge, bt: BalanceTransaction): seq<Transfer> {
    [SaleReview(a, c, bt)]
    + (if Abs(bt.feeSek) > 0 then [FeeReview(a, c, bt)] else [])
    + if bt.availableOn.Some? then [AvailableReview(a, c, bt, bt.availableOn.value)] else []
  }

  /** Each transfer booked for review, None if one of them has no amount. */
  function ReviewAll(moves: seq<Transfer>, reason: string, id: nat): Option<seq<Fact>> {
    if moves == [] then Some([])
    else
      match ReviewAll(moves[..|moves| - 1], reason, id)
      case None => None
      case Some(front) =>
        match ReviewTransferFacts(moves[|moves| - 1], reason, id + |front|)
        case None => None
        case Some(facts) => Some(front + facts)
  }

  lemma ReviewAllSnoc(moves: seq<Transfer>, t: Transfer, reason: string, id: nat)
    ensures ReviewAll(moves + [t], reason, id) ==
      match ReviewAll(moves, reason, id)
      case None => None
      case Some(front) =>
        (match ReviewTransferFacts(t, reason, id + |front|) case None => None case Some(facts) => Some(front + facts))
  {
    assert (moves + [t])[..|moves|] == moves;
  }

  method BuildChargeReviewFacts(a: Accounts, c: Charge, bt: BalanceTransaction, reason: string,
                                id: nat) returns (r: Option<seq<Fact>>)
    ensures r == ReviewAll(ReviewMoves(a, c, bt), reason, id)
  {
    hide ReviewAll, SaleReview, FeeReview, AvailableReview, ReviewTransferFacts;
    ghost var moves := [];
    ReviewNothing(reason, id);
    var facts := [];
    var sale := ReviewTransferFacts(SaleReview(a, c, bt), reason, id);
    ReviewAllSnoc(moves, SaleReview(a, c, bt), reason, id);
    moves := moves + [SaleReview(a, c, bt)];
    FailureStays(moves, ReviewMoves(a, c, bt), reason, id);
    if sale.None? { return None; }
    facts := facts + sale.value;
    if Abs(bt.feeSek) > 0 {
      var fee := ReviewTransferFacts(FeeReview(a, c, bt), reason, id + |facts|);
      ReviewAllSnoc(moves, FeeReview(a, c, bt), reason, id);
      moves := moves + [FeeReview(a, c, bt)];
      FailureStays(moves, ReviewMoves(a, c, bt), reason, id);
      if fee.None? { return None; }
      facts := facts + fee.value;
    }
    if bt.availableOn.Some? {
      var available := ReviewTransferFacts(AvailableReview(a, c, bt, bt.availableOn.value), reason, id + |facts|);
      ReviewAllSnoc(moves, AvailableReview(a, c, bt, bt.availableOn.value), reason, id);
      moves := moves + [AvailableReview(a, c, bt, bt.availableOn.value)];
      assert moves == ReviewMoves(a, c, bt);
      if available.None? { return None; }
      facts := facts + available.value;
    }
    assert moves == ReviewMoves(a, c, bt);
    return Some(facts);
  }

  lemma ReviewNothing(reason: string, id: nat)
    ensures ReviewAll([], reason, id) == Some([])
  {}

  lemma {:induction false} FailureStays(part: seq<Transfer>, moves: seq<Transfer>, reason: string, id: nat)
    ensures part <= moves && ReviewAll(part, reason, id).None? ==> ReviewAll(moves, reason, id).None?
    decreases |moves|
  {
    if part < moves {
      assert part <= moves[..|moves| - 1];
      FailureStays(part, moves[..|moves| - 1], reason, id);
    } else if part <= moves {
      assert part == moves;
    }
  }

  /** What a charge is booked as: a note if its settled amount is unknown, a review if its tax
      case or its settlement currency is unresolved, and a sale otherwise. */
  function ChargeFacts(a: Accounts, c: Charge, bt: BalanceTransaction, r: Resolution, id: nat): Option<seq<Fact>> {
    if bt.amountSek == 0 && c.currency != "SEK" then
      Some([ReviewNote("charge:" + c.id + ":sale", "charge", c.id, c.created, a.fallback,
                       "charge missing settled SEK amount", c.payload, id)])
    else if r.review.Some? then ReviewAll(ReviewMoves(a, c, bt), r.review.value, id)
    else if bt.currency !in a.balances then ReviewAll(ReviewMoves(a, c, bt), NoBalanceAccount(bt.currency), id)
    else
      var sale := SaleOf(a, c, bt, r);
      if sale.gross <= 0 then None else Some(sale.Facts(id))
  }

  function NoBalanceAccount(currency: string): string {
    "no Stripe balance account mapping for settlement currency " + currency
  }

  method BuildChargeFacts(a: Accounts, c: Charge, bt: BalanceTransaction, r: Resolution,
                          id: nat) returns (facts: Option<seq<Fact>>)
    ensures facts == ChargeFacts(a, c, bt, r, id)
  {
    if bt.amountSek == 0 && c.currency != "SEK" {
      var note := ReviewNote("charge:" + c.id + ":sale", "charge", c.id, c.created, a.fallback,
                             "charge missing settled SEK amount", c.payload, id);
      return Some([note]);
    }
    if r.review.Some? {
      facts := BuildChargeReviewFacts(a, c, bt, r.review.value, id);
      return;
    }
    if bt.currency !in a.balances {
      facts := BuildChargeReviewFacts(a, c, bt, NoBalanceAccount(bt.currency), id);
      return;
    }
    facts := BuildSaleFacts(SaleOf(a, c, bt, r), id);
  }

  // ---------------------------------------------------------------------------
  // Refunds
  // ---------------------------------------------------------------------------

  /** `settled` is the converted amount of the refund's balance transaction, None while Stripe
      has not made one. */
  datatype RefundData = RefundData(id: string, created: Date, currency: string, amount: int, settled: Option<int>, payload: string)

  /** proportionalAmount. */
  function Proportional(total: int, part: int, whole: int): int {
    if whole == 0 then 0
    else if whole > 0 then Round(total * part, whole)
    else Round(-(total * part), -whole)
  }

  function RefundOf(a: Accounts, c: Charge, r: Resolution, refund: RefundData): RefundInput
    requires refund.settled.Some?
  {
    var gross := Abs(refund.settled.value);
    var vat := Proportional(r.vat, refund.amount, c.amount);
    RefundInput(Some(c.taxCase), "refund:" + refund.id, refund.id, refund.created, gross, gross - vat, vat,
                a.receivable, r.revenueAccount, r.outputVat, refund.payload)
  }

  function RefundReview(a: Accounts, c: Charge, refund: RefundData): Transfer
    requires refund.settled.Some?
  {
    Transfer(Some(c.taxCase), "refund:" + refund.id, "refund", refund.id, refund.created, Abs(refund.settled.value),
             "refund_review_obs", "refund_review_receivable", a.fallback, a.receivable, Pending, None, refund.payload)
  }

  /** The facts of one refund; none while its balance transaction is missing. */
  function OneRefund(a: Accounts, c: Charge, r: Resolution, refund: RefundData, id: nat): Option<seq<Fact>> {
    if refund.settled.None? then Some([])
    else if refund.settled.value == 0 && refund.currency != "SEK" then
      Some([ReviewNote("refund:" + refund.id, "refund", refund.id, refund.created, a.fallback,
                       "refund missing settled SEK amount", refund.payload, id)])
    else if r.review.Some? then ReviewTransferFacts(RefundReview(a, c, refund), r.review.value, id)
    else Some(RefundOf(a, c, r, refund).Facts(id))
  }

  function AllRefunds(a: Accounts, c: Charge, r: Resolution, refunds: seq<RefundData>, id: nat): Option<seq<Fact>> {
    if refunds == [] then Some([])
    else
      match AllRefunds(a, c, r, refunds[..|refunds| - 1], id)
      case None => None
      case Some(front) =>
        match OneRefund(a, c, r, refunds[|refunds| - 1], id + |front|)
        case None => None
        case Some(facts) => Some(front + facts)
  }

  lemma {:induction false} RefundFailureStays(a: Accounts, c: Charge, r: Resolution, refunds: seq<RefundData>, i: nat,
                                              id: nat)
    requires i <= |refunds| && AllRefunds(a, c, r, refunds[..i], id).None?
    ensures AllRefunds(a, c, r, refunds, id).None?
    decreases |refunds|
  {
    if i < |refunds| {
      assert refunds[..|refunds| - 1][..i] == refunds[..i];
      RefundFailureStays(a, c, r, refunds[..|refunds| - 1], i, id);
    } else {
      assert refunds[..i] == refunds;
    }
  }

  /** The refund loop of handleRefundedCharge. */
  method BuildAllRefundFacts(a: Accounts, c: Charge, r: Resolution, refunds: seq<RefundData>,
                             id: nat) returns (result: Option<seq<Fact>>)
    ensures result == AllRefunds(a, c, r, refunds, id)
  {
    var facts := [];
    for i := 0 to |refunds|
      invariant AllRefunds(a, c, r, refunds[..i], id) == Some(facts)
    {
      var refund := refunds[i];
      assert refunds[..i + 1][..i] == refunds[..i];
      if refund.settled.None? {
        assert facts + [] == facts;
        continue;
      }
      var gross := Abs(refund.settled.value);
      if gross == 0 && refund.currency != "SEK" {
        var note := ReviewNote("refund:" + refund.id, "refund", refund.id, refund.created, a.fallback,
                               "refund missing settled SEK amount", refund.payload, id + |facts|);
        facts := facts + [note];
        continue;
      }
      if r.review.Some? {
        var review := ReviewTransferFacts(RefundReview(a, c, refund), r.review.value, id + |facts|);
        if review.None? {
          RefundFailureStays(a, c, r, refunds, i + 1, id);
          return None;
        }
        facts := facts + review.value;
        continue;
      }
      var refundFacts := BuildRefundFacts(RefundOf(a, c, r, refund), id + |facts|);
      facts := facts + refundFacts;
    }
    assert refunds[..|refunds|] == refunds;
    return Some(facts);
  }
}
