/** internal/accounting/facts.go: the facts that one business event is booked as. */
module FactBuilders {
  import opened Grouping
  import opened Ledger

  /** `newFact`: the amount is stored without its sign. */
  function NewFact(id: nat, taxCase: Option<nat>, group: string, objectType: string, objectId: string, factType: string,
                   date: Date, amount: int, account: int, direction: Direction, status: FactStatus,
                   reason: Option<string>, payload: string): Fact
  {
    Fact(id, taxCase, group, objectType, objectId, factType, date, Abs(amount), account, direction, status, reason, Some(payload))
  }

  datatype SaleAccounts = SaleAccounts(
    receivable: int, revenue: int, outputVat: int, balance: int, fee: int, feeInputVat: int, feeOutputVat: int)

  datatype SaleInput = SaleInput(
    taxCase: Option<nat>, prefix: string, objectType: string, objectId: string,
    chargeDate: Date, availableOn: Option<Date>,
    gross: int, revenue: int, vat: int, fee: int, feeReverseVat: int,
    accounts: SaleAccounts, payload: string)
  {
    function Line(id: nat, suffix: string, factType: string, date: Date, amount: int, account: int,
                  direction: Direction): Fact {
      NewFact(id, taxCase, prefix + suffix, objectType, objectId, factType, date, amount, account, direction, Pending, None, payload)
    }

    function SaleGroup(id: nat): seq<Fact> {
      [Line(id, ":sale", "sale_receivable", chargeDate, gross, accounts.receivable, Debit),
       Line(id + 1, ":sale", "sale_revenue", chargeDate, revenue, accounts.revenue, Credit)]
      + if vat > 0 && accounts.outputVat != 0
        then [Line(id + 2, ":sale", "sale_output_vat", chargeDate, vat, accounts.outputVat, Credit)] else []
    }

    function FeeGroup(id: nat): seq<Fact> {
      if fee <= 0 then []
      else
        [Line(id, ":fee", "stripe_fee_expense", chargeDate, fee, accounts.fee, Debit),
         Line(id + 1, ":fee", "stripe_fee_balance", chargeDate, fee, accounts.balance, Credit)]
        + if feeReverseVat > 0
          then [Line(id + 2, ":fee", "stripe_fee_input_vat", chargeDate, feeReverseVat, accounts.feeInputVat, Debit),
                Line(id + 3, ":fee", "stripe_fee_output_vat", chargeDate, feeReverseVat, accounts.feeOutputVat, Credit)] else []
    }

    function AvailableGroup(id: nat): seq<Fact> {
      match availableOn
      case None => []
      case Some(date) =>
        [Line(id, ":available", "stripe_available_debit", date, gross, accounts.balance, Debit),
         Line(id + 1, ":available", "stripe_available_credit", date, gross, accounts.receivable, Credit)]
    }

    function Facts(id: nat): seq<Fact> {
      var sale := SaleGroup(id);
      var fees := FeeGroup(id + |sale|);
      sale + fees + AvailableGroup(id + |sale| + |fees|)
    }
  }

  /** None stands for the error of a gross amount that is not positive. */
  method BuildSaleFacts(input: SaleInput, firstId: nat) returns (r: Option<seq<Fact>>)
    ensures r == if input.gross <= 0 then None else Some(input.Facts(firstId))
  {
    if input.gross <= 0 { return None; }
    var a := input.accounts;
    var facts := [
      input.Line(firstId, ":sale", "sale_receivable", input.chargeDate, input.gross, a.receivable, Debit),
      input.Line(firstId + 1, ":sale", "sale_revenue", input.chargeDate, input.revenue, a.revenue, Credit)];
    if input.vat > 0 && a.outputVat != 0 {
      facts := facts + [input.Line(firstId + |facts|, ":sale", "sale_output_vat", input.chargeDate, input.vat, a.outputVat, Credit)];
    }
    ghost var sale := facts;
    assert sale == input.SaleGroup(firstId);
    if input.fee > 0 {
      facts := facts + [
        input.Line(firstId + |facts|, ":fee", "stripe_fee_expense", input.chargeDate, input.fee, a.fee, Debit),
        input.Line(firstId + |facts| + 1, ":fee", "stripe_fee_balance", input.chargeDate, input.fee, a.balance, Credit)];
      if input.feeReverseVat > 0 {
        facts := facts + [
          input.Line(firstId + |facts|, ":fee", "stripe_fee_input_vat", input.chargeDate, input.feeReverseVat, a.feeInputVat, Debit),
          input.Line(firstId + |facts| + 1, ":fee", "stripe_fee_output_vat", input.chargeDate, input.feeReverseVat, a.feeOutputVat, Credit)];
      }
    }
    ghost var fees := input.FeeGroup(firstId + |sale|);
    assert facts == sale + fees;
    if input.availableOn.Some? {
      facts := facts + [
        input.Line(firstId + |facts|, ":available", "stripe_available_debit", input.availableOn.value, input.gross, a.balance, Debit),
        input.Line(firstId + |facts| + 1, ":available", "stripe_available_credit", input.availableOn.value, input.gross, a.receivable, Credit)];
    }
    assert facts == sale + fees + input.AvailableGroup(firstId + |sale| + |fees|);
    return Some(facts);
  }

  datatype RefundInput = RefundInput(
    taxCase: Option<nat>, group: string, objectId: string, date: Date,
    gross: int, revenue: int, vat: int, receivable: int, revenueAccount: int, outputVat: int, payload: string)
  {
    function Line(id: nat, factType: string, amount: int, account: int, direction: Direction): Fact {
      NewFact(id, taxCase, group, "refund", objectId, factType, date, amount, account, direction, Pending, None, payload)
    }

    function Facts(id: nat): seq<Fact> {
      [Line(id, "refund_receivable", gross, receivable, Credit), Line(id + 1, "refund_revenue", revenue, revenueAccount, Debit)]
      + if vat > 0 && outputVat != 0 then [Line(id + 2, "refund_output_vat", vat, outputVat, Debit)] else []
    }
  }

  method BuildRefundFacts(input: RefundInput, firstId: nat) returns (facts: seq<Fact>)
    ensures facts == input.Facts(firstId)
  {
    facts := [
      input.Line(firstId, "refund_receivable", input.gross, input.receivable, Credit),
      input.Line(firstId + 1, "refund_revenue", input.revenue, input.revenueAccount, Debit)];
    if input.vat > 0 && input.outputVat != 0 {
      facts := facts + [input.Line(firstId + 2, "refund_output_vat", input.vat, input.outputVat, Debit)];
    }
  }

  /** One amount moved from `credit` to `debit`. */
  datatype Transfer = Transfer(
    taxCase: Option<nat>, group: string, objectType: string, objectId: string, date: Date,
    amount: int, debitType: string, creditType: string, debit: int, credit: int,
    status: FactStatus, reason: Option<string>, payload: string)
  {
    function Facts(id: nat): seq<Fact> {
      [NewFact(id, taxCase, group, objectType, objectId, debitType, date, amount, debit, Debit, status, reason, payload),
       NewFact(id + 1, taxCase, group, objectType, objectId, creditType, date, amount, credit, Credit, status, reason, payload)]
    }
  }

  function PayoutTransfer(taxCase: Option<nat>, group: string, objectId: string, date: Date, amount: int,
                          bank: int, balance: int, payload: string): Transfer
  {
    Transfer(taxCase, group, "payout", objectId, date, amount, "payout_bank", "payout_stripe_balance", bank, balance, Pending, None, payload)
  }

  function DisputeTransfer(taxCase: Option<nat>, group: string, objectId: string, date: Date, amount: int,
                           dispute: int, balance: int, payload: string): Transfer
  {
    Transfer(taxCase, group, "dispute", objectId, date, amount, "dispute_debit", "dispute_credit", dispute, balance, Pending, None, payload)
  }

  /** BuildReviewTransferFacts; None stands for the error of an amount that is not positive. */
  function ReviewTransferFacts(t: Transfer, reason: string, id: nat): Option<seq<Fact>> {
    if t.amount <= 0 then None else Some(t.(status := NeedsReview, reason := Some(reason)).Facts(id))
  }

  function ReviewNote(group: string, objectType: string, objectId: string, date: Date, account: int, reason: string,
                      payload: string, id: nat): Fact
  {
    NewFact(id, None, group, objectType, objectId, "unknown_obs", date, 0, account, Debit, NeedsReview, Some(reason), payload)
  }
}
