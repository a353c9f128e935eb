/** Civil dates and accounting facts, the rows everything else is computed from. */
module Ledger {
  import opened Grouping
  import opened Text

  datatype Date = Date(year: nat, month: nat, day: nat)

  function FormatDate(d: Date): string {
    Pad(d.year, 4) + "-" + Pad(d.month, 2) + "-" + Pad(d.day, 2)
  }

  datatype Direction = Debit | Credit {
    function Text(): string { if Debit? then "debit" else "credit" }
  }

  datatype FactStatus = Pending | Batched | Posted | Reversed | Failed | NeedsReview

  /** One booked line: `amount` ore on `account`. `payload` is None where Go leaves the
      JSON payload nil, which the database column does not accept. */
  datatype Fact = Fact(
    id: nat,
    taxCase: Option<nat>,
    group: string,
    objectType: string,
    objectId: string,
    factType: string,
    date: Date,
    amount: int,
    account: int,
    direction: Direction,
    status: FactStatus,
    reviewReason: Option<string>,
    payload: Option<string>)
  {
    /** The fact without its status, the one column that changes after insertion. */
    function Core(): Fact { this.(status := Pending) }
  }

  function Abs(x: int): nat { if x < 0 then -x else x }
}
