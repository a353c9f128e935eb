/** The rows of the two filing tables. */
module Filing {
  import opened Grouping

  datatype ReviewState = Ready | Review

  datatype OssEntry = OssEntry(
    id: nat, taxCase: Option<nat>, group: string, objectType: string, objectId: string,
    originalPeriod: string, filingPeriod: string, correctionTarget: Option<string>,
    country: string, origin: string, saleType: string, rate: int, taxable: int, vat: int,
    state: ReviewState, reason: Option<string>)

  datatype PsEntry = PsEntry(
    id: nat, taxCase: Option<nat>, group: string, objectType: string, objectId: string,
    filingPeriod: string, buyer: string, rowType: string, amountOre: int, exported: int,
    state: ReviewState, reason: Option<string>)

  /** Ore to whole kronor, halves away from zero; Go's integer division truncates. */
  function OreToWholeSek(amount: int): int {
    if amount >= 0 then (amount + 50) / 100 else -((-amount + 50) / 100)
  }

  /** A period's row; its deadline and first sending time follow from its name. */
  datatype PeriodStatus = NotEvaluated | Unchanged | NoDataReminder | Exported | EvaluationFailed | Submitted

  datatype PeriodRow = PeriodRow(status: PeriodStatus, zeroReminderSent: bool, submitted: bool)
}
