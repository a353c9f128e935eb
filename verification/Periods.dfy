/** internal/filings/periods.go: filing periods, their names and the dates they span. */
module Periods {
  import opened Grouping
  import opened Text
  import opened Ledger

  datatype Kind = OssUnion | PeriodicSummary

  // ---------------------------------------------------------------------------
  // Civil dates
  // ---------------------------------------------------------------------------

  predicate LeapYear(year: nat) { year % 4 == 0 && (year % 100 != 0 || year % 400 == 0) }

  function DaysIn(year: nat, month: nat): nat {
    if month == 2 then (if LeapYear(year) then 29 else 28)
    else if month in {4, 6, 9, 11} then 30 else 31
  }

  predicate ValidDate(d: Date) { 1 <= d.month <= 12 && 1 <= d.day <= DaysIn(d.year, d.month) }

  /** A date the four-digit period names can express. */
  predicate CivilDate(d: Date) { ValidDate(d) && d.year <= 9999 }

  predicate NotAfter(a: Date, b: Date) {
    a.year < b.year || (a.year == b.year && (a.month < b.month || (a.month == b.month && a.day <= b.day)))
  }

  predicate Within(d: Date, range: (Date, Date)) { NotAfter(range.0, d) && NotAfter(d, range.1) }

  /** AddDate(0, n, 0) of a first of the month. */
  function AddMonths(d: Date, n: int): Date
    requires d.year * 12 + d.month + n >= 1
  {
    var months := d.year * 12 + d.month - 1 + n;
    Date(months / 12, months % 12 + 1, d.day)
  }

  /** AddDate(0, 0, -1). */
  function DayBefore(d: Date): Date
    requires d.day > 1 || d.year * 12 + d.month >= 2
  {
    if d.day > 1 then d.(day := d.day - 1)
    else
      var m := AddMonths(d, -1);
      m.(day := DaysIn(m.year, m.month))
  }

  // ---------------------------------------------------------------------------
  // Names
  // ---------------------------------------------------------------------------

  function QuarterOf(month: nat): int { (month - 1) / 3 + 1 }

  function QuarterText(year: nat, quarter: nat): string { Pad(year, 4) + "-Q" + Dec(quarter) }

  function MonthText(year: nat, month: nat): string { Pad(year, 4) + "-" + Pad(month, 2) }

  function QuarterPeriod(d: Date): string
    requires d.month >= 1
  {
    QuarterText(d.year, QuarterOf(d.month))
  }

  function MonthPeriod(d: Date): string { MonthText(d.year, d.month) }

  function PeriodOf(kind: Kind, d: Date): string
    requires d.month >= 1
  {
    match kind case OssUnion => QuarterPeriod(d) case PeriodicSummary => MonthPeriod(d)
  }

  function Take(s: string, n: nat): string { if |s| < n then s else s[..n] }

  /** Scanning with "%4d-Q%d": at most four digits, the separator, digits, and then anything. */
  function ScanQuarter(period: string): Option<(nat, nat)> {
    var year := YearDigits(period);
    var rest := period[|year|..];
    if year == "" || |rest| < 2 || rest[..2] != "-Q" then None
    else
      var quarter := DigitPrefix(rest[2..]);
      if quarter == "" || !(1 <= Value(quarter) <= 4) then None else Some((Value(year), Value(quarter)))
  }

  function YearDigits(period: string): (d: string)
    ensures |d| <= |period| && AllDigits(d)
  {
    DigitPrefixFits(Take(period, 4));
    DigitPrefix(Take(period, 4))
  }

  lemma {:induction false} DigitPrefixFits(s: string)
    ensures |DigitPrefix(s)| <= |s|
  {
    if s != [] && IsDigit(s[0]) { DigitPrefixFits(s[1..]); }
  }

  /** Parsing with the layout "2006-01": exactly four digits, a hyphen, two digits. */
  function ParseMonth(period: string): Option<(nat, nat)> {
    if |period| != 7 || !AllDigits(period[..4]) || period[4] != '-' || !AllDigits(period[5..]) then None
    else
      var month := Value(period[5..]);
      if 1 <= month <= 12 then Some((Value(period[..4]), month)) else None
  }

  // ---------------------------------------------------------------------------
  // Ranges
  // ---------------------------------------------------------------------------

  function QuarterRange(year: nat, quarter: nat): (Date, Date)
    requires 1 <= quarter <= 4
  {
    var start := Date(year, (quarter - 1) * 3 + 1, 1);
    (start, DayBefore(AddMonths(start, 3)))
  }

  function MonthRange(year: nat, month: nat): (Date, Date)
    requires 1 <= month <= 12
  {
    var start := Date(year, month, 1);
    (start, DayBefore(AddMonths(start, 1)))
  }

  function PeriodDateRange(kind: Kind, period: string): Option<(Date, Date)> {
    match kind
    case OssUnion =>
      (match ScanQuarter(period) case None => None case Some((year, quarter)) => Some(QuarterRange(year, quarter)))
    case PeriodicSummary =>
      (match ParseMonth(period) case None => None case Some((year, month)) => Some(MonthRange(year, month)))
  }

  /** The name the code itself gives to a period that it accepts. */
  function CanonicalName(kind: Kind, period: string): string {
    match kind
    case OssUnion =>
      (match ScanQuarter(period) case None => period case Some((year, quarter)) => QuarterText(year, quarter))
    case PeriodicSummary => period
  }

  // ---------------------------------------------------------------------------
  // Completed quarters
  // ---------------------------------------------------------------------------

  /** Quarters numbered from the year 0. */
  function QuarterNumber(d: Date): int { d.year * 4 + (d.month - 1) / 3 }

  function QuarterAt(n: nat): string { QuarterText(n / 4, n % 4 + 1) }

  function StartOfQuarter(d: Date): Date
    requires d.month >= 1
  {
    Date(d.year, (d.month - 1) / 3 * 3 + 1, 1)
  }

  lemma QuarterStep(d: Date, n: nat)
    requires 1 <= d.month <= 12 && d.month % 3 == 1 && QuarterNumber(d) == n && n > 0
    ensures d.year * 12 + d.month >= 4
    ensures var p := AddMonths(d, -3); p.month % 3 == 1 && 1 <= p.month <= 12 && QuarterNumber(p) == n - 1
  {
    var k := (d.month - 1) / 3;
    assert d.month == 3 * k + 1;
    var months := d.year * 12 + d.month - 1 - 3;
    if k > 0 {
      assert months == 12 * d.year + 3 * (k - 1);
      assert months / 12 == d.year && months % 12 == 3 * (k - 1);
    } else {
      assert months == 12 * (d.year - 1) + 9;
      assert months / 12 == d.year - 1 && months % 12 == 9;
    }
  }

  lemma StartNumber(d: Date)
    requires 1 <= d.month <= 12
    ensures var start := StartOfQuarter(d); QuarterNumber(start) == QuarterNumber(d) && start.month % 3 == 1 && 1 <= start.month <= 12
  {
    assert 0 <= (d.month - 1) / 3 <= 3;
  }

  lemma QuarterName(d: Date)
    requires 1 <= d.month <= 12
    ensures QuarterPeriod(d) == QuarterAt(QuarterNumber(d))
  {
    assert 0 <= (d.month - 1) / 3 <= 3;
  }

  /** The last `count` quarters before the one `now` lies in, newest first. */
  method CompletedQuarterPeriods(now: Date, count: nat) returns (periods: seq<string>)
    requires ValidDate(now) && count < QuarterNumber(now)
    ensures |periods| == count
    ensures forall i :: 0 <= i < count ==> periods[i] == QuarterAt(QuarterNumber(now) - 1 - i)
  {
    hide AddMonths, QuarterNumber, QuarterPeriod, QuarterAt, StartOfQuarter;
    periods := [];
    var start := StartOfQuarter(now);
    StartNumber(now);
    QuarterStep(start, QuarterNumber(now));
    var cursor := AddMonths(start, -3);
    while |periods| < count
      invariant |periods| <= count
      invariant 1 <= cursor.month <= 12 && cursor.month % 3 == 1
      invariant QuarterNumber(cursor) == QuarterNumber(now) - 1 - |periods|
      invariant forall i :: 0 <= i < |periods| ==> periods[i] == QuarterAt(QuarterNumber(now) - 1 - i)
    {
      QuarterName(cursor);
      periods := periods + [QuarterPeriod(cursor)];
      QuarterStep(cursor, QuarterNumber(cursor));
      cursor := AddMonths(cursor, -3);
    }
  }
}
