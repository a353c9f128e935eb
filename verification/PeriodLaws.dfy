/** A date lies in the range of a period exactly when that is its own quarter or month. */
module PeriodLaws {
  import opened Grouping
  import opened Text
  import opened Ledger
  import opened Periods

  // ---------------------------------------------------------------------------
  // Printing and parsing
  // ---------------------------------------------------------------------------

  lemma {:induction false} ValueBound(s: string)
    requires AllDigits(s)
    ensures Value(s) < Pow10(|s|)
  {
    if s != [] { ValueBound(s[..|s| - 1]); }
  }

  lemma OneDigit(c: char)
    requires IsDigit(c)
    ensures Dec(DigitValue(c)) == [c]
  {}

  lemma DecAppend(n: nat, c: char)
    requires n > 0 && IsDigit(c)
    ensures Dec(10 * n + DigitValue(c)) == Dec(n) + [c]
  {
    assert (10 * n + DigitValue(c)) / 10 == n;
  }

  lemma ValueSnoc(t: string, c: char)
    requires AllDigits(t) && IsDigit(c)
    ensures AllDigits(t + [c]) && Value(t + [c]) == 10 * Value(t) + DigitValue(c)
  {
    assert (t + [c])[..|t|] == t;
  }

  lemma ZerosSnoc(k: nat, d: string, c: char)
    ensures Zeros(k) + "0" + d == Zeros(k + 1) + d
    ensures Zeros(k) + d + [c] == Zeros(k) + (d + [c])
  {}

  lemma DecOfZero()
    ensures Dec(0) == "0"
  {}

  /** Digits are zeros followed by the decimal form of their value. */
  lemma {:induction false} DecOfValue(s: string) returns (k: nat)
    requires s != [] && AllDigits(s)
    ensures k < |s| && s == Zeros(k) + Dec(Value(s))
  {
    hide Dec, Zeros;
    var t, c := s[..|s| - 1], s[|s| - 1];
    assert s == t + [c];
    OneDigit(c);
    ValueSnoc(t, c);
    DecOfZero();
    if t == [] {
      assert Value(t) == 0;
      k := 0;
      assert Zeros(0) + [c] == [c];
    } else {
      k := DecOfValue(t);
      if Value(t) == 0 {
        ZerosSnoc(k, [c], c);
        k := k + 1;
      } else {
        DecAppend(Value(t), c);
        ZerosSnoc(k, Dec(Value(t)), c);
      }
    }
  }

  lemma PadOfValue(s: string)
    requires s != [] && AllDigits(s)
    ensures Pad(Value(s), |s|) == s
  {
    var k := DecOfValue(s);
    assert Zeros(0) == "";
  }

  lemma FourDigits(year: nat)
    requires year <= 9999
    ensures |Pad(year, 4)| == 4
  {
    assert Pow10(4) == 10000 by { assert Pow10(1) == 10 && Pow10(2) == 100 && Pow10(3) == 1000; }
    PadWidth(year, 4);
  }

  lemma TwoDigits(month: nat)
    requires month <= 99
    ensures |Pad(month, 2)| == 2
  {
    assert Pow10(2) == 100 by { assert Pow10(1) == 10; }
    PadWidth(month, 2);
  }

  lemma AllDigitsPrefix(d: string)
    requires AllDigits(d)
    ensures DigitPrefix(d) == d
  {
    DigitPrefixOfDigits(d, "");
    assert d + "" == d;
  }

  lemma ScanOfQuarterText(year: nat, quarter: nat)
    requires year <= 9999 && 1 <= quarter <= 4
    ensures ScanQuarter(QuarterText(year, quarter)) == Some((year, quarter))
  {
    var name := QuarterText(year, quarter);
    FourDigits(year);
    ValueOfPad(year, 4);
    ValueOfDec(quarter);
    hide DigitPrefix, Pad, Dec, Value;
    assert Take(name, 4) == Pad(year, 4);
    AllDigitsPrefix(Pad(year, 4));
    assert name[4..] == "-Q" + Dec(quarter);
    assert name[4..][..2] == "-Q" && name[4..][2..] == Dec(quarter);
    AllDigitsPrefix(Dec(quarter));
  }

  lemma ParseOfMonthText(year: nat, month: nat)
    requires year <= 9999 && 1 <= month <= 12
    ensures ParseMonth(MonthText(year, month)) == Some((year, month))
  {
    FourDigits(year);
    TwoDigits(month);
    ValueOfPad(year, 4);
    ValueOfPad(month, 2);
    hide Pad, Value;
    var name := MonthText(year, month);
    assert name[..4] == Pad(year, 4) && name[5..] == Pad(month, 2);
  }

  /** A month that parses is written the way the code writes it. */
  lemma MonthTextOfParse(period: string)
    requires ParseMonth(period).Some?
    ensures var (year, month) := ParseMonth(period).value; MonthText(year, month) == period && year <= 9999
  {
    PadOfValue(period[..4]);
    PadOfValue(period[5..]);
    ValueBound(period[..4]);
    assert Pow10(4) == 10000 by { assert Pow10(1) == 10 && Pow10(2) == 100 && Pow10(3) == 1000; }
    assert period == period[..4] + "-" + period[5..];
  }

  lemma ScannedYear(period: string)
    requires ScanQuarter(period).Some?
    ensures ScanQuarter(period).value.0 <= 9999 && 1 <= ScanQuarter(period).value.1 <= 4
  {
    var year := YearDigits(period);
    DigitPrefixFits(Take(period, 4));
    ValueBound(year);
    Pow10Grows(|year|, 4);
    assert Pow10(4) == 10000 by { assert Pow10(1) == 10 && Pow10(2) == 100 && Pow10(3) == 1000; }
  }

  lemma {:induction false} Pow10Grows(a: nat, b: nat)
    requires a <= b
    ensures Pow10(a) <= Pow10(b)
    decreases b
  {
    if a < b { Pow10Grows(a, b - 1); }
  }

  // ---------------------------------------------------------------------------
  // Ranges
  // ---------------------------------------------------------------------------

  lemma QuarterRangeIs(year: nat, quarter: nat)
    requires 1 <= quarter <= 4
    ensures QuarterRange(year, quarter) == (Date(year, 3 * quarter - 2, 1), Date(year, 3 * quarter, DaysIn(year, 3 * quarter)))
  {
    var start := Date(year, (quarter - 1) * 3 + 1, 1);
    var months := year * 12 + start.month - 1 + 3;
    var next := AddMonths(start, 3);
    if quarter < 4 {
      assert months / 12 == year && months % 12 == 3 * quarter;
    } else {
      assert months == (year + 1) * 12;
      assert months / 12 == year + 1 && months % 12 == 0;
    }
    var back := next.year * 12 + next.month - 1 - 1;
    assert back == year * 12 + 3 * quarter - 1;
    assert back / 12 == year && back % 12 == 3 * quarter - 1;
  }

  lemma MonthRangeIs(year: nat, month: nat)
    requires 1 <= month <= 12
    ensures MonthRange(year, month) == (Date(year, month, 1), Date(year, month, DaysIn(year, month)))
  {
    var start := Date(year, month, 1);
    var months := year * 12 + month - 1 + 1;
    var next := AddMonths(start, 1);
    if month < 12 {
      assert months / 12 == year && months % 12 == month;
    } else {
      assert months == (year + 1) * 12;
      assert months / 12 == year + 1 && months % 12 == 0;
    }
    var back := next.year * 12 + next.month - 1 - 1;
    assert back == year * 12 + month - 1;
    assert back / 12 == year && back % 12 == month - 1;
  }

  lemma WithinQuarter(d: Date, year: nat, quarter: nat)
    requires ValidDate(d) && 1 <= quarter <= 4
    ensures Within(d, QuarterRange(year, quarter)) <==> d.year == year && QuarterOf(d.month) == quarter
  {
    hide QuarterRange, DaysIn;
    QuarterRangeIs(year, quarter);
    assert QuarterOf(d.month) == quarter <==> 3 * quarter - 2 <= d.month <= 3 * quarter;
    if d.month == 3 * quarter && d.year == year { assert d.day <= DaysIn(year, 3 * quarter); }
  }

  lemma WithinMonth(d: Date, year: nat, month: nat)
    requires ValidDate(d) && 1 <= month <= 12
    ensures Within(d, MonthRange(year, month)) <==> d.year == year && d.month == month
  {
    hide MonthRange, DaysIn;
    MonthRangeIs(year, month);
  }

  lemma QuarterOfRange(month: nat)
    requires 1 <= month <= 12
    ensures 1 <= QuarterOf(month) <= 4
  {}

  /** The name of a date's period tells the period. */
  lemma QuarterTextInjective(y1: nat, q1: nat, y2: nat, q2: nat)
    requires y1 <= 9999 && y2 <= 9999 && 1 <= q1 <= 4 && 1 <= q2 <= 4
    ensures QuarterText(y1, q1) == QuarterText(y2, q2) <==> y1 == y2 && q1 == q2
  {
    hide ScanQuarter, QuarterText;
    ScanOfQuarterText(y1, q1);
    ScanOfQuarterText(y2, q2);
  }

  lemma MonthTextInjective(y1: nat, m1: nat, y2: nat, m2: nat)
    requires y1 <= 9999 && y2 <= 9999 && 1 <= m1 <= 12 && 1 <= m2 <= 12
    ensures MonthText(y1, m1) == MonthText(y2, m2) <==> y1 == y2 && m1 == m2
  {
    hide ParseMonth, MonthText;
    ParseOfMonthText(y1, m1);
    ParseOfMonthText(y2, m2);
  }

  /** A date lies in the range of an accepted period exactly when that period, in the code's
      own spelling, is the date's quarter or month. */
  lemma InRangeIsOwnPeriod(kind: Kind, period: string, d: Date)
    requires CivilDate(d)
    ensures PeriodDateRange(kind, period).Some? ==>
      (Within(d, PeriodDateRange(kind, period).value) <==> PeriodOf(kind, d) == CanonicalName(kind, period))
  {
    hide ScanQuarter, ParseMonth, QuarterText, MonthText, QuarterRange, MonthRange, Within;
    if PeriodDateRange(kind, period).Some? {
      match kind
      case OssUnion =>
        var (year, quarter) := ScanQuarter(period).value;
        ScannedYear(period);
        QuarterOfRange(d.month);
        WithinQuarter(d, year, quarter);
        QuarterTextInjective(d.year, QuarterOf(d.month), year, quarter);
      case PeriodicSummary =>
        var (year, month) := ParseMonth(period).value;
        MonthTextOfParse(period);
        ParsedMonth(period);
        WithinMonth(d, year, month);
        MonthTextInjective(d.year, d.month, year, month);
    }
  }

  lemma ParsedMonth(period: string)
    requires ParseMonth(period).Some?
    ensures 1 <= ParseMonth(period).value.1 <= 12
  {}

  /** Every date's own period is accepted, and spelled as the code spells it. */
  lemma OwnPeriodIsCanonical(kind: Kind, d: Date)
    requires CivilDate(d)
    ensures PeriodDateRange(kind, PeriodOf(kind, d)).Some?
    ensures CanonicalName(kind, PeriodOf(kind, d)) == PeriodOf(kind, d)
    ensures Within(d, PeriodDateRange(kind, PeriodOf(kind, d)).value)
  {
    hide ScanQuarter, ParseMonth, QuarterText, MonthText, QuarterRange, MonthRange, Within;
    match kind
    case OssUnion =>
      QuarterOfRange(d.month);
      ScanOfQuarterText(d.year, QuarterOf(d.month));
      InRangeIsOwnPeriod(kind, PeriodOf(kind, d), d);
    case PeriodicSummary =>
      ParseOfMonthText(d.year, d.month);
      InRangeIsOwnPeriod(kind, PeriodOf(kind, d), d);
  }

  /** A quarter that is listed as completed ended before today. */
  lemma CompletedQuarterIsOver(now: Date, n: nat)
    requires ValidDate(now) && n < QuarterNumber(now)
    ensures var end := QuarterRange(n / 4, n % 4 + 1).1; NotAfter(end, now) && end != now
  {
    QuarterRangeIs(n / 4, n % 4 + 1);
    var k := (now.month - 1) / 3;
    assert 0 <= k <= 3 && now.month >= 3 * k + 1;
    assert n == 4 * (n / 4) + n % 4;
  }
}
