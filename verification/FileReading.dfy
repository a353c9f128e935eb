/** The two files as their receiver reads them: rows at row ends, fields at semicolons, numbers from
    their digits. */
module FileReading {
  import opened Grouping
  import opened Text
  import opened Ledger
  import opened Journal
  import opened Periods
  import opened PeriodLaws
  import opened Filing
  import Listing
  import opened Render
  import opened RenderLaws

  // ---------------------------------------------------------------------------
  // Numbers
  // ---------------------------------------------------------------------------

  /** An amount with two decimals after a comma, in hundredths. */
  function ReadCents(s: string): Option<int> {
    var parts := Split(s, ',');
    if |parts| == 2 && AllDigits(parts[0]) && AllDigits(parts[1]) && parts[0] != "" && |parts[1]| == 2 then
      Some(100 * Value(parts[0]) + Value(parts[1]))
    else None
  }

  function Negated(n: Option<int>): Option<int> { match n case None => None case Some(x) => Some(-x) }

  function ReadAmount(s: string): Option<int> {
    if s != "" && s[0] == '-' then Negated(ReadCents(s[1..])) else ReadCents(s)
  }

  /** A whole number. */
  function ReadDigits(s: string): Option<int> { if s != "" && AllDigits(s) then Some(Value(s)) else None }

  function ReadWhole(s: string): Option<int> {
    if s != "" && s[0] == '-' then Negated(ReadDigits(s[1..])) else ReadDigits(s)
  }

  lemma CentsRead(a: nat)
    ensures ReadCents(Dec(a / 100) + "," + Pad(a % 100, 2)) == Some(a)
  {
    TwoDigits(a % 100);
    ValueOfPad(a % 100, 2);
    ValueOfDec(a / 100);
    hide Dec, Pad, Value;
    SplitOnce(Dec(a / 100), Pad(a % 100, 2), ',');
  }

  lemma SignedText(n: int, text: string)
    requires text != "" && IsDigit(text[0])
    ensures ReadAmount((if n < 0 then "-" else "") + text) == if n < 0 then Negated(ReadCents(text)) else ReadCents(text)
  {
    hide ReadCents;
    assert ("-" + text)[1..] == text && "" + text == text;
  }

  function Unsigned(n: int): nat { if n < 0 then -n else n }

  lemma Fixed2Text(n: int)
    ensures Fixed2(n, ',') == (if n < 0 then "-" else "") + (Dec(Unsigned(n) / 100) + "," + Pad(Unsigned(n) % 100, 2))
    ensures var text := Dec(Unsigned(n) / 100) + "," + Pad(Unsigned(n) % 100, 2); IsDigit(text[0])
  {
    hide Pad;
    var d, p := Dec(Unsigned(n) / 100), Pad(Unsigned(n) % 100, 2);
    hide Dec;
    assert (d + "," + p)[0] == d[0];
  }

  /** A printed amount is read back exactly. */
  lemma AmountRead(n: int)
    ensures ReadAmount(Fixed2(n, ',')) == Some(n)
  {
    CentsRead(Unsigned(n));
    Fixed2Text(n);
    hide Fixed2, Dec, Pad, ReadCents, ReadAmount;
    SignedText(n, Dec(Unsigned(n) / 100) + "," + Pad(Unsigned(n) % 100, 2));
  }

  lemma WholeRead(n: int)
    ensures ReadWhole(DecInt(n)) == Some(n)
  {
    var a: nat := if n < 0 then -n else n;
    ValueOfDec(a);
    hide Dec, Value;
    assert IsDigit(Dec(a)[0]);
    if n < 0 { assert ("-" + Dec(a))[1..] == Dec(a); }
  }

  // ---------------------------------------------------------------------------
  // Rows and fields
  // ---------------------------------------------------------------------------

  /** Splitting takes the part before the first separator off. */
  lemma {:induction false} SplitCons(a: string, rest: string, c: char)
    requires c !in a
    ensures Split(a + [c] + rest, c) == [a] + Split(rest, c)
  {
    var s := a + [c] + rest;
    if a == [] {
      assert s == [c] + rest && s[1..] == rest;
    } else {
      SplitCons(a[1..], rest, c);
      assert s[1..] == a[1..] + [c] + rest;
      assert a == [a[0]] + a[1..];
    }
  }

  /** The rows of a file, each with its carriage return, and what comes after the last row end. */
  function RowsOf(content: string): seq<string> { Split(content, '\n') }

  function FieldsOf(row: string): seq<string> { Split(row, ';') }

  lemma {:induction false} RowsRead(rows: seq<string>, rest: string)
    requires forall r :: r in rows ==> '\n' !in r
    ensures var lines := RowsOf(Terminated(rows, CRLF) + rest);
      && |lines| == |rows| + |RowsOf(rest)|
      && (forall i :: 0 <= i < |rows| ==> lines[i] == rows[i] + "\r")
      && lines[|rows|..] == RowsOf(rest)
  {
    if rows == [] {
      assert Terminated(rows, CRLF) + rest == rest;
    } else {
      RowsRead(rows[1..], rest);
      var tail := Terminated(rows[1..], CRLF) + rest;
      assert Terminated(rows, CRLF) + rest == (rows[0] + "\r") + ['\n'] + tail;
      assert rows[0] in rows;
      SplitCons(rows[0] + "\r", tail, '\n');
      hide Split;
      var lines := RowsOf(Terminated(rows, CRLF) + rest);
      assert lines == [rows[0] + "\r"] + RowsOf(tail);
      forall i | 0 <= i < |rows| ensures lines[i] == rows[i] + "\r" {
        if i > 0 { assert lines[i] == RowsOf(tail)[i - 1]; }
      }
    }
  }

  // ---------------------------------------------------------------------------
  // The headers
  // ---------------------------------------------------------------------------

  /** No field separator and no row end. */
  predicate OneField(s: string) { ';' !in s && '\n' !in s }

  predicate LegibleReporter(r: Reporter) {
    OneField(r.vatNumber) && OneField(r.name) && OneField(r.phone) && OneField(r.email)
  }

  /** The first two rows of a file, whatever follows. */
  lemma FirstTwoRows(first: string, second: string, rows: seq<string>)
    requires '\n' !in first && '\n' !in second
    ensures var lines := RowsOf(Join([first, second] + rows, CRLF) + CRLF);
      |lines| >= 3 && lines[0] == first + "\r" && lines[1] == second + "\r"
  {
    var header := [first, second];
    JoinTerminated(header + rows, CRLF);
    TerminatedConcat(header, rows, CRLF);
    forall r | r in header ensures '\n' !in r {}
    RowsRead(header, Terminated(rows, CRLF));
  }

  lemma FourFields(a: string, b: string, c: string)
    requires ';' !in a && ';' !in b && ';' !in c
    ensures FieldsOf(a + ";" + b + ";" + c + ";" + "\r") == [a, b, c, "\r"]
  {
    assert a + ";" + b + ";" + c + ";" + "\r" == a + [';'] + (b + [';'] + (c + [';'] + "\r"));
    SplitCons(a, b + [';'] + (c + [';'] + "\r"), ';');
    SplitCons(b, c + [';'] + "\r", ';');
    SplitCons(c, "\r", ';');
    SplitWithout("\r", ';');
  }

  lemma FiveFields(a: string, b: string, c: string, d: string, e: string)
    requires ';' !in a && ';' !in b && ';' !in c && ';' !in d && ';' !in e
    ensures FieldsOf(a + ";" + b + ";" + c + ";" + d + ";" + e) == [a, b, c, d, e]
  {
    assert a + ";" + b + ";" + c + ";" + d + ";" + e == a + [';'] + (b + [';'] + (c + [';'] + (d + [';'] + e)));
    SplitCons(a, b + [';'] + (c + [';'] + (d + [';'] + e)), ';');
    SplitCons(b, c + [';'] + (d + [';'] + e), ';');
    SplitCons(c, d + [';'] + e, ';');
    SplitCons(d, e, ';');
    SplitWithout(e, ';');
  }

  lemma DigitsAreOneField(s: string)
    requires AllDigits(s)
    ensures OneField(s) && '\r' !in s
  {}

  lemma OssHeaderRows(identifier: string, year: nat, quarter: nat, body: seq<string>)
    requires OneField(identifier)
    ensures var lines := RowsOf(Join(OssHeader(identifier, year, quarter) + body, CRLF) + CRLF);
      && |lines| >= 3 && lines[0] == "OSS_001;\r"
      && FieldsOf(lines[1]) == [identifier, Dec(quarter), Pad(year, 4), "\r"]
  {
    var second := identifier + ";" + Dec(quarter) + ";" + Pad(year, 4) + ";";
    DigitsAreOneField(Dec(quarter));
    DigitsAreOneField(Pad(year, 4));
    hide RowsOf, FieldsOf, Join, Pad, Dec;
    FirstTwoRows("OSS_001;", second, body);
    assert OssHeader(identifier, year, quarter) == ["OSS_001;", second];
    FourFields(identifier, Dec(quarter), Pad(year, 4));
  }

  lemma QuarterDigit(month: nat)
    requires 1 <= month <= 12
    ensures 1 <= QuarterOf(month) <= 4
    ensures Dec(QuarterOf(month)) == if month <= 3 then "1" else if month <= 6 then "2" else if month <= 9 then "3" else "4"
  {
    assert Dec(1) == "1" && Dec(2) == "2" && Dec(3) == "3" && Dec(4) == "4";
  }

  /** The second row of the OSS file of any date's quarter: the identifier, the quarter, the year in
      four digits. */
  lemma OssHeaderRead(identifier: string, d: Date, entries: seq<OssEntry>)
    requires CivilDate(d) && OneField(identifier)
    ensures OssFile(identifier, QuarterPeriod(d), entries).Some? ==>
      var lines := RowsOf(OssFile(identifier, QuarterPeriod(d), entries).value);
      var quarter := if d.month <= 3 then "1" else if d.month <= 6 then "2" else if d.month <= 9 then "3" else "4";
      && |lines| >= 3 && lines[0] == "OSS_001;\r"
      && FieldsOf(lines[1]) == [identifier, quarter, Pad(d.year, 4), "\r"]
  {
    QuarterDigit(d.month);
    ScanOfQuarterText(d.year, QuarterOf(d.month));
    WholeFile(identifier, QuarterPeriod(d), entries);
    hide ScanQuarter, OssFile, Body, RowsOf, FieldsOf, Join, Pad, Dec, QuarterText, OssHeader, QuarterOf;
    OssHeaderRows(identifier, d.year, QuarterOf(d.month), Body(entries));
  }

  lemma DigitTellsQuarter(m1: nat, m2: nat)
    requires 1 <= m1 <= 12 && 1 <= m2 <= 12
    requires (if m1 <= 3 then "1" else if m1 <= 6 then "2" else if m1 <= 9 then "3" else "4")
      == if m2 <= 3 then "1" else if m2 <= 6 then "2" else if m2 <= 9 then "3" else "4"
    ensures (m1 - 1) / 3 == (m2 - 1) / 3
  {
    assert "1"[0] != "2"[0] && "1"[0] != "3"[0] && "1"[0] != "4"[0] && "2"[0] != "3"[0] && "2"[0] != "4"[0] && "3"[0] != "4"[0];
  }

  lemma QuarterOfFields(identifier: string, y1: nat, m1: nat, y2: nat, m2: nat, fields: seq<string>)
    requires 1 <= m1 <= 12 && 1 <= m2 <= 12
    requires fields == [identifier, if m1 <= 3 then "1" else if m1 <= 6 then "2" else if m1 <= 9 then "3" else "4", Pad(y1, 4), "\r"]
    requires fields == [identifier, if m2 <= 3 then "1" else if m2 <= 6 then "2" else if m2 <= 9 then "3" else "4", Pad(y2, 4), "\r"]
    ensures y1 == y2 && (m1 - 1) / 3 == (m2 - 1) / 3
  {
    ValueOfPad(y1, 4);
    ValueOfPad(y2, 4);
    hide Pad, Value;
    assert Pad(y1, 4) == fields[2] == Pad(y2, 4);
    DigitTellsQuarter(m1, m2);
  }

  /** A file tells its quarter: whatever it lists, two of different quarters differ in that row. */
  lemma OssFileTellsQuarter(identifier: string, d1: Date, a: seq<OssEntry>, x: string, d2: Date, b: seq<OssEntry>, y: string)
    requires CivilDate(d1) && CivilDate(d2) && OneField(identifier)
    requires OssFile(identifier, QuarterPeriod(d1), a) == Some(x) && OssFile(identifier, QuarterPeriod(d2), b) == Some(y)
    requires |RowsOf(x)| > 1 && |RowsOf(y)| > 1 && RowsOf(x)[1] == RowsOf(y)[1]
    ensures d1.year == d2.year && (d1.month - 1) / 3 == (d2.month - 1) / 3
  {
    OssHeaderRead(identifier, d1, a);
    OssHeaderRead(identifier, d2, b);
    hide OssFile, QuarterPeriod, RowsOf, FieldsOf, Pad, OneField;
    QuarterOfFields(identifier, d1.year, d1.month, d2.year, d2.month, FieldsOf(RowsOf(x)[1]));
  }

  /** The last two digits of a year. */
  lemma YearInCentury(year: nat)
    requires year <= 9999
    ensures |Pad(year, 4)| == 4 && Pad(year, 4)[2..4] == Pad(year % 100, 2)
  {
    FourDigits(year);
    ValueOfPad(year, 4);
    hide Pad, Value;
    var s := Pad(year, 4);
    Halves(s);
    LastTwo(s[..2], s[2], s[3]);
    PadOfValue(s[2..4]);
  }

  lemma Halves(s: string)
    requires |s| == 4
    ensures s == s[..2] + [s[2]] + [s[3]] && s[2..4] == [s[2]] + [s[3]]
  {}

  lemma ValueSplit(s: string, c: char)
    requires AllDigits(s) && IsDigit(c)
    ensures AllDigits(s + [c]) && Value(s + [c]) == 10 * Value(s) + DigitValue(c)
  {
    assert (s + [c])[..|s|] == s;
  }

  lemma LowDigits(v: int, x: nat, y: nat)
    requires x < 10 && y < 10
    ensures (10 * (10 * v + x) + y) % 100 == 10 * x + y
  {
    assert 10 * (10 * v + x) + y == 100 * v + (10 * x + y);
  }

  lemma TwoMore(t: string, a: char, b: char)
    requires AllDigits(t) && IsDigit(a) && IsDigit(b)
    ensures AllDigits(t + [a] + [b]) && Value(t + [a] + [b]) == 10 * (10 * Value(t) + DigitValue(a)) + DigitValue(b)
  {
    ValueSplit(t, a);
    hide Value;
    ValueSplit(t + [a], b);
  }

  lemma NoDigits()
    ensures Value("") == 0
  {}

  lemma LastTwo(t: string, a: char, b: char)
    requires AllDigits(t) && IsDigit(a) && IsDigit(b)
    ensures AllDigits(t + [a] + [b]) && AllDigits([a] + [b])
    ensures Value([a] + [b]) == Value(t + [a] + [b]) % 100
  {
    TwoMore(t, a, b);
    TwoMore("", a, b);
    NoDigits();
    assert "" + [a] + [b] == [a] + [b];
    LowDigits(Value(t), DigitValue(a), DigitValue(b));
    hide Value, DigitValue;
  }

  lemma PeriodCode(year: nat, month: nat)
    requires year <= 9999 && 1 <= month <= 12
    ensures PsPeriodCode(MonthText(year, month)) == Pad(year % 100, 2) + Pad(month, 2)
  {
    YearInCentury(year);
    TwoDigits(month);
    hide Pad;
    var text := MonthText(year, month);
    assert text[2..4] == Pad(year, 4)[2..4] && text[5..7] == Pad(month, 2);
  }

  lemma PsHeaderRows(r: Reporter, period: string, rows: seq<string>)
    requires LegibleReporter(r) && OneField(PsPeriodCode(period))
    ensures var lines := RowsOf(Join(PsHeader(r, period) + rows, CRLF) + CRLF);
      && |lines| >= 3 && lines[0] == "SKV574008;\r"
      && FieldsOf(lines[1]) == [r.vatNumber, PsPeriodCode(period), r.name, r.phone, r.email + "\r"]
  {
    hide RowsOf, FieldsOf, Join, PsPeriodCode;
    var code := PsPeriodCode(period);
    var second := r.vatNumber + ";" + code + ";" + r.name + ";" + r.phone + ";" + r.email;
    FirstTwoRows("SKV574008;", second, rows);
    assert PsHeader(r, period) == ["SKV574008;", second];
    FiveFields(r.vatNumber, code, r.name, r.phone, r.email + "\r");
    assert second + "\r" == r.vatNumber + ";" + code + ";" + r.name + ";" + r.phone + ";" + (r.email + "\r");
  }

  /** The second row of the summary of any month: the reporter's number, the year's last two digits
      and the month's two, and who answers for it. */
  lemma PsHeaderRead(r: Reporter, year: nat, month: nat, entries: seq<PsEntry>)
    requires year <= 9999 && 1 <= month <= 12
    requires LegibleReporter(r)
    ensures PsFile(r, MonthText(year, month), entries).Some? ==>
      var lines := RowsOf(PsFile(r, MonthText(year, month), entries).value);
      && |lines| >= 3 && lines[0] == "SKV574008;\r"
      && FieldsOf(lines[1]) == [r.vatNumber, Pad(year % 100, 2) + Pad(month, 2), r.name, r.phone, r.email + "\r"]
  {
    PeriodCode(year, month);
    DigitsAreOneField(Pad(year % 100, 2));
    DigitsAreOneField(Pad(month, 2));
    var period := MonthText(year, month);
    hide Pad, MonthText, PsPeriodCode, BuyerLines, RowsOf, FieldsOf, PsHeader, Join;
    assert OneField(PsPeriodCode(period));
    PsHeaderRows(r, period, MapSeq(PrintBuyer, BuyerLines(entries)));
  }

  lemma TwoDigitParts(a: string, b: string, c: string, d: string)
    requires |a| == 2 && |c| == 2 && a + b == c + d
    ensures a == c && b == d
  {
    assert (a + b)[..2] == a && (c + d)[..2] == c && (a + b)[2..] == b && (c + d)[2..] == d;
  }

  /** A summary tells its month: whoever reports and whatever it lists, two of different months of one
      century differ in that row. */
  lemma PsFileTellsMonth(r1: Reporter, y1: nat, m1: nat, a: seq<PsEntry>, x: string,
                         r2: Reporter, y2: nat, m2: nat, b: seq<PsEntry>, y: string)
    requires y1 <= 9999 && 1 <= m1 <= 12 && y2 <= 9999 && 1 <= m2 <= 12 && y1 / 100 == y2 / 100
    requires LegibleReporter(r1) && LegibleReporter(r2)
    requires PsFile(r1, MonthText(y1, m1), a) == Some(x) && PsFile(r2, MonthText(y2, m2), b) == Some(y)
    requires |RowsOf(x)| > 1 && |RowsOf(y)| > 1 && RowsOf(x)[1] == RowsOf(y)[1]
    ensures y1 == y2 && m1 == m2
  {
    PsHeaderRead(r1, y1, m1, a);
    PsHeaderRead(r2, y2, m2, b);
    TwoDigits(y1 % 100);
    TwoDigits(y2 % 100);
    ValueOfPad(y1 % 100, 2);
    ValueOfPad(y2 % 100, 2);
    ValueOfPad(m1, 2);
    ValueOfPad(m2, 2);
    hide PsFile, RowsOf, FieldsOf, Pad, Value, MonthText, OneField;
    var f1, f2 := FieldsOf(RowsOf(x)[1]), FieldsOf(RowsOf(y)[1]);
    assert f1[1] == f2[1];
    TwoDigitParts(Pad(y1 % 100, 2), Pad(m1, 2), Pad(y2 % 100, 2), Pad(m2, 2));
  }

  // ---------------------------------------------------------------------------
  // The order of the rows
  // ---------------------------------------------------------------------------

  /** Byte order: the shorter of two texts of which one continues the other, or the one with the
      smaller character where they first differ. */
  ghost predicate Before(a: string, b: string) {
    exists n: nat :: n <= |a| && n < |b| && a[..n] == b[..n] && (n == |a| || a[n] < b[n])
  }

  lemma {:induction false} ByteOrder(a: string, b: string)
    ensures StringLeq(a, b) <==> a == b || Before(a, b)
  {
    hide Before;
    if a == [] {
      NothingBefore(b);
    } else if b == [] {
      NotBeforeNothing(a);
    } else if a[0] == b[0] {
      ByteOrder(a[1..], b[1..]);
      SameHead(a, b);
      assert a == [a[0]] + a[1..] && b == [b[0]] + b[1..];
    } else {
      FirstDiffers(a, b);
    }
  }

  lemma NothingBefore(b: string)
    ensures Before("", b) <==> b != ""
  {
    if b != "" { assert ""[..0] == b[..0]; }
  }

  lemma NotBeforeNothing(a: string)
    ensures !Before(a, "")
  {}

  lemma SameHead(a: string, b: string)
    requires a != [] && b != [] && a[0] == b[0]
    ensures Before(a, b) <==> Before(a[1..], b[1..])
  {
    if Before(a[1..], b[1..]) {
      var n: nat :| n <= |a[1..]| && n < |b[1..]| && a[1..][..n] == b[1..][..n] && (n == |a[1..]| || a[1..][n] < b[1..][n]);
      Shifted(a, b, n);
    }
    if Before(a, b) {
      var n: nat :| n <= |a| && n < |b| && a[..n] == b[..n] && (n == |a| || a[n] < b[n]);
      assert n > 0;
      assert a[1..][..n - 1] == a[..n][1..] && b[1..][..n - 1] == b[..n][1..];
      assert Before(a[1..], b[1..]);
    }
  }

  lemma FirstDiffers(a: string, b: string)
    requires a != [] && b != [] && a[0] != b[0]
    ensures Before(a, b) <==> a[0] < b[0]
  {
    assert a[..0] == b[..0];
    forall n: nat | 0 < n <= |a| && n < |b| ensures a[..n] != b[..n] {
      assert a[..n][0] == a[0] && b[..n][0] == b[0];
    }
  }

  lemma Shifted(a: string, b: string, n: nat)
    requires a != [] && b != [] && a[0] == b[0] && n <= |a[1..]| && n < |b[1..]|
    requires a[1..][..n] == b[1..][..n] && (n == |a[1..]| || a[1..][n] < b[1..][n])
    ensures Before(a, b)
  {
    assert a[..n + 1] == [a[0]] + a[1..][..n] && b[..n + 1] == [b[0]] + b[1..][..n];
    assert n + 1 <= |a| && n + 1 < |b| && a[..n + 1] == b[..n + 1] && (n + 1 == |a| || a[n + 1] < b[n + 1]);
  }

  /** By origin, then by country, then by rate, then by sale type. */
  ghost predicate KeyBefore(a: OssKey, b: OssKey) {
    Before(a.origin, b.origin)
    || (a.origin == b.origin
        && (Before(a.country, b.country)
            || (a.country == b.country && (a.rate < b.rate || (a.rate == b.rate && Before(a.saleType, b.saleType))))))
  }

  lemma KeyOrder(a: OssKey, b: OssKey)
    ensures OssLeq(a, b) <==> a == b || KeyBefore(a, b)
  {
    ByteOrder(a.origin, b.origin);
    ByteOrder(a.country, b.country);
    ByteOrder(a.saleType, b.saleType);
    NotBeforeItself(a.origin);
    NotBeforeItself(a.country);
    hide StringLeq, Before;
  }

  lemma NotBeforeItself(a: string)
    ensures !Before(a, a)
  {}

  // ---------------------------------------------------------------------------
  // The rows of the OSS file
  // ---------------------------------------------------------------------------

  /** What the ready entries that correct nothing add up to under a key. */
  function TaxableOn(entries: seq<OssEntry>, k: OssKey): int {
    if entries == [] then 0
    else
      var e := entries[|entries| - 1];
      TaxableOn(entries[..|entries| - 1], k)
      + if e.state == Ready && e.correctionTarget == None && e.origin == k.origin && e.country == k.country && e.rate == k.rate
           && e.saleType == k.saleType then e.taxable else 0
  }

  function VatOn(entries: seq<OssEntry>, k: OssKey): int {
    if entries == [] then 0
    else
      var e := entries[|entries| - 1];
      VatOn(entries[..|entries| - 1], k)
      + if e.state == Ready && e.correctionTarget == None && e.origin == k.origin && e.country == k.country && e.rate == k.rate
           && e.saleType == k.saleType then e.vat else 0
  }

  /** What the ready entries correct in the VAT of an earlier quarter, for one country. */
  function CorrectedOn(entries: seq<OssEntry>, target: string, country: string): int {
    if entries == [] then 0
    else
      var e := entries[|entries| - 1];
      CorrectedOn(entries[..|entries| - 1], target, country)
      + if e.state == Ready && e.correctionTarget == Some(target) && e.country == country then e.vat else 0
  }

  lemma {:induction false} TotalsRead(entries: seq<OssEntry>, k: OssKey)
    ensures Total(Taxables(entries), k) == TaxableOn(entries, k) && Total(Vats(entries), k) == VatOn(entries, k)
  {
    if entries != [] {
      var front, e := entries[..|entries| - 1], entries[|entries| - 1];
      TotalsRead(front, k);
      if OnMainRow(e) {
        TotalSnoc(Taxables(front), Keyed(KeyOf(e), e.taxable), k);
        TotalSnoc(Vats(front), Keyed(KeyOf(e), e.vat), k);
      }
    }
  }

  lemma {:induction false} CorrectionsRead(entries: seq<OssEntry>, k: CorrectionKey)
    ensures Total(Corrections(entries), k) == CorrectedOn(entries, k.target, k.country)
  {
    if entries != [] {
      var front, e := entries[..|entries| - 1], entries[|entries| - 1];
      CorrectionsRead(front, k);
      if OnCorrectionRow(e) { TotalSnoc(Corrections(front), Keyed(CorrectionKey(e.correctionTarget.value, e.country), e.vat), k); }
    }
  }

  datatype OssRow = OssRow(key: OssKey, taxable: int, vat: int)

  function ReadOssRow(row: string): Option<OssRow> {
    var f := FieldsOf(row);
    if |f| == 7 && f[6] == "\r" && ReadAmount(f[2]).Some? && ReadAmount(f[3]).Some? && ReadAmount(f[4]).Some? then
      Some(OssRow(OssKey(f[0], f[1], ReadAmount(f[2]).value, f[5]), ReadAmount(f[3]).value, ReadAmount(f[4]).value))
    else None
  }

  lemma {:induction false} TerminatedFields(parts: seq<string>, rest: string)
    requires forall p :: p in parts ==> ';' !in p
    ensures FieldsOf(Terminated(parts, ";") + rest) == parts + FieldsOf(rest)
  {
    hide Split;
    if parts == [] {
      assert Terminated(parts, ";") + rest == rest;
    } else {
      var first, others := parts[0], parts[1..];
      var tail := Terminated(others, ";") + rest;
      TerminatedFields(others, rest);
      assert Terminated(parts, ";") + rest == first + [';'] + tail;
      assert first in parts;
      SplitCons(first, tail, ';');
      assert parts == [first] + others;
    }
  }

  lemma RowOfFields(row: string, f: seq<string>, rate: int, taxable: int, vat: int)
    requires |f| == 6 && FieldsOf(row) == f + ["\r"]
    requires ReadAmount(f[2]) == Some(rate) && ReadAmount(f[3]) == Some(taxable) && ReadAmount(f[4]) == Some(vat)
    ensures ReadOssRow(row) == Some(OssRow(OssKey(f[0], f[1], rate, f[5]), taxable, vat))
  {
    hide FieldsOf, ReadAmount;
  }

  lemma FieldsAreClean(l: Listing.Line<OssKey, Amounts>)
    requires CleanKey(l.key)
    ensures forall p :: p in LineFields(l) ==> ';' !in p
  {
    NoSeparators(l.key.rate, ','); NoSeparators(l.value.taxable, ','); NoSeparators(l.value.vat, ',');
    hide Fixed2;
  }

  lemma ReturnAlone()
    ensures FieldsOf("\r") == ["\r"]
  {
    SplitWithout("\r", ';');
  }

  lemma LineRead(l: Listing.Line<OssKey, Amounts>)
    requires CleanKey(l.key)
    ensures ReadOssRow(PrintLine(l) + "\r") == Some(OssRow(l.key, l.value.taxable, l.value.vat))
  {
    hide FieldsOf, PrintLine, Fixed2, Terminated, ReadAmount, ReadOssRow, CleanKey;
    PrintLineIsRecord(l);
    FieldsAreClean(l);
    ReturnAlone();
    TerminatedFields(LineFields(l), "\r");
    AmountRead(l.key.rate); AmountRead(l.value.taxable); AmountRead(l.value.vat);
    RowOfFields(PrintLine(l) + "\r", LineFields(l), l.key.rate, l.value.taxable, l.value.vat);
  }

  /** No separator of any kind. */
  predicate OneLine(s: string) { ';' !in s && '\r' !in s && '\n' !in s }

  /** The fields of the ready entries hold no separators, and their correction targets are quarters as
      the code names them. */
  predicate Legible(entries: seq<OssEntry>) {
    forall e :: e in entries && e.state == Ready ==>
      && OneLine(e.origin) && OneLine(e.country) && OneLine(e.saleType)
      && (e.correctionTarget.Some? ==> CanonicalQuarter(e.correctionTarget.value))
  }

  lemma LegibleIsClean(entries: seq<OssEntry>)
    requires Legible(entries)
    ensures CleanEntries(entries)
  {
    hide CanonicalQuarter;
  }

  lemma MainKeyFrom(entries: seq<OssEntry>, i: nat) returns (e: OssEntry)
    requires i < |MainLines(entries)|
    ensures e in entries && e.state == Ready && KeyOf(e) == MainLines(entries)[i].key
  {
    hide Collect, Listing.Lines, SortedKeys;
    var keys, lines := SortedKeys(Taxables(entries), OssLeq), MainLines(entries);
    MainLinesCover(entries);
    SortedKeysListKeys(Taxables(entries), OssLeq);
    Listing.LinesFaithful(keys, AmountsAt(Taxables(entries), Vats(entries)), Amounts(0, 0), OssLeq);
    assert Listing.KeysOf(lines)[i] in Listing.KeysOf(lines);
    assert lines[i].key in ToSet(keys);
    var x :| x in Taxables(entries) && x.key == lines[i].key;
    e := CollectedFrom(TaxableOf, entries, x);
  }

  lemma CorrectionKeyFrom(entries: seq<OssEntry>, i: nat) returns (e: OssEntry)
    requires i < |CorrectionLines(entries)|
    ensures e in entries && e.state == Ready && e.country == CorrectionLines(entries)[i].key.country
    ensures e.correctionTarget == Some(CorrectionLines(entries)[i].key.target)
  {
    hide Collect, Listing.Lines, SortedKeys;
    var keys, lines := SortedKeys(Corrections(entries), CorrectionLeq), CorrectionLines(entries);
    CorrectionLinesCover(entries);
    SortedKeysListKeys(Corrections(entries), CorrectionLeq);
    Listing.LinesFaithful(keys, TotalAt(Corrections(entries)), 0, CorrectionLeq);
    assert Listing.KeysOf(lines)[i] in Listing.KeysOf(lines);
    assert lines[i].key in ToSet(keys);
    var x :| x in Corrections(entries) && x.key == lines[i].key;
    e := CollectedFrom(CorrectionOf, entries, x);
  }

  lemma AmountIsOneLine(n: int)
    ensures OneLine(Fixed2(n, ','))
  {
    NoSeparators(n, ',');
    if '\n' in Fixed2(n, ',') { Fixed2Chars(n, ',', '\n'); }
  }

  lemma LineHasNoEnd(l: Listing.Line<OssKey, Amounts>)
    requires OneLine(l.key.origin) && OneLine(l.key.country) && OneLine(l.key.saleType)
    ensures '\n' !in PrintLine(l)
  {
    AmountIsOneLine(l.key.rate); AmountIsOneLine(l.value.taxable); AmountIsOneLine(l.value.vat);
    hide Fixed2;
  }

  lemma CompactHasNoEnd(target: string)
    requires CanonicalQuarter(target)
    ensures OneLine(CompactQuarterPeriod(target))
    ensures |target| > 5 && CompactQuarterPeriod(target) == target[..4] + target[5..]
  {
    var (year, quarter) := ScanQuarter(target).value;
    ScannedYear(target);
    FourDigits(year);
    DigitsAreOneField(Pad(year, 4));
    DigitsAreOneField(Dec(quarter));
    hide ScanQuarter, Pad, Dec, AllDigits;
    assert target == Pad(year, 4) + "-Q" + Dec(quarter);
    assert target[..4] == Pad(year, 4) && target[5..] == "Q" + Dec(quarter);
    assert Pad(year, 4) + "Q" + Dec(quarter) == Pad(year, 4) + ("Q" + Dec(quarter));
  }

  lemma CorrectionHasNoEnd(l: Listing.Line<CorrectionKey, int>)
    requires CanonicalQuarter(l.key.target) && OneLine(l.key.country)
    ensures '\n' !in PrintCorrection(l)
  {
    CompactHasNoEnd(l.key.target);
    AmountIsOneLine(l.value);
    hide Fixed2, CompactQuarterPeriod, CanonicalQuarter;
  }

  lemma MainHasNoEnds(entries: seq<OssEntry>)
    requires Legible(entries)
    ensures forall r :: r in MainPart(entries) ==> '\n' !in r
  {
    hide PrintLine, MainLines, CanonicalQuarter;
    var rows := MainPart(entries);
    forall i | 0 <= i < |rows| ensures '\n' !in rows[i] {
      var e := MainKeyFrom(entries, i);
      LineHasNoEnd(MainLines(entries)[i]);
    }
  }

  lemma CorrectionsHaveNoEnds(entries: seq<OssEntry>)
    requires Legible(entries)
    ensures forall r :: r in CorrectionRows(entries) ==> '\n' !in r
  {
    hide PrintCorrection, CorrectionLines, CanonicalQuarter, Collect;
    var rows := MapSeq(PrintCorrection, CorrectionLines(entries));
    forall i | 0 <= i < |rows| ensures '\n' !in rows[i] {
      var e := CorrectionKeyFrom(entries, i);
      CorrectionHasNoEnd(CorrectionLines(entries)[i]);
    }
    assert '\n' !in "CORRECTIONS";
  }

  /** The rows of a file after its header. */
  lemma BodyRead(identifier: string, d: Date, entries: seq<OssEntry>, x: string)
    requires CivilDate(d) && OneField(identifier) && Legible(entries)
    requires OssFile(identifier, QuarterPeriod(d), entries) == Some(x)
    ensures var lines, body := RowsOf(x), Body(entries);
      && |lines| == |body| + 3 && lines[|body| + 2] == ""
      && forall i :: 0 <= i < |body| ==> lines[i + 2] == body[i] + "\r"
  {
    var year, q := d.year, QuarterOf(d.month);
    QuarterDigit(d.month);
    ScanOfQuarterText(year, q);
    WholeFile(identifier, QuarterPeriod(d), entries);
    MainHasNoEnds(entries);
    CorrectionsHaveNoEnds(entries);
    hide ScanQuarter, OssFile, MainPart, CorrectionRows, Legible, QuarterText, QuarterOf, Split, Terminated, Join;
    var rows := OssHeader(identifier, year, q) + Body(entries);
    HeaderHasNoEnds(identifier, year, q);
    hide OssHeader;
    forall r | r in rows ensures '\n' !in r {}
    JoinTerminated(rows, CRLF);
    RowsRead(rows, "");
    NothingLeft();
    assert Terminated(rows, CRLF) + "" == Terminated(rows, CRLF);
    forall i | 0 <= i < |Body(entries)| ensures RowsOf(x)[i + 2] == Body(entries)[i] + "\r" { assert rows[i + 2] == Body(entries)[i]; }
  }

  lemma NothingLeft()
    ensures RowsOf("") == [""]
  {}

  lemma HeaderHasNoEnds(identifier: string, year: nat, quarter: nat)
    requires OneField(identifier)
    ensures |OssHeader(identifier, year, quarter)| == 2
    ensures forall r :: r in OssHeader(identifier, year, quarter) ==> '\n' !in r
  {
    DigitsAreOneField(Dec(quarter));
    DigitsAreOneField(Pad(year, 4));
  }

  /** The main rows: one per key with amounts that are not both zero, in order. */
  lemma MainRowsMean(entries: seq<OssEntry>)
    ensures var lines := MainLines(entries);
      && (forall i :: 0 <= i < |lines| ==>
          && lines[i].value == Amounts(TaxableOn(entries, lines[i].key), VatOn(entries, lines[i].key))
          && (lines[i].value.taxable != 0 || lines[i].value.vat != 0))
      && (forall k :: TaxableOn(entries, k) != 0 || VatOn(entries, k) != 0 ==> exists i :: 0 <= i < |lines| && lines[i].key == k)
      && (forall i, j :: 0 <= i < j < |lines| ==> KeyBefore(lines[i].key, lines[j].key))
  {
    hide Collect, Listing.Lines, SortedKeys, Total, OssLeq, KeyBefore, TaxableOn, VatOn;
    var keys, lines, value := SortedKeys(Taxables(entries), OssLeq), MainLines(entries), AmountsAt(Taxables(entries), Vats(entries));
    MainLinesCover(entries);
    Listing.LinesFaithful(keys, value, Amounts(0, 0), OssLeq);
    forall k ensures value(k) == Amounts(TaxableOn(entries, k), VatOn(entries, k)) { TotalsRead(entries, k); }
    forall i | 0 <= i < |lines| ensures value(lines[i].key) != Amounts(0, 0) { assert Listing.KeysOf(lines)[i] in Listing.KeysOf(lines); }
    forall k | TaxableOn(entries, k) != 0 || VatOn(entries, k) != 0 ensures exists i :: 0 <= i < |lines| && lines[i].key == k {
      assert value(k) != Amounts(0, 0) && k in keys && k in Listing.KeysOf(lines);
      var i :| 0 <= i < |lines| && Listing.KeysOf(lines)[i] == k;
    }
    forall i, j | 0 <= i < j < |lines| ensures KeyBefore(lines[i].key, lines[j].key) {
      KeyOrder(lines[i].key, lines[j].key);
      assert Listing.KeysOf(lines)[i] != Listing.KeysOf(lines)[j];
    }
  }

  /** By target, then by country. */
  ghost predicate TargetBefore(a: CorrectionKey, b: CorrectionKey) {
    Before(a.target, b.target) || (a.target == b.target && Before(a.country, b.country))
  }

  lemma TargetOrder(a: CorrectionKey, b: CorrectionKey)
    ensures CorrectionLeq(a, b) <==> a == b || TargetBefore(a, b)
  {
    ByteOrder(a.target, b.target);
    ByteOrder(a.country, b.country);
    NotBeforeItself(a.target);
    hide StringLeq, Before;
  }

  lemma CorrectionRowsMean(entries: seq<OssEntry>)
    ensures var lines := CorrectionLines(entries);
      && (forall i :: 0 <= i < |lines| ==>
          lines[i].value == CorrectedOn(entries, lines[i].key.target, lines[i].key.country) && lines[i].value != 0)
      && (forall k: CorrectionKey :: CorrectedOn(entries, k.target, k.country) != 0 ==>
          exists i :: 0 <= i < |lines| && lines[i].key == k)
      && (forall i, j :: 0 <= i < j < |lines| ==> TargetBefore(lines[i].key, lines[j].key))
  {
    hide Collect, Listing.Lines, SortedKeys, Total, CorrectionLeq, TargetBefore, CorrectedOn;
    var keys, lines, value := SortedKeys(Corrections(entries), CorrectionLeq), CorrectionLines(entries), TotalAt(Corrections(entries));
    CorrectionLinesCover(entries);
    Listing.LinesFaithful(keys, value, 0, CorrectionLeq);
    forall k: CorrectionKey ensures value(k) == CorrectedOn(entries, k.target, k.country) { CorrectionsRead(entries, k); }
    forall i | 0 <= i < |lines| ensures value(lines[i].key) != 0 { assert Listing.KeysOf(lines)[i] in Listing.KeysOf(lines); }
    forall k: CorrectionKey | CorrectedOn(entries, k.target, k.country) != 0 ensures exists i :: 0 <= i < |lines| && lines[i].key == k {
      assert value(k) != 0 && k in keys && k in Listing.KeysOf(lines);
      var i :| 0 <= i < |lines| && Listing.KeysOf(lines)[i] == k;
    }
    forall i, j | 0 <= i < j < |lines| ensures TargetBefore(lines[i].key, lines[j].key) {
      TargetOrder(lines[i].key, lines[j].key);
      assert Listing.KeysOf(lines)[i] != Listing.KeysOf(lines)[j];
    }
  }

  datatype CorrectionRow = CorrectionRow(quarter: string, country: string, vat: int)

  function ReadCorrection(row: string): Option<CorrectionRow> {
    var f := FieldsOf(row);
    if |f| == 4 && f[3] == "\r" && ReadAmount(f[2]).Some? then Some(CorrectionRow(f[0], f[1], ReadAmount(f[2]).value)) else None
  }

  lemma CorrectionRead(l: Listing.Line<CorrectionKey, int>)
    requires CanonicalQuarter(l.key.target) && OneLine(l.key.country)
    ensures |l.key.target| > 5
    ensures ReadCorrection(PrintCorrection(l) + "\r")
      == Some(CorrectionRow(l.key.target[..4] + l.key.target[5..], l.key.country, l.value))
  {
    CompactHasNoEnd(l.key.target);
    AmountIsOneLine(l.value);
    AmountRead(l.value);
    hide Fixed2, CompactQuarterPeriod, CanonicalQuarter, FieldsOf, ReadAmount;
    FourFields(CompactQuarterPeriod(l.key.target), l.key.country, Fixed2(l.value, ','));
  }

  lemma {:induction false} NoCorrectionEntries(entries: seq<OssEntry>)
    ensures Corrections(entries) == [] <==> forall e :: e in entries && e.state == Ready ==> e.correctionTarget == None
  {
    if entries != [] {
      var front, e := entries[..|entries| - 1], entries[|entries| - 1];
      NoCorrectionEntries(front);
      assert entries == front + [e];
    }
  }

  function RowOf(l: Listing.Line<OssKey, Amounts>): OssRow { OssRow(l.key, l.value.taxable, l.value.vat) }

  lemma MainRowsRead(entries: seq<OssEntry>)
    requires Legible(entries)
    ensures forall i :: 0 <= i < |MainLines(entries)| ==> ReadOssRow(PrintLine(MainLines(entries)[i]) + "\r") == Some(RowOf(MainLines(entries)[i]))
  {
    LegibleIsClean(entries);
    MainLinesClean(entries);
    hide MainLines, PrintLine, ReadOssRow, CleanKey, Legible;
    forall i | 0 <= i < |MainLines(entries)|
      ensures ReadOssRow(PrintLine(MainLines(entries)[i]) + "\r") == Some(RowOf(MainLines(entries)[i]))
    {
      LineRead(MainLines(entries)[i]);
    }
  }

  predicate Corrects(entries: seq<OssEntry>) { exists e :: e in entries && e.state == Ready && e.correctionTarget.Some? }

  lemma BodyOf(entries: seq<OssEntry>)
    ensures var main, rest := MapSeq(PrintLine, MainLines(entries)), MapSeq(PrintCorrection, CorrectionLines(entries));
      Body(entries) == if Corrects(entries) then main + (["CORRECTIONS"] + rest) else main
    ensures !Corrects(entries) ==> CorrectionLines(entries) == []
  {
    NoCorrectionEntries(entries);
    hide PrintLine, PrintCorrection, MainLines, CorrectionLines, Collect;
    if !Corrects(entries) {
      NoCorrections(entries);
      assert MapSeq(PrintLine, MainLines(entries)) + [] == MapSeq(PrintLine, MainLines(entries));
    }
  }

  /** The rows after the header: some rows, and if there is a second part its mark and its rows. */
  predicate LaidOut(lines: seq<string>, main: seq<string>, marked: bool, rest: seq<string>) {
    var n := |main| + 2;
    && |lines| == n + (if marked then |rest| + 2 else 1) && lines[|lines| - 1] == ""
    && (forall i :: 0 <= i < |main| ==> lines[i + 2] == main[i] + "\r")
    && (marked ==> lines[n] == "CORRECTIONS" + "\r" && forall i :: 0 <= i < |rest| ==> lines[n + 1 + i] == rest[i] + "\r")
  }

  lemma Placed(lines: seq<string>, body: seq<string>, main: seq<string>, marked: bool, rest: seq<string>)
    requires |lines| == |body| + 3 && lines[|body| + 2] == "" && forall i :: 0 <= i < |body| ==> lines[i + 2] == body[i] + "\r"
    requires body == if marked then main + (["CORRECTIONS"] + rest) else main
    ensures LaidOut(lines, main, marked, rest)
  {
    forall i | 0 <= i < |main| ensures lines[i + 2] == main[i] + "\r" { assert body[i] == main[i]; }
    if marked {
      forall i | 0 <= i < |rest| ensures lines[|main| + 2 + 1 + i] == rest[i] + "\r" {
        var k := |main| + 1 + i;
        assert body[k] == rest[i] && lines[k + 2] == body[k] + "\r";
      }
      assert body[|main|] == "CORRECTIONS";
    }
  }

  lemma LinesOfFile(identifier: string, d: Date, entries: seq<OssEntry>, x: string)
    requires CivilDate(d) && OneField(identifier) && Legible(entries)
    requires OssFile(identifier, QuarterPeriod(d), entries) == Some(x)
    ensures LaidOut(RowsOf(x), MapSeq(PrintLine, MainLines(entries)), Corrects(entries), MapSeq(PrintCorrection, CorrectionLines(entries)))
    ensures !Corrects(entries) ==> CorrectionLines(entries) == []
  {
    BodyRead(identifier, d, entries, x);
    BodyOf(entries);
    hide OssFile, RowsOf, PrintLine, PrintCorrection, MainLines, CorrectionLines, Legible, CivilDate, QuarterPeriod, OneField, Corrects,
         Body, LaidOut, MapSeq;
    Placed(RowsOf(x), Body(entries), MapSeq(PrintLine, MainLines(entries)), Corrects(entries),
           MapSeq(PrintCorrection, CorrectionLines(entries)));
  }

  /** The OSS file of any quarter as its receiver reads it. After the header comes one row per origin,
      country, rate and sale type for which the ready entries that correct nothing do not add up to
      zero in both amounts, with exactly those sums, in order; then the marker of the corrections, if
      any ready entry is one, or else nothing. */
  lemma OssFileRead(identifier: string, d: Date, entries: seq<OssEntry>, x: string) returns (rows: seq<OssRow>)
    requires CivilDate(d) && OneField(identifier) && Legible(entries)
    requires OssFile(identifier, QuarterPeriod(d), entries) == Some(x)
    ensures var lines, n := RowsOf(x), |rows| + 2;
      && |lines| > n && (if Corrects(entries) then lines[n] == "CORRECTIONS\r" else lines[n] == "" && |lines| == n + 1)
      && forall i :: 0 <= i < |rows| ==> ReadOssRow(lines[i + 2]) == Some(rows[i])
    ensures forall i :: 0 <= i < |rows| ==>
      && rows[i].taxable == TaxableOn(entries, rows[i].key) && rows[i].vat == VatOn(entries, rows[i].key)
      && (rows[i].taxable != 0 || rows[i].vat != 0)
    ensures forall k :: TaxableOn(entries, k) != 0 || VatOn(entries, k) != 0 ==> exists i :: 0 <= i < |rows| && rows[i].key == k
    ensures forall i, j :: 0 <= i < j < |rows| ==> KeyBefore(rows[i].key, rows[j].key)
  {
    hide TaxableOn, VatOn, KeyBefore, OssFile, RowsOf, ReadOssRow, PrintLine, PrintCorrection, MainLines, CorrectionLines,
         Legible, CivilDate, QuarterPeriod, OneField, Corrects;
    MainRowsMean(entries);
    MainRowsRead(entries);
    LinesOfFile(identifier, d, entries, x);
    assert "CORRECTIONS" + "\r" == "CORRECTIONS\r";
    var lines := MainLines(entries);
    rows := MapSeq(RowOf, lines);
    forall k | TaxableOn(entries, k) != 0 || VatOn(entries, k) != 0 ensures exists i :: 0 <= i < |rows| && rows[i].key == k {
      var i :| 0 <= i < |lines| && lines[i].key == k;
      assert rows[i].key == k;
    }
  }

  /** The rows after the marker: one per corrected quarter and country whose VAT does not add up to
      zero, with exactly that sum, in order, and nothing after them. */
  lemma OssCorrectionsRead(identifier: string, d: Date, entries: seq<OssEntry>, x: string)
    returns (n: nat, rows: seq<(CorrectionKey, int)>)
    requires CivilDate(d) && OneField(identifier) && Legible(entries) && Corrects(entries)
    requires OssFile(identifier, QuarterPeriod(d), entries) == Some(x)
    ensures |RowsOf(x)| == n + |rows| + 2 && RowsOf(x)[n] == "CORRECTIONS\r" && RowsOf(x)[n + |rows| + 1] == ""
    ensures forall i :: 0 <= i < |rows| ==>
      var (k, vat) := rows[i];
      |k.target| > 5 && ReadCorrection(RowsOf(x)[n + 1 + i]) == Some(CorrectionRow(k.target[..4] + k.target[5..], k.country, vat))
    ensures forall i :: 0 <= i < |rows| ==> rows[i].1 == CorrectedOn(entries, rows[i].0.target, rows[i].0.country) && rows[i].1 != 0
    ensures forall k: CorrectionKey :: CorrectedOn(entries, k.target, k.country) != 0 ==> exists i :: 0 <= i < |rows| && rows[i].0 == k
    ensures forall i, j :: 0 <= i < j < |rows| ==> TargetBefore(rows[i].0, rows[j].0)
  {
    hide CorrectedOn, TargetBefore, OssFile, RowsOf, ReadCorrection, PrintLine, PrintCorrection, MainLines, CorrectionLines,
         Legible, CivilDate, QuarterPeriod, OneField, Corrects;
    CorrectionRowsMean(entries);
    CorrectionRowsRead(entries);
    LinesOfFile(identifier, d, entries, x);
    assert "CORRECTIONS" + "\r" == "CORRECTIONS\r";
    var lines := CorrectionLines(entries);
    n, rows := |MainLines(entries)| + 2, MapSeq(PairOf, lines);
    forall k: CorrectionKey | CorrectedOn(entries, k.target, k.country) != 0 ensures exists i :: 0 <= i < |rows| && rows[i].0 == k {
      var i :| 0 <= i < |lines| && lines[i].key == k;
      assert rows[i].0 == k;
    }
  }

  lemma CorrectionRowsRead(entries: seq<OssEntry>)
    requires Legible(entries)
    ensures forall i :: 0 <= i < |CorrectionLines(entries)| ==>
      var l := CorrectionLines(entries)[i];
      && |l.key.target| > 5
      && ReadCorrection(PrintCorrection(l) + "\r") == Some(CorrectionRow(l.key.target[..4] + l.key.target[5..], l.key.country, l.value))
  {
    hide CorrectionLines, PrintCorrection, ReadCorrection, CanonicalQuarter;
    forall i | 0 <= i < |CorrectionLines(entries)|
      ensures var l := CorrectionLines(entries)[i];
        && |l.key.target| > 5
        && ReadCorrection(PrintCorrection(l) + "\r") == Some(CorrectionRow(l.key.target[..4] + l.key.target[5..], l.key.country, l.value))
    {
      var e := CorrectionKeyFrom(entries, i);
      CorrectionRead(CorrectionLines(entries)[i]);
    }
  }

  function PairOf(l: Listing.Line<CorrectionKey, int>): (CorrectionKey, int) { (l.key, l.value) }

  // ---------------------------------------------------------------------------
  // The rows of the periodic summary
  // ---------------------------------------------------------------------------

  /** The buyer has ready entries of the row type. */
  predicate Sells(entries: seq<PsEntry>, rowType: string, buyer: string) {
    exists e :: e in entries && e.state == Ready && e.rowType == rowType && e.buyer == buyer
  }

  function SoldTo(entries: seq<PsEntry>, rowType: string, buyer: string): int {
    if entries == [] then 0
    else
      var e := entries[|entries| - 1];
      SoldTo(entries[..|entries| - 1], rowType, buyer)
      + if e.state == Ready && e.rowType == rowType && e.buyer == buyer then e.exported else 0
  }

  function SoldOrNone(entries: seq<PsEntry>, rowType: string, buyer: string): Option<int> {
    if Sells(entries, rowType, buyer) then Some(SoldTo(entries, rowType, buyer)) else None
  }

  lemma SellsSnoc(front: seq<PsEntry>, e: PsEntry, rowType: string, buyer: string)
    ensures Sells(front + [e], rowType, buyer) <==>
      Sells(front, rowType, buyer) || (e.state == Ready && e.rowType == rowType && e.buyer == buyer)
  {
    assert e in front + [e];
  }

  lemma {:induction false} SalesRead(entries: seq<PsEntry>, rowType: string, buyer: string)
    ensures Total(Sales(entries, rowType), buyer) == SoldTo(entries, rowType, buyer)
    ensures buyer in KeySet(Sales(entries, rowType)) <==> Sells(entries, rowType, buyer)
  {
    hide KeySet, Sells, Total, Collect;
    if entries == [] {
      NoSales(rowType, buyer);
    } else {
      var front, e := entries[..|entries| - 1], entries[|entries| - 1];
      assert entries == front + [e];
      SalesRead(front, rowType, buyer);
      SellsSnoc(front, e, rowType, buyer);
      CollectSnoc(SaleOf(rowType), front, e);
      if e.state.Ready? && e.rowType == rowType {
        TotalSnoc(Sales(front, rowType), Keyed(e.buyer, e.exported), buyer);
        KeySetSnoc(Sales(front, rowType), Keyed(e.buyer, e.exported));
      }
    }
  }

  lemma NoSales(rowType: string, buyer: string)
    ensures Total(Sales([], rowType), buyer) == 0 && buyer !in KeySet(Sales([], rowType)) && !Sells([], rowType, buyer)
  {}

  datatype PsRow = PsRow(buyer: string, goods: Option<int>, services: Option<int>)

  /** An empty field is no amount at all. */
  function ReadField(s: string): Option<Option<int>> {
    if s == "" then Some(None) else match ReadWhole(s) case None => None case Some(n) => Some(Some(n))
  }

  function ReadPsRow(row: string): Option<PsRow> {
    var f := FieldsOf(row);
    if |f| == 5 && f[2] == "" && f[4] == "\r" && ReadField(f[1]).Some? && ReadField(f[3]).Some? then
      Some(PsRow(f[0], ReadField(f[1]).value, ReadField(f[3]).value))
    else None
  }

  lemma FieldRead(amount: Option<int>)
    ensures ReadField(AmountField(amount)) == Some(amount) && OneLine(AmountField(amount))
  {
    match amount
    case None =>
    case Some(n) =>
      WholeRead(n);
      var a: nat := if n < 0 then -n else n;
      DigitsAreOneField(Dec(a));
      hide Dec, ReadWhole;
      assert DecInt(n) != "";
  }

  lemma BuyerRead(l: Listing.Line<string, BuyerSales>)
    requires OneLine(l.key)
    ensures ReadPsRow(PrintBuyer(l) + "\r") == Some(PsRow(l.key, l.value.goods, l.value.services))
    ensures '\n' !in PrintBuyer(l)
  {
    FieldRead(l.value.goods);
    FieldRead(l.value.services);
    hide AmountField, ReadField, FieldsOf;
    var g, s := AmountField(l.value.goods), AmountField(l.value.services);
    assert PrintBuyer(l) + "\r" == l.key + ";" + g + ";" + "" + ";" + s + ";" + "\r";
    FiveFields(l.key, g, "", s, "\r");
  }

  lemma BuyerFrom(entries: seq<PsEntry>, i: nat) returns (e: PsEntry)
    requires i < |BuyerLines(entries)|
    ensures e in entries && e.state == Ready && e.buyer == BuyerLines(entries)[i].key
  {
    hide Collect, Listing.Lines, SortedKeys;
    var keys, lines := SortedKeys(Buyers(entries), StringLeq), BuyerLines(entries);
    BuyerLinesCover(entries);
    SortedKeysListKeys(Buyers(entries), StringLeq);
    Listing.LinesFaithful(keys, SalesIn(entries), BuyerSales(None, None), StringLeq);
    assert Listing.KeysOf(lines)[i] in Listing.KeysOf(lines);
    assert lines[i].key in ToSet(keys);
    var x :| x in Buyers(entries) && x.key == lines[i].key;
    e := CollectedFrom(BuyerOf, entries, x);
  }

  lemma BuyerRowsMean(entries: seq<PsEntry>)
    ensures var lines := BuyerLines(entries);
      && (forall i :: 0 <= i < |lines| ==>
          && lines[i].value.goods == SoldOrNone(entries, "goods", lines[i].key)
          && lines[i].value.services == SoldOrNone(entries, "services", lines[i].key)
          && (lines[i].value.goods.Some? || lines[i].value.services.Some?))
      && (forall b :: Sells(entries, "goods", b) || Sells(entries, "services", b) ==> exists i :: 0 <= i < |lines| && lines[i].key == b)
      && (forall i, j :: 0 <= i < j < |lines| ==> Before(lines[i].key, lines[j].key))
  {
    hide Collect, Listing.Lines, SortedKeys, Total, StringLeq, Before, SoldTo, Sells, KeySet;
    var keys, lines, value := SortedKeys(Buyers(entries), StringLeq), BuyerLines(entries), SalesIn(entries);
    BuyerLinesCover(entries);
    Listing.LinesFaithful(keys, value, BuyerSales(None, None), StringLeq);
    forall b ensures value(b) == BuyerSales(SoldOrNone(entries, "goods", b), SoldOrNone(entries, "services", b)) {
      SalesRead(entries, "goods", b);
      SalesRead(entries, "services", b);
    }
    forall i | 0 <= i < |lines| ensures value(lines[i].key) != BuyerSales(None, None) {
      assert Listing.KeysOf(lines)[i] in Listing.KeysOf(lines);
    }
    forall b | Sells(entries, "goods", b) || Sells(entries, "services", b) ensures exists i :: 0 <= i < |lines| && lines[i].key == b {
      assert value(b) != BuyerSales(None, None) && b in keys && b in Listing.KeysOf(lines);
      var i :| 0 <= i < |lines| && Listing.KeysOf(lines)[i] == b;
    }
    forall i, j | 0 <= i < j < |lines| ensures Before(lines[i].key, lines[j].key) {
      ByteOrder(lines[i].key, lines[j].key);
      assert Listing.KeysOf(lines)[i] != Listing.KeysOf(lines)[j];
    }
  }

  predicate LegibleBuyers(entries: seq<PsEntry>) {
    forall e :: e in entries && e.state == Ready ==> OneLine(e.buyer)
  }

  lemma BuyersRead(entries: seq<PsEntry>)
    requires LegibleBuyers(entries)
    ensures forall i :: 0 <= i < |BuyerLines(entries)| ==>
      var l := BuyerLines(entries)[i];
      '\n' !in PrintBuyer(l) && ReadPsRow(PrintBuyer(l) + "\r") == Some(PsRow(l.key, l.value.goods, l.value.services))
  {
    hide BuyerLines, PrintBuyer, ReadPsRow;
    forall i | 0 <= i < |BuyerLines(entries)|
      ensures var l := BuyerLines(entries)[i];
        '\n' !in PrintBuyer(l) && ReadPsRow(PrintBuyer(l) + "\r") == Some(PsRow(l.key, l.value.goods, l.value.services))
    {
      var e := BuyerFrom(entries, i);
      BuyerRead(BuyerLines(entries)[i]);
    }
  }

  lemma PsRowsPlaced(r: Reporter, period: string, rows: seq<string>)
    requires LegibleReporter(r) && OneField(PsPeriodCode(period))
    requires forall i :: 0 <= i < |rows| ==> '\n' !in rows[i]
    ensures var lines := RowsOf(Join(PsHeader(r, period) + rows, CRLF) + CRLF);
      |lines| == |rows| + 3 && lines[|rows| + 2] == "" && forall i :: 0 <= i < |rows| ==> lines[i + 2] == rows[i] + "\r"
  {
    var all := PsHeader(r, period) + rows;
    hide PsPeriodCode, Join, Terminated, Split;
    JoinTerminated(all, CRLF);
    RowsRead(all, "");
    NothingLeft();
    assert Terminated(all, CRLF) + "" == Terminated(all, CRLF);
    var lines := RowsOf(Join(all, CRLF) + CRLF);
    forall i | 0 <= i < |rows| ensures lines[i + 2] == rows[i] + "\r" { assert all[i + 2] == rows[i]; }
  }

  function PsRowOf(l: Listing.Line<string, BuyerSales>): PsRow { PsRow(l.key, l.value.goods, l.value.services) }

  lemma PsRowsFound(r: Reporter, year: nat, month: nat, entries: seq<PsEntry>, x: string)
    requires year <= 9999 && 1 <= month <= 12 && LegibleBuyers(entries) && LegibleReporter(r)
    requires PsFile(r, MonthText(year, month), entries) == Some(x)
    ensures var lines, buyers := RowsOf(x), BuyerLines(entries);
      && |lines| == |buyers| + 3 && lines[|buyers| + 2] == ""
      && forall i :: 0 <= i < |buyers| ==> ReadPsRow(lines[i + 2]) == Some(PsRowOf(buyers[i]))
  {
    var period, buyers := MonthText(year, month), BuyerLines(entries);
    PeriodCode(year, month);
    DigitsAreOneField(Pad(year % 100, 2));
    DigitsAreOneField(Pad(month, 2));
    assert OneField(PsPeriodCode(period));
    BuyersRead(entries);
    hide OneField, PsPeriodCode, MonthText, LegibleBuyers, BuyerLines, PrintBuyer, ReadPsRow, PsHeader, Join, RowsOf, Pad;
    var rows := MapSeq(PrintBuyer, buyers);
    forall i | 0 <= i < |rows| ensures '\n' !in rows[i] && ReadPsRow(rows[i] + "\r") == Some(PsRowOf(buyers[i])) {}
    PsRowsPlaced(r, period, rows);
  }

  /** The summary of any month as its receiver reads it. After the header comes one row per buyer with
      ready entries of either row type, in the order of their numbers, with the exact sum of the goods
      in the second field and that of the services in the fourth, each left empty where the buyer has
      none; nothing else is in the file. */
  lemma PsFileRead(r: Reporter, year: nat, month: nat, entries: seq<PsEntry>, x: string) returns (rows: seq<PsRow>)
    requires year <= 9999 && 1 <= month <= 12 && LegibleBuyers(entries) && LegibleReporter(r)
    requires PsFile(r, MonthText(year, month), entries) == Some(x)
    ensures |RowsOf(x)| == |rows| + 3 && RowsOf(x)[|rows| + 2] == ""
    ensures forall i :: 0 <= i < |rows| ==> ReadPsRow(RowsOf(x)[i + 2]) == Some(rows[i])
    ensures forall i :: 0 <= i < |rows| ==>
      && rows[i].goods == SoldOrNone(entries, "goods", rows[i].buyer)
      && rows[i].services == SoldOrNone(entries, "services", rows[i].buyer)
      && (rows[i].goods.Some? || rows[i].services.Some?)
    ensures forall b :: Sells(entries, "goods", b) || Sells(entries, "services", b) ==> exists i :: 0 <= i < |rows| && rows[i].buyer == b
    ensures forall i, j :: 0 <= i < j < |rows| ==> Before(rows[i].buyer, rows[j].buyer)
  {
    hide LegibleBuyers, LegibleReporter, BuyerLines, ReadPsRow, Before, SoldOrNone, Sells, RowsOf, PsFile, MonthText;
    PsRowsFound(r, year, month, entries, x);
    BuyerRowsMean(entries);
    var lines := BuyerLines(entries);
    rows := MapSeq(PsRowOf, lines);
    forall b | Sells(entries, "goods", b) || Sells(entries, "services", b) ensures exists i :: 0 <= i < |rows| && rows[i].buyer == b {
      var i :| 0 <= i < |lines| && lines[i].key == b;
      assert rows[i].buyer == b;
    }
  }
}
