/** When a file can be rendered. */
module RenderConditions {
  import opened Grouping
  import opened Text
  import opened Ledger
  import opened Periods
  import opened PeriodLaws
  import opened Filing
  import opened FiledRows
  import opened Render
  import opened RenderLaws
  import opened FileReading
  import Listing

  lemma Joined(a: string, b: string)
    ensures Latin1(a + b) <==> Latin1(a) && Latin1(b)
  {
    forall c ensures c in a + b <==> c in a || c in b {}
  }

  lemma {:induction false} RowsEncodable(rows: seq<string>)
    ensures Latin1(Terminated(rows, CRLF)) <==> forall r :: r in rows ==> Latin1(r)
  {
    if rows != [] {
      RowsEncodable(rows[1..]);
      Joined(rows[0], CRLF);
      Joined(rows[0] + CRLF, Terminated(rows[1..], CRLF));
      assert rows == [rows[0]] + rows[1..];
    }
  }

  lemma EncodesIff(rows: seq<string>)
    requires rows != []
    ensures Encode(rows).Some? <==> forall r :: r in rows ==> Latin1(r)
  {
    JoinTerminated(rows, CRLF);
    RowsEncodable(rows);
    hide Join, Terminated, Latin1;
  }

  lemma DigitsEncodable(s: string)
    requires AllDigits(s)
    ensures Latin1(s)
  {}

  lemma AmountEncodable(n: int)
    ensures Latin1(Fixed2(n, ','))
  {
    forall c | c in Fixed2(n, ',') ensures c as int < 256 { Fixed2Chars(n, ',', c); }
  }

  lemma LineEncodable(l: Listing.Line<OssKey, Amounts>)
    requires Latin1(l.key.origin) && Latin1(l.key.country) && Latin1(l.key.saleType)
    ensures Latin1(PrintLine(l))
  {
    AmountEncodable(l.key.rate); AmountEncodable(l.value.taxable); AmountEncodable(l.value.vat);
    hide Fixed2;
  }

  lemma CorrectionEncodable(l: Listing.Line<CorrectionKey, int>)
    requires CanonicalQuarter(l.key.target) && Latin1(l.key.country)
    ensures Latin1(PrintCorrection(l))
  {
    AmountEncodable(l.value);
    var (year, quarter) := ScanQuarter(l.key.target).value;
    DigitsEncodable(Pad(year, 4));
    DigitsEncodable(Dec(quarter));
    hide Fixed2, ScanQuarter, Pad, Dec;
  }

  /** The texts of the ready entries have only characters of ISO-8859-1, as the entries' builder sees to,
      and correction targets are quarters as the code names them. */
  predicate AllEncodable(entries: seq<OssEntry>) {
    forall e :: e in entries && e.state == Ready ==>
      && Encodable(e.origin) && Encodable(e.country) && Encodable(e.saleType)
      && (e.correctionTarget.Some? ==> CanonicalQuarter(e.correctionTarget.value))
  }

  lemma BodyEncodable(entries: seq<OssEntry>)
    requires AllEncodable(entries)
    ensures forall r :: r in Body(entries) ==> Latin1(r)
  {
    hide PrintLine, PrintCorrection, MainLines, CorrectionLines, CanonicalQuarter, Collect, Latin1, Encodable;
    var main, rest := MapSeq(PrintLine, MainLines(entries)), MapSeq(PrintCorrection, CorrectionLines(entries));
    forall i | 0 <= i < |main| ensures Latin1(main[i]) {
      var e := MainKeyFrom(entries, i);
      EncodableMeans(e.origin); EncodableMeans(e.country); EncodableMeans(e.saleType);
      LineEncodable(MainLines(entries)[i]);
    }
    forall i | 0 <= i < |rest| ensures Latin1(rest[i]) {
      var e := CorrectionKeyFrom(entries, i);
      EncodableMeans(e.country);
      CorrectionEncodable(CorrectionLines(entries)[i]);
    }
    MarkerEncodable();
    forall r | r in Body(entries) ensures Latin1(r) {
      if r !in main { assert r == "CORRECTIONS" || r in rest; }
    }
  }

  lemma MarkerEncodable()
    ensures Latin1("CORRECTIONS") && Latin1("OSS_001;") && Latin1("SKV574008;") && Latin1(";")
  {}

  lemma SecondRowEncodable(identifier: string, year: nat, quarter: nat)
    ensures Latin1(identifier + ";" + Dec(quarter) + ";" + Pad(year, 4) + ";") <==> Latin1(identifier)
  {
    DigitsEncodable(Dec(quarter));
    DigitsEncodable(Pad(year, 4));
    MarkerEncodable();
    hide Dec, Pad, Latin1;
    var a, b := identifier + ";" + Dec(quarter), identifier + ";" + Dec(quarter) + ";" + Pad(year, 4);
    Joined(identifier, ";");
    Joined(identifier + ";", Dec(quarter));
    Joined(a, ";");
    Joined(a + ";", Pad(year, 4));
    Joined(b, ";");
  }

  /** The OSS file of any quarter can be rendered exactly if the identifier has only characters of
      ISO-8859-1. */
  lemma OssRenders(identifier: string, d: Date, entries: seq<OssEntry>)
    requires CivilDate(d) && AllEncodable(entries)
    ensures OssFile(identifier, QuarterPeriod(d), entries).Some? <==> Encodable(identifier)
  {
    QuarterDigit(d.month);
    ScanOfQuarterText(d.year, QuarterOf(d.month));
    BodyEncodable(entries);
    EncodableMeans(identifier);
    MarkerEncodable();
    SecondRowEncodable(identifier, d.year, QuarterOf(d.month));
    var q := QuarterOf(d.month);
    var header := ["OSS_001;", identifier + ";" + Dec(q) + ";" + Pad(d.year, 4) + ";"];
    OssRows(identifier, d, entries, q);
    hide OssFile, Encode, Latin1, Encodable, Body, AllEncodable, ScanQuarter, QuarterText, Dec, Pad, QuarterOf;
    EncodesIff(header + Body(entries));
    assert header[1] in header + Body(entries);
  }

  lemma OssRows(identifier: string, d: Date, entries: seq<OssEntry>, q: nat)
    requires d.month >= 1 && ScanQuarter(QuarterPeriod(d)) == Some((d.year, q))
    ensures OssFile(identifier, QuarterPeriod(d), entries)
      == Encode(["OSS_001;", identifier + ";" + Dec(q) + ";" + Pad(d.year, 4) + ";"] + Body(entries))
  {
    hide ScanQuarter, QuarterPeriod, MainLines, CorrectionRows, Encode, Dec, Pad;
    var header := OssHeader(identifier, d.year, q);
    assert header + MainPart(entries) + CorrectionRows(entries) == header + Body(entries);
  }

  lemma BuyerEncodable(l: Listing.Line<string, BuyerSales>)
    requires Latin1(l.key)
    ensures Latin1(PrintBuyer(l))
  {
    FieldEncodable(l.value.goods);
    FieldEncodable(l.value.services);
    MarkerEncodable();
    hide AmountField;
  }

  lemma FieldEncodable(amount: Option<int>)
    ensures Latin1(AmountField(amount))
  {
    if amount.Some? {
      var a: nat := if amount.value < 0 then -amount.value else amount.value;
      DigitsEncodable(Dec(a));
      hide Dec;
    }
  }

  lemma BuyersEncodable(entries: seq<PsEntry>)
    requires forall e :: e in entries && e.state == Ready ==> Encodable(e.buyer)
    ensures forall r :: r in MapSeq(PrintBuyer, BuyerLines(entries)) ==> Latin1(r)
  {
    hide PrintBuyer, BuyerLines, Latin1, Encodable;
    var rows := MapSeq(PrintBuyer, BuyerLines(entries));
    forall i | 0 <= i < |rows| ensures Latin1(rows[i]) {
      var e := BuyerFrom(entries, i);
      EncodableMeans(e.buyer);
      BuyerEncodable(BuyerLines(entries)[i]);
    }
  }

  lemma ReporterEncodable(r: Reporter, code: string)
    requires Latin1(code)
    ensures Latin1(r.vatNumber + ";" + code + ";" + r.name + ";" + r.phone + ";" + r.email)
      <==> Latin1(r.vatNumber) && Latin1(r.name) && Latin1(r.phone) && Latin1(r.email)
  {
    MarkerEncodable();
    hide Latin1;
    var a := r.vatNumber + ";" + code;
    var b := a + ";" + r.name;
    var c := b + ";" + r.phone;
    Joined(r.vatNumber, ";");
    Joined(r.vatNumber + ";", code);
    Joined(a, ";");
    Joined(a + ";", r.name);
    Joined(b, ";");
    Joined(b + ";", r.phone);
    Joined(c, ";");
    Joined(c + ";", r.email);
  }

  /** The summary of any month can be rendered exactly if what is configured of the reporter has only
      characters of ISO-8859-1. */
  lemma PsRenders(r: Reporter, year: nat, month: nat, entries: seq<PsEntry>)
    requires year <= 9999 && 1 <= month <= 12 && forall e :: e in entries && e.state == Ready ==> Encodable(e.buyer)
    ensures PsFile(r, MonthText(year, month), entries).Some?
      <==> Encodable(r.vatNumber) && Encodable(r.name) && Encodable(r.phone) && Encodable(r.email)
  {
    PeriodCode(year, month);
    var code := PsPeriodCode(MonthText(year, month));
    assert AllDigits(Pad(year % 100, 2)) && AllDigits(Pad(month, 2));
    DigitsEncodable(code);
    ReporterEncodable(r, code);
    BuyersEncodable(entries);
    MarkerEncodable();
    EncodableMeans(r.vatNumber); EncodableMeans(r.name); EncodableMeans(r.phone); EncodableMeans(r.email);
    hide Encode, Latin1, Encodable, BuyerLines, PrintBuyer, Pad, MonthText, PsPeriodCode;
    var rows := PsHeader(r, MonthText(year, month)) + MapSeq(PrintBuyer, BuyerLines(entries));
    EncodesIff(rows);
    assert rows[1] in rows;
  }
}
