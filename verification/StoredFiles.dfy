/** Files made of rows as the filing tables hold them.

    The tables hold two characters for a country and one of two sale types, so that a printed row
    can be read back by position: no assumption about separators in the fields is needed. */
module StoredFiles {
  import opened Grouping
  import opened Text
  import opened Periods
  import opened PeriodLaws
  import opened Filing
  import opened Listing
  import opened Render
  import opened RenderLaws

  // ---------------------------------------------------------------------------
  // Stored rows
  // ---------------------------------------------------------------------------

  predicate StoredKey(k: OssKey) { |k.origin| == 2 && |k.country| == 2 && k.saleType in {"GOODS", "SERVICES"} }

  predicate StoredTarget(k: CorrectionKey) { CanonicalQuarter(k.target) && |k.country| == 2 }

  /** What the columns and the configured origin make of an OSS entry. */
  predicate StoredRow(e: OssEntry) {
    StoredKey(KeyOf(e)) && (e.correctionTarget.Some? ==> CanonicalQuarter(e.correctionTarget.value))
  }

  predicate StoredRows(entries: seq<OssEntry>) { forall e :: e in entries && e.state.Ready? ==> StoredRow(e) }

  predicate StoredLines(lines: seq<Line<OssKey, Amounts>>) { forall i :: 0 <= i < |lines| ==> StoredKey(lines[i].key) }

  predicate StoredCorrections(lines: seq<Line<CorrectionKey, int>>) {
    forall i :: 0 <= i < |lines| ==> StoredTarget(lines[i].key)
  }

  lemma MainLinesStored(entries: seq<OssEntry>)
    requires StoredRows(entries)
    ensures StoredLines(MainLines(entries))
  {
    hide Collect, Lines, SortedKeys;
    var keys, lines := SortedKeys(Taxables(entries), OssLeq), MainLines(entries);
    MainLinesCover(entries);
    SortedKeysListKeys(Taxables(entries), OssLeq);
    LinesFaithful(keys, AmountsAt(Taxables(entries), Vats(entries)), Amounts(0, 0), OssLeq);
    forall i | 0 <= i < |lines| ensures StoredKey(lines[i].key) {
      assert KeysOf(lines)[i] in KeysOf(lines);
      assert lines[i].key in ToSet(keys);
      var x :| x in Taxables(entries) && x.key == lines[i].key;
      var e := CollectedFrom(TaxableOf, entries, x);
    }
  }

  lemma CorrectionLinesStored(entries: seq<OssEntry>)
    requires StoredRows(entries)
    ensures StoredCorrections(CorrectionLines(entries))
  {
    hide Collect, Lines, SortedKeys, CanonicalQuarter;
    var keys, lines := SortedKeys(Corrections(entries), CorrectionLeq), CorrectionLines(entries);
    CorrectionLinesCover(entries);
    SortedKeysListKeys(Corrections(entries), CorrectionLeq);
    LinesFaithful(keys, TotalAt(Corrections(entries)), 0, CorrectionLeq);
    forall i | 0 <= i < |lines| ensures StoredTarget(lines[i].key) {
      assert KeysOf(lines)[i] in KeysOf(lines);
      assert lines[i].key in ToSet(keys);
      var x :| x in Corrections(entries) && x.key == lines[i].key;
      var e := CollectedFrom(CorrectionOf, entries, x);
    }
  }

  // ---------------------------------------------------------------------------
  // Reading by position
  // ---------------------------------------------------------------------------

  /** Equally many fields without the terminator in them can be split off the front of a text. */
  lemma {:induction false} FieldsApart(a: seq<string>, b: seq<string>, x: string, y: string)
    requires |a| == |b| && Free(';', a) && Free(';', b)
    requires Terminated(a, ";") + x == Terminated(b, ";") + y
    ensures a == b && x == y
  {
    if a != [] {
      var ra, rb := Terminated(a[1..], ";") + x, Terminated(b[1..], ";") + y;
      assert Terminated(a, ";") + x == a[0] + [';'] + ra;
      assert Terminated(b, ";") + y == b[0] + [';'] + rb;
      FirstSeparator(a[0], ra, b[0], rb, ';');
      FieldsApart(a[1..], b[1..], x, y);
      assert a == [a[0]] + a[1..] && b == [b[0]] + b[1..];
    } else {
      assert "" + x == x && "" + y == y;
    }
  }

  lemma PrefixApart(p: string, u: string, q: string, v: string)
    requires |p| == |q| && p + u == q + v
    ensures p == q && u == v
  {
    assert (p + u)[..|p|] == p && (q + v)[..|p|] == q;
    assert (p + u)[|p|..] == u && (q + v)[|p|..] == v;
  }

  lemma Regrouped(a: string, b: string, c: string, d: string)
    ensures a + b + c + d == a + (b + (c + d))
  {}

  /** Rows of a fixed start and as many fields can be split off the front of a file. */
  lemma RowsApart(p: string, a: seq<string>, x: string, q: string, b: seq<string>, y: string)
    requires |p| == |q| && |a| == |b| && Free(';', a) && Free(';', b)
    requires p + Terminated(a, ";") + CRLF + x == q + Terminated(b, ";") + CRLF + y
    ensures p == q && a == b && x == y
  {
    Regrouped(p, Terminated(a, ";"), CRLF, x);
    Regrouped(q, Terminated(b, ";"), CRLF, y);
    hide Terminated;
    PrefixApart(p, Terminated(a, ";") + (CRLF + x), q, Terminated(b, ";") + (CRLF + y));
    FieldsApart(a, b, CRLF + x, CRLF + y);
    PrefixApart(CRLF, x, CRLF, y);
  }

  function MainStart(k: OssKey): string { k.origin + ";" + k.country + ";" }

  function MainFields(l: Line<OssKey, Amounts>): seq<string> {
    [Fixed2(l.key.rate, ','), Fixed2(l.value.taxable, ','), Fixed2(l.value.vat, ','), l.key.saleType]
  }

  lemma MainRow(l: Line<OssKey, Amounts>)
    requires StoredKey(l.key)
    ensures PrintLine(l) == MainStart(l.key) + Terminated(MainFields(l), ";")
    ensures |MainStart(l.key)| == 6 && |PrintLine(l)| > 2 && PrintLine(l)[2] == ';' && Free(';', MainFields(l))
  {
    PrintLineIsRecord(l);
    NoSeparators(l.key.rate, ','); NoSeparators(l.value.taxable, ','); NoSeparators(l.value.vat, ',');
    hide Fixed2, PrintLine;
    var f := LineFields(l);
    assert f == [f[0], f[1]] + MainFields(l);
    TerminatedConcat([f[0], f[1]], MainFields(l), ";");
    assert [f[0], f[1]][1..] == [f[1]];
    Terminated1(f[1], ";");
    assert Terminated([f[0], f[1]], ";") == MainStart(l.key);
  }

  lemma SameMainLine(a: Line<OssKey, Amounts>, b: Line<OssKey, Amounts>)
    requires StoredKey(a.key) && StoredKey(b.key)
    requires MainStart(a.key) == MainStart(b.key) && MainFields(a) == MainFields(b)
    ensures a == b
  {
    assert a.key.origin == MainStart(a.key)[..2] == b.key.origin;
    assert a.key.country == MainStart(a.key)[3..5] && b.key.country == MainStart(b.key)[3..5];
    hide Fixed2;
    var f, g := MainFields(a), MainFields(b);
    assert f[0] == g[0] && f[1] == g[1] && f[2] == g[2] && f[3] == g[3];
    Fixed2Injective(a.key.rate, b.key.rate, ',');
    Fixed2Injective(a.value.taxable, b.value.taxable, ',');
    Fixed2Injective(a.value.vat, b.value.vat, ',');
  }

  function MainText(lines: seq<Line<OssKey, Amounts>>): string { Terminated(MapSeq(PrintLine, lines), CRLF) }

  lemma MainTextHead(lines: seq<Line<OssKey, Amounts>>)
    requires lines != []
    ensures MainText(lines) == PrintLine(lines[0]) + CRLF + MainText(lines[1..])
  {
    hide PrintLine;
    assert MapSeq(PrintLine, lines)[1..] == MapSeq(PrintLine, lines[1..]);
  }

  /** A text that does not begin with a main row. */
  predicate NoMainRow(s: string) { |s| > 2 ==> s[2] != ';' }

  lemma FirstLinesApart(a: Line<OssKey, Amounts>, x: string, b: Line<OssKey, Amounts>, y: string)
    requires StoredKey(a.key) && StoredKey(b.key)
    requires PrintLine(a) + CRLF + x == PrintLine(b) + CRLF + y
    ensures a == b && x == y
  {
    MainRow(a);
    MainRow(b);
    hide PrintLine, MainStart, MainFields, Terminated, StoredKey;
    RowsApart(MainStart(a.key), MainFields(a), x, MainStart(b.key), MainFields(b), y);
    SameMainLine(a, b);
  }

  lemma RowFirst(row: string, rest: string, x: string)
    requires |row| > 2 && row[2] == ';'
    ensures row + CRLF + rest + x == row + CRLF + (rest + x)
    ensures !NoMainRow(row + CRLF + rest + x)
  {}

  lemma BeginsWithRow(lines: seq<Line<OssKey, Amounts>>, x: string)
    requires StoredLines(lines) && lines != []
    ensures MainText(lines) + x == PrintLine(lines[0]) + CRLF + (MainText(lines[1..]) + x)
    ensures !NoMainRow(MainText(lines) + x)
  {
    MainTextHead(lines);
    MainRow(lines[0]);
    hide PrintLine, MainText, StoredKey, NoMainRow, Terminated, MainFields, MainStart;
    RowFirst(PrintLine(lines[0]), MainText(lines[1..]), x);
  }

  lemma {:induction false} MainTextApart(a: seq<Line<OssKey, Amounts>>, x: string, b: seq<Line<OssKey, Amounts>>, y: string)
    requires StoredLines(a) && StoredLines(b) && NoMainRow(x) && NoMainRow(y)
    requires MainText(a) + x == MainText(b) + y
    ensures a == b && x == y
  {
    hide PrintLine, MainText, NoMainRow, StoredKey;
    NothingPrinted();
    if a != [] { BeginsWithRow(a, x); } else { assert "" + x == x; }
    if b != [] { BeginsWithRow(b, y); } else { assert "" + y == y; }
    if a != [] && b != [] {
      FirstLinesApart(a[0], MainText(a[1..]) + x, b[0], MainText(b[1..]) + y);
      MainTextApart(a[1..], x, b[1..], y);
      assert a == [a[0]] + a[1..] && b == [b[0]] + b[1..];
    }
  }

  lemma NothingPrinted()
    ensures MainText([]) == "" && CorrectionText([]) == ""
  {}

  // ---------------------------------------------------------------------------
  // Corrections
  // ---------------------------------------------------------------------------

  function CorrectionStart(k: CorrectionKey): string { CompactQuarterPeriod(k.target) + ";" + k.country + ";" }

  function CorrectionText(lines: seq<Line<CorrectionKey, int>>): string { Terminated(MapSeq(PrintCorrection, lines), CRLF) }

  lemma CompactLength(target: string)
    requires CanonicalQuarter(target)
    ensures |CompactQuarterPeriod(target)| == 6
  {
    ScannedYear(target);
    var (year, quarter) := ScanQuarter(target).value;
    FourDigits(year);
    assert |Dec(quarter)| == 1;
  }

  lemma CorrectionRow(l: Line<CorrectionKey, int>)
    requires StoredTarget(l.key)
    ensures PrintCorrection(l) == CorrectionStart(l.key) + Terminated([Fixed2(l.value, ',')], ";")
    ensures |CorrectionStart(l.key)| == 10 && Free(';', [Fixed2(l.value, ',')])
  {
    CompactLength(l.key.target);
    NoSeparators(l.value, ',');
    Terminated1(Fixed2(l.value, ','), ";");
    hide CompactQuarterPeriod, Fixed2, Terminated;
    var p, f := CorrectionStart(l.key), Fixed2(l.value, ',');
    assert p + f + ";" == p + (f + ";");
  }

  lemma SameCorrectionLine(a: Line<CorrectionKey, int>, b: Line<CorrectionKey, int>)
    requires StoredTarget(a.key) && StoredTarget(b.key)
    requires CorrectionStart(a.key) == CorrectionStart(b.key) && Fixed2(a.value, ',') == Fixed2(b.value, ',')
    ensures a == b
  {
    CompactLength(a.key.target);
    CompactLength(b.key.target);
    Fixed2Injective(a.value, b.value, ',');
    hide CompactQuarterPeriod, CanonicalQuarter, Fixed2;
    var s := CorrectionStart(a.key);
    assert s[..6] == CompactQuarterPeriod(a.key.target) && s[..6] == CompactQuarterPeriod(b.key.target);
    assert s[7..9] == a.key.country && s[7..9] == b.key.country;
    CompactInjective(a.key.target, b.key.target);
  }

  lemma CorrectionTextHead(lines: seq<Line<CorrectionKey, int>>)
    requires lines != []
    ensures CorrectionText(lines) == PrintCorrection(lines[0]) + CRLF + CorrectionText(lines[1..])
  {
    hide PrintCorrection;
    assert MapSeq(PrintCorrection, lines)[1..] == MapSeq(PrintCorrection, lines[1..]);
  }

  lemma {:induction false} CorrectionTextApart(a: seq<Line<CorrectionKey, int>>, b: seq<Line<CorrectionKey, int>>)
    requires StoredCorrections(a) && StoredCorrections(b) && CorrectionText(a) == CorrectionText(b)
    ensures a == b
  {
    hide PrintCorrection, CorrectionText, StoredTarget;
    NothingPrinted();
    if a != [] { CorrectionTextHead(a); }
    if b != [] { CorrectionTextHead(b); }
    if a != [] && b != [] {
      CorrectionRow(a[0]);
      CorrectionRow(b[0]);
      RowsApart(CorrectionStart(a[0].key), [Fixed2(a[0].value, ',')], CorrectionText(a[1..]),
                CorrectionStart(b[0].key), [Fixed2(b[0].value, ',')], CorrectionText(b[1..]));
      assert [Fixed2(a[0].value, ',')][0] == [Fixed2(b[0].value, ',')][0];
      SameCorrectionLine(a[0], b[0]);
      CorrectionTextApart(a[1..], b[1..]);
      assert a == [a[0]] + a[1..] && b == [b[0]] + b[1..];
    }
  }

  /** The correction section: nothing, or the marker and the correction rows. */
  function Section(entries: seq<OssEntry>): string {
    if Corrections(entries) == [] then "" else MARKER + CRLF + CorrectionText(CorrectionLines(entries))
  }

  lemma SectionText(entries: seq<OssEntry>)
    ensures Terminated(CorrectionRows(entries), CRLF) == Section(entries) && NoMainRow(Section(entries))
  {
    hide CorrectionLines, PrintCorrection, Collect;
    if Corrections(entries) != [] {
      var rows := MapSeq(PrintCorrection, CorrectionLines(entries));
      assert ([MARKER] + rows)[1..] == rows;
    }
  }

  // ---------------------------------------------------------------------------
  // The file
  // ---------------------------------------------------------------------------

  function HeaderText(identifier: string, period: string): string
    requires ScanQuarter(period).Some?
  {
    Terminated(OssHeader(identifier, ScanQuarter(period).value.0, ScanQuarter(period).value.1), CRLF)
  }

  lemma FileText(identifier: string, period: string, entries: seq<OssEntry>)
    ensures OssFile(identifier, period, entries).Some? ==>
      && ScanQuarter(period).Some?
      && OssFile(identifier, period, entries).value
        == HeaderText(identifier, period) + (MainText(MainLines(entries)) + Section(entries))
  {
    WholeFile(identifier, period, entries);
    SectionText(entries);
    hide OssFile, OssHeader, ScanQuarter, MainLines, CorrectionRows, Section, Terminated, Join;
    if OssFile(identifier, period, entries).Some? {
      var header := OssHeader(identifier, ScanQuarter(period).value.0, ScanQuarter(period).value.1);
      HeaderIsThere(identifier, ScanQuarter(period).value.0, ScanQuarter(period).value.1);
      JoinTerminated(header + Body(entries), CRLF);
      TerminatedConcat(header, Body(entries), CRLF);
      TerminatedConcat(MainPart(entries), CorrectionRows(entries), CRLF);
    }
  }

  lemma HeaderIsThere(identifier: string, year: nat, quarter: nat)
    ensures OssHeader(identifier, year, quarter) != []
  {}

  /** For rows as the table holds them, two files have the same bytes exactly when every main key
      and every correction key has the same totals in both, and both or neither have a correction
      section. */
  lemma StoredFileDetermined(identifier: string, period: string, a: seq<OssEntry>, b: seq<OssEntry>)
    requires StoredRows(a) && StoredRows(b)
    ensures OssFile(identifier, period, a).Some? ==>
      (OssFile(identifier, period, a) == OssFile(identifier, period, b) <==>
        SameTotals(a, b) && SameCorrections(a, b) && (Corrections(a) == [] <==> Corrections(b) == []))
  {
    MainLinesDetermined(a, b);
    CorrectionLinesDetermined(a, b);
    MainLinesStored(a);
    MainLinesStored(b);
    CorrectionLinesStored(a);
    CorrectionLinesStored(b);
    FileText(identifier, period, a);
    FileText(identifier, period, b);
    SectionText(a);
    SectionText(b);
    hide MainLines, CorrectionLines, SameTotals, SameCorrections, StoredLines, StoredCorrections, StoredRows, MainText,
         Section, NoMainRow, HeaderText, Collect;
    if SameFile(identifier, period, a, b) {
      var h := HeaderText(identifier, period);
      var ta, tb := MainText(MainLines(a)) + Section(a), MainText(MainLines(b)) + Section(b);
      assert (h + ta)[|h|..] == ta && (h + tb)[|h|..] == tb;
      MainTextApart(MainLines(a), Section(a), MainLines(b), Section(b));
      SectionsApart(a, b);
    }
  }

  lemma SectionsApart(a: seq<OssEntry>, b: seq<OssEntry>)
    requires StoredCorrections(CorrectionLines(a)) && StoredCorrections(CorrectionLines(b)) && Section(a) == Section(b)
    ensures Corrections(a) == [] <==> Corrections(b) == []
    ensures CorrectionLines(a) == CorrectionLines(b)
  {
    hide CorrectionLines, CorrectionText, Collect, StoredCorrections;
    if Corrections(a) == [] || Corrections(b) == [] {
      NoCorrectionsIn(a);
      NoCorrectionsIn(b);
    } else {
      var m := MARKER + CRLF;
      var ta, tb := CorrectionText(CorrectionLines(a)), CorrectionText(CorrectionLines(b));
      assert (m + ta)[|m|..] == ta && (m + tb)[|m|..] == tb;
      CorrectionTextApart(CorrectionLines(a), CorrectionLines(b));
    }
  }

  lemma NoCorrectionsIn(entries: seq<OssEntry>)
    ensures Corrections(entries) == [] ==> CorrectionLines(entries) == []
  {
    if Corrections(entries) == [] { NoCorrections(entries); }
  }
}
