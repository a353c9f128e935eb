/** What the files say: no amount is lost in them, the order of the entries does not show, and
    two files with the same bytes stand for the same totals. */
module RenderLaws {
  import opened Grouping
  import opened Text
  import opened Periods
  import opened PeriodLaws
  import opened Rounding
  import opened Filing
  import opened Listing
  import opened Render

  // ---------------------------------------------------------------------------
  // Conservation
  // ---------------------------------------------------------------------------

  function SumBy<A>(s: seq<A>, f: A -> int): int {
    if s == [] then 0 else SumBy(s[..|s| - 1], f) + f(s[|s| - 1])
  }

  function AmountOf<K>(o: Option<Keyed<K>>): int { match o case None => 0 case Some(x) => x.amount }

  lemma SumWhereSnoc<K>(xs: seq<Keyed<K>>, x: Keyed<K>)
    ensures SumWhere(xs + [x], Always()) == SumWhere(xs, Always()) + x.amount
  {
    assert (xs + [x])[..|xs|] == xs;
  }

  lemma {:induction false} CollectedSum<A, K>(f: A -> Option<Keyed<K>>, s: seq<A>, g: A -> int)
    requires forall e :: e in s ==> g(e) == AmountOf(f(e))
    ensures SumWhere(Collect(f, s), Always()) == SumBy(s, g)
  {
    if s != [] {
      var front, e := s[..|s| - 1], s[|s| - 1];
      CollectedSum(f, front, g);
      if f(e).Some? { SumWhereSnoc(Collect(f, front), f(e).value); }
    }
  }

  /** The taxable amount and the VAT that an entry contributes to the file. */
  function MainTaxable(e: OssEntry): int { if e.state.Ready? && e.correctionTarget.None? then e.taxable else 0 }

  function MainVat(e: OssEntry): int { if e.state.Ready? && e.correctionTarget.None? then e.vat else 0 }

  function CorrectionVat(e: OssEntry): int { if e.state.Ready? && e.correctionTarget.Some? then e.vat else 0 }

  function ReadyVat(e: OssEntry): int { if e.state.Ready? then e.vat else 0 }

  lemma {:induction false} VatSplits(entries: seq<OssEntry>)
    ensures SumBy(entries, ReadyVat) == SumBy(entries, MainVat) + SumBy(entries, CorrectionVat)
  {
    if entries != [] { VatSplits(entries[..|entries| - 1]); }
  }

  lemma {:induction false} SameMainKeys(entries: seq<OssEntry>)
    ensures KeySet(Taxables(entries)) == KeySet(Vats(entries))
  {
    if entries != [] {
      var front, e := entries[..|entries| - 1], entries[|entries| - 1];
      SameMainKeys(front);
      if OnMainRow(e) {
        KeySetSnoc(Taxables(front), Keyed(KeyOf(e), e.taxable));
        KeySetSnoc(Vats(front), Keyed(KeyOf(e), e.vat));
      }
    }
  }

  lemma TableConserves<K, V>(keys: seq<K>, value: K -> V, blank: V, measure: V -> int, xs: seq<Keyed<K>>)
    requires Distinct(keys) && KeySet(xs) <= ToSet(keys)
    requires measure(blank) == 0
    requires forall i :: 0 <= i < |keys| ==> measure(value(keys[i])) == Total(xs, keys[i])
    ensures SumOf(Lines(keys, value, blank), measure) == SumWhere(xs, Always())
  {
    LinesConserve(keys, value, blank, measure, xs);
    GroupingConserves(keys, xs, Always());
  }

  function TaxableOfLine(a: Amounts): int { a.taxable }

  function VatOfLine(a: Amounts): int { a.vat }

  function Itself(n: int): int { n }

  /** The main rows add up to the taxable amounts of the ready entries that correct nothing;
      main rows and corrections together add up to the VAT of all ready entries, although rows
      that came out as zero are not printed. */
  lemma OssConserves(entries: seq<OssEntry>)
    ensures SumOf(MainLines(entries), TaxableOfLine) == SumBy(entries, MainTaxable)
    ensures SumOf(MainLines(entries), VatOfLine) + SumOf(CorrectionLines(entries), Itself) == SumBy(entries, ReadyVat)
  {
    hide SortedKeys, Lines, Total, Collect, SumBy;
    var keys := SortedKeys(Taxables(entries), OssLeq);
    SortedKeysListKeys(Taxables(entries), OssLeq);
    SameMainKeys(entries);
    TableConserves(keys, AmountsAt(Taxables(entries), Vats(entries)), Amounts(0, 0), TaxableOfLine, Taxables(entries));
    TableConserves(keys, AmountsAt(Taxables(entries), Vats(entries)), Amounts(0, 0), VatOfLine, Vats(entries));
    CollectedSum(TaxableOf, entries, MainTaxable);
    CollectedSum(VatOf, entries, MainVat);
    var corrected := SortedKeys(Corrections(entries), CorrectionLeq);
    SortedKeysListKeys(Corrections(entries), CorrectionLeq);
    TableConserves(corrected, TotalAt(Corrections(entries)), 0, Itself, Corrections(entries));
    CollectedSum(CorrectionOf, entries, CorrectionVat);
    VatSplits(entries);
  }

  // ---------------------------------------------------------------------------
  // What determines the lines
  // ---------------------------------------------------------------------------

  ghost predicate SameTotals(a: seq<OssEntry>, b: seq<OssEntry>) {
    forall k :: AmountsAt(Taxables(a), Vats(a))(k) == AmountsAt(Taxables(b), Vats(b))(k)
  }

  ghost predicate SameCorrections(a: seq<OssEntry>, b: seq<OssEntry>) {
    forall k :: TotalAt(Corrections(a))(k) == TotalAt(Corrections(b))(k)
  }

  lemma MainLinesCover(entries: seq<OssEntry>)
    ensures var keys := SortedKeys(Taxables(entries), OssLeq);
      Distinct(keys) && Sorted(keys, OssLeq) && Covers(keys, AmountsAt(Taxables(entries), Vats(entries)), Amounts(0, 0))
  {
    OssOrder();
    SameMainKeys(entries);
    forall k | k !in KeySet(Taxables(entries)) ensures AmountsAt(Taxables(entries), Vats(entries))(k) == Amounts(0, 0) {
      TotalOfAbsentKey(Taxables(entries), k);
      TotalOfAbsentKey(Vats(entries), k);
    }
    SortedKeysCover(Taxables(entries), OssLeq, AmountsAt(Taxables(entries), Vats(entries)), Amounts(0, 0));
  }

  lemma MainLinesDetermined(a: seq<OssEntry>, b: seq<OssEntry>)
    ensures MainLines(a) == MainLines(b) <==> SameTotals(a, b)
  {
    hide SortedKeys, Lines, Total, Collect, TotalOrder, OssLeq, Covers;
    OssOrder();
    MainLinesCover(a);
    MainLinesCover(b);
    LinesDetermineValues(SortedKeys(Taxables(a), OssLeq), AmountsAt(Taxables(a), Vats(a)),
                         SortedKeys(Taxables(b), OssLeq), AmountsAt(Taxables(b), Vats(b)), Amounts(0, 0), OssLeq);
  }

  lemma CorrectionLinesCover(entries: seq<OssEntry>)
    ensures var keys := SortedKeys(Corrections(entries), CorrectionLeq);
      Distinct(keys) && Sorted(keys, CorrectionLeq) && Covers(keys, TotalAt(Corrections(entries)), 0)
  {
    CorrectionOrder();
    forall k | k !in KeySet(Corrections(entries)) ensures TotalAt(Corrections(entries))(k) == 0 {
      TotalOfAbsentKey(Corrections(entries), k);
    }
    SortedKeysCover(Corrections(entries), CorrectionLeq, TotalAt(Corrections(entries)), 0);
  }

  lemma CorrectionLinesDetermined(a: seq<OssEntry>, b: seq<OssEntry>)
    ensures CorrectionLines(a) == CorrectionLines(b) <==> SameCorrections(a, b)
  {
    hide SortedKeys, Lines, Total, Collect, TotalOrder, CorrectionLeq, Covers;
    CorrectionOrder();
    CorrectionLinesCover(a);
    CorrectionLinesCover(b);
    LinesDetermineValues(SortedKeys(Corrections(a), CorrectionLeq), TotalAt(Corrections(a)),
                         SortedKeys(Corrections(b), CorrectionLeq), TotalAt(Corrections(b)), 0, CorrectionLeq);
  }

  /** The file does not depend on the order in which the entries are stored. */
  lemma OssFilePermutation(identifier: string, period: string, a: seq<OssEntry>, b: seq<OssEntry>)
    requires multiset(a) == multiset(b)
    ensures OssFile(identifier, period, a) == OssFile(identifier, period, b)
  {
    CollectPermutation(TaxableOf, a, b);
    CollectPermutation(VatOf, a, b);
    CollectPermutation(CorrectionOf, a, b);
    hide Collect, MainLines, CorrectionLines;
    forall k ensures AmountsAt(Taxables(a), Vats(a))(k) == AmountsAt(Taxables(b), Vats(b))(k) {
      TotalPermutation(Taxables(a), Taxables(b), k);
      TotalPermutation(Vats(a), Vats(b), k);
    }
    forall k ensures TotalAt(Corrections(a))(k) == TotalAt(Corrections(b))(k) { TotalPermutation(Corrections(a), Corrections(b), k); }
    MainLinesDetermined(a, b);
    CorrectionLinesDetermined(a, b);
    assert |Corrections(a)| == |multiset(Corrections(a))| == |Corrections(b)|;
  }

  // ---------------------------------------------------------------------------
  // Reading rows back
  // ---------------------------------------------------------------------------

  predicate Clean(s: string) { ';' !in s && '\r' !in s }

  predicate CanonicalQuarter(period: string) {
    ScanQuarter(period).Some? && period == QuarterText(ScanQuarter(period).value.0, ScanQuarter(period).value.1)
  }

  predicate CleanKey(k: OssKey) { Clean(k.origin) && Clean(k.country) && Clean(k.saleType) }

  predicate CleanCorrection(k: CorrectionKey) { CanonicalQuarter(k.target) && Clean(k.country) }

  /** No separator inside a field; correction targets are quarters as the code names them. */
  predicate CleanEntries(entries: seq<OssEntry>) {
    forall e :: e in entries && e.state.Ready? ==>
      if e.correctionTarget.Some? then CleanCorrection(CorrectionKey(e.correctionTarget.value, e.country)) else CleanKey(KeyOf(e))
  }

  lemma NoSeparators(n: int, point: char)
    requires point != ';' && point != '\r'
    ensures Clean(Fixed2(n, point))
  {
    if ';' in Fixed2(n, point) { Fixed2Chars(n, point, ';'); }
    if '\r' in Fixed2(n, point) { Fixed2Chars(n, point, '\r'); }
  }

  function LineFields(l: Line<OssKey, Amounts>): seq<string> {
    [l.key.origin, l.key.country, Fixed2(l.key.rate, ','), Fixed2(l.value.taxable, ','), Fixed2(l.value.vat, ','), l.key.saleType]
  }

  function CorrectionFields(l: Line<CorrectionKey, int>): seq<string> {
    [CompactQuarterPeriod(l.key.target), l.key.country, Fixed2(l.value, ',')]
  }

  lemma Terminated1(a: string, end: string)
    ensures Terminated([a], end) == a + end
  {
    assert Terminated([a][1..], end) == "";
    assert a + end + "" == a + end;
  }

  lemma Terminated3(a: string, b: string, c: string, end: string)
    ensures Terminated([a, b, c], end) == a + end + b + end + c + end
  {
    Terminated1(c, end);
    assert [a, b, c][1..] == [b, c] && [b, c][1..] == [c];
    assert a + end + (b + end + (c + end)) == a + end + b + end + c + end;
  }

  lemma {:induction false} TerminatedConcat(a: seq<string>, b: seq<string>, end: string)
    ensures Terminated(a + b, end) == Terminated(a, end) + Terminated(b, end)
  {
    if a == [] {
      assert a + b == b;
    } else {
      TerminatedConcat(a[1..], b, end);
      assert (a + b)[1..] == a[1..] + b;
      assert a[0] + end + (Terminated(a[1..], end) + Terminated(b, end)) == a[0] + end + Terminated(a[1..], end) + Terminated(b, end);
    }
  }

  lemma PrintLineIsRecord(l: Line<OssKey, Amounts>)
    ensures PrintLine(l) == Terminated(LineFields(l), ";")
  {
    hide Fixed2;
    var f := LineFields(l);
    assert f == [f[0], f[1], f[2]] + [f[3], f[4], f[5]];
    TerminatedConcat([f[0], f[1], f[2]], [f[3], f[4], f[5]], ";");
    Terminated3(f[0], f[1], f[2], ";");
    Terminated3(f[3], f[4], f[5], ";");
    hide Terminated;
    Concat12(f[0], f[1], f[2], f[3], f[4], f[5], ";");
  }

  lemma Concat12(a: string, b: string, c: string, d: string, e: string, f: string, s: string)
    ensures a + s + b + s + c + s + (d + s + e + s + f + s) == a + s + b + s + c + s + d + s + e + s + f + s
  {
    var p := a + s + b + s + c + s;
    assert p + (d + s + e + s + f + s) == p + d + s + e + s + f + s;
  }

  lemma PrintLineInjective(a: Line<OssKey, Amounts>, b: Line<OssKey, Amounts>)
    requires CleanKey(a.key) && CleanKey(b.key)
    ensures PrintLine(a) == PrintLine(b) ==> a == b
  {
    PrintLineIsRecord(a);
    PrintLineIsRecord(b);
    NoSeparators(a.key.rate, ','); NoSeparators(a.value.taxable, ','); NoSeparators(a.value.vat, ',');
    NoSeparators(b.key.rate, ','); NoSeparators(b.value.taxable, ','); NoSeparators(b.value.vat, ',');
    hide Terminated, PrintLine, Fixed2;
    var f, g := LineFields(a), LineFields(b);
    if PrintLine(a) == PrintLine(b) {
      TerminatedInjective(f, g, ";");
      assert f[0] == g[0] && f[1] == g[1] && f[2] == g[2] && f[3] == g[3] && f[4] == g[4] && f[5] == g[5];
      Fixed2Injective(a.key.rate, b.key.rate, ',');
      Fixed2Injective(a.value.taxable, b.value.taxable, ',');
      Fixed2Injective(a.value.vat, b.value.vat, ',');
    }
  }

  lemma CompactText(year: nat, quarter: nat)
    requires year <= 9999 && 1 <= quarter <= 4
    ensures var text := Pad(year, 4) + "Q" + Dec(quarter);
      |text| >= 5 && Value(text[..4]) == year && text[5..] == Dec(quarter) && AllDigits(text[..4]) && Clean(text)
  {
    FourDigits(year);
    ValueOfPad(year, 4);
    hide Pad, Dec, Value;
    var text := Pad(year, 4) + "Q" + Dec(quarter);
    assert text[..4] == Pad(year, 4) && text[5..] == Dec(quarter);
    assert AllDigits(Pad(year, 4)) && AllDigits(Dec(quarter));
  }

  lemma CompactInjective(a: string, b: string)
    requires CanonicalQuarter(a) && CanonicalQuarter(b) && CompactQuarterPeriod(a) == CompactQuarterPeriod(b)
    ensures a == b
  {
    ScannedYear(a);
    ScannedYear(b);
    var (y1, q1) := ScanQuarter(a).value;
    var (y2, q2) := ScanQuarter(b).value;
    CompactText(y1, q1);
    CompactText(y2, q2);
    ValueOfDec(q1);
    ValueOfDec(q2);
  }

  lemma CompactClean(a: string)
    requires CanonicalQuarter(a)
    ensures Clean(CompactQuarterPeriod(a))
  {
    ScannedYear(a);
    CompactText(ScanQuarter(a).value.0, ScanQuarter(a).value.1);
  }

  lemma PrintCorrectionInjective(a: Line<CorrectionKey, int>, b: Line<CorrectionKey, int>)
    requires CleanCorrection(a.key) && CleanCorrection(b.key)
    ensures PrintCorrection(a) == PrintCorrection(b) ==> a == b
  {
    CompactClean(a.key.target);
    CompactClean(b.key.target);
    NoSeparators(a.value, ',');
    NoSeparators(b.value, ',');
    hide CompactQuarterPeriod, Fixed2, CanonicalQuarter;
    var f, g := CorrectionFields(a), CorrectionFields(b);
    Terminated3(f[0], f[1], f[2], ";");
    Terminated3(g[0], g[1], g[2], ";");
    hide Terminated;
    if PrintCorrection(a) == PrintCorrection(b) {
      TerminatedInjective(f, g, ";");
      assert f[0] == g[0] && f[1] == g[1] && f[2] == g[2];
      CompactInjective(a.key.target, b.key.target);
      Fixed2Injective(a.value, b.value, ',');
    }
  }

  // ---------------------------------------------------------------------------
  // Reading a file back
  // ---------------------------------------------------------------------------

  lemma {:induction false} CollectedFrom<A, B>(f: A -> Option<B>, s: seq<A>, x: B) returns (e: A)
    requires x in Collect(f, s)
    ensures e in s && f(e) == Some(x)
  {
    if f(s[|s| - 1]) == Some(x) {
      e := s[|s| - 1];
    } else {
      e := CollectedFrom(f, s[..|s| - 1], x);
    }
  }

  predicate CleanMain(lines: seq<Line<OssKey, Amounts>>) { forall i :: 0 <= i < |lines| ==> CleanKey(lines[i].key) }

  predicate CleanCorrections(lines: seq<Line<CorrectionKey, int>>) {
    forall i :: 0 <= i < |lines| ==> CleanCorrection(lines[i].key)
  }

  lemma MainLinesClean(entries: seq<OssEntry>)
    requires CleanEntries(entries)
    ensures CleanMain(MainLines(entries))
  {
    hide Collect, Lines, SortedKeys;
    var keys, lines := SortedKeys(Taxables(entries), OssLeq), MainLines(entries);
    MainLinesCover(entries);
    SortedKeysListKeys(Taxables(entries), OssLeq);
    LinesFaithful(keys, AmountsAt(Taxables(entries), Vats(entries)), Amounts(0, 0), OssLeq);
    forall i | 0 <= i < |lines| ensures CleanKey(lines[i].key) {
      assert KeysOf(lines)[i] in KeysOf(lines);
      assert lines[i].key in ToSet(keys);
      var x :| x in Taxables(entries) && x.key == lines[i].key;
      var e := CollectedFrom(TaxableOf, entries, x);
    }
  }

  lemma CorrectionLinesClean(entries: seq<OssEntry>)
    requires CleanEntries(entries)
    ensures CleanCorrections(CorrectionLines(entries))
  {
    hide Collect, Lines, SortedKeys;
    var keys, lines := SortedKeys(Corrections(entries), CorrectionLeq), CorrectionLines(entries);
    CorrectionLinesCover(entries);
    SortedKeysListKeys(Corrections(entries), CorrectionLeq);
    LinesFaithful(keys, TotalAt(Corrections(entries)), 0, CorrectionLeq);
    forall i | 0 <= i < |lines| ensures CleanCorrection(lines[i].key) {
      assert KeysOf(lines)[i] in KeysOf(lines);
      assert lines[i].key in ToSet(keys);
      var x :| x in Corrections(entries) && x.key == lines[i].key;
      var e := CollectedFrom(CorrectionOf, entries, x);
    }
  }

  /** A row with a separator in it, and no row end. */
  predicate DataRow(row: string) { ';' in row && '\r' !in row }

  lemma LineIsDataRow(l: Line<OssKey, Amounts>)
    requires CleanKey(l.key)
    ensures DataRow(PrintLine(l))
  {
    NoSeparators(l.key.rate, ','); NoSeparators(l.value.taxable, ','); NoSeparators(l.value.vat, ',');
    hide Fixed2;
    var row := PrintLine(l);
    assert row[|row| - 1] == ';';
  }

  lemma CorrectionIsDataRow(l: Line<CorrectionKey, int>)
    requires CleanCorrection(l.key)
    ensures DataRow(PrintCorrection(l))
  {
    CompactClean(l.key.target);
    NoSeparators(l.value, ',');
    hide Fixed2, CompactQuarterPeriod;
    var row := PrintCorrection(l);
    assert row[|row| - 1] == ';';
  }

  const MARKER := "CORRECTIONS"

  /** Main rows end where the first row without a separator stands. */
  lemma RowsSeparate(a1: seq<string>, b1: seq<string>, a2: seq<string>, b2: seq<string>)
    requires a1 + b1 == a2 + b2
    requires forall r :: r in a1 ==> ';' in r
    requires forall r :: r in a2 ==> ';' in r
    requires b1 == [] || ';' !in b1[0]
    requires b2 == [] || ';' !in b2[0]
    ensures a1 == a2 && b1 == b2
  {
    var all := a1 + b1;
    assert forall i :: 0 <= i < |a1| ==> all[i] == a1[i] && a1[i] in a1;
    assert forall i :: 0 <= i < |a2| ==> all[i] == a2[i] && a2[i] in a2;
    assert b1 != [] ==> all[|a1|] == b1[0];
    assert b2 != [] ==> all[|a2|] == b2[0];
    assert |a1| == |a2|;
    assert all[..|a1|] == a1 && all[..|a2|] == a2;
    assert all[|a1|..] == b1 && all[|a2|..] == b2;
  }

  lemma RowsReadBack(header: seq<string>, a: seq<string>, b: seq<string>)
    requires Join(header + a, CRLF) + CRLF == Join(header + b, CRLF) + CRLF
    requires header != [] && Free('\r', a) && Free('\r', b)
    ensures a == b
  {
    JoinTerminated(header + a, CRLF);
    JoinTerminated(header + b, CRLF);
    TerminatedConcat(header, a, CRLF);
    TerminatedConcat(header, b, CRLF);
    hide Terminated, Join;
    var t := Terminated(header, CRLF);
    assert (t + Terminated(a, CRLF))[|t|..] == Terminated(a, CRLF);
    assert (t + Terminated(b, CRLF))[|t|..] == Terminated(b, CRLF);
    TerminatedInjective(a, b, CRLF);
  }

  lemma MainRowsInjective(a: seq<Line<OssKey, Amounts>>, b: seq<Line<OssKey, Amounts>>)
    requires CleanMain(a) && CleanMain(b) && MapSeq(PrintLine, a) == MapSeq(PrintLine, b)
    ensures a == b
  {
    hide PrintLine, CleanKey;
    forall i | 0 <= i < |a| ensures a[i] == b[i] {
      assert MapSeq(PrintLine, a)[i] == MapSeq(PrintLine, b)[i];
      PrintLineInjective(a[i], b[i]);
    }
  }

  lemma CorrectionRowsInjective(a: seq<Line<CorrectionKey, int>>, b: seq<Line<CorrectionKey, int>>)
    requires CleanCorrections(a) && CleanCorrections(b) && MapSeq(PrintCorrection, a) == MapSeq(PrintCorrection, b)
    ensures a == b
  {
    hide PrintCorrection, CleanCorrection;
    forall i | 0 <= i < |a| ensures a[i] == b[i] {
      assert MapSeq(PrintCorrection, a)[i] == MapSeq(PrintCorrection, b)[i];
      PrintCorrectionInjective(a[i], b[i]);
    }
  }

  function MainPart(entries: seq<OssEntry>): seq<string> { MapSeq(PrintLine, MainLines(entries)) }

  lemma MainPartRows(entries: seq<OssEntry>)
    requires CleanEntries(entries)
    ensures forall r :: r in MainPart(entries) ==> DataRow(r)
  {
    hide PrintLine, MainLines, DataRow;
    MainLinesClean(entries);
    var rows := MainPart(entries);
    forall i | 0 <= i < |rows| ensures DataRow(rows[i]) { LineIsDataRow(MainLines(entries)[i]); }
  }

  lemma CorrectionPartRows(entries: seq<OssEntry>)
    requires CleanEntries(entries)
    ensures var rows := CorrectionRows(entries);
      Free('\r', rows) && (rows == [] || (rows[0] == MARKER && rows[1..] == MapSeq(PrintCorrection, CorrectionLines(entries))))
  {
    hide PrintCorrection, CorrectionLines, Collect;
    CorrectionLinesClean(entries);
    CorrectionsPrinted(CorrectionLines(entries));
    assert Free('\r', [MARKER]);
    var rows := CorrectionRows(entries);
    if rows != [] {
      assert rows == [MARKER] + MapSeq(PrintCorrection, CorrectionLines(entries));
    }
  }

  lemma CorrectionsPrinted(lines: seq<Line<CorrectionKey, int>>)
    requires CleanCorrections(lines)
    ensures Free('\r', MapSeq(PrintCorrection, lines))
  {
    hide PrintCorrection, CleanCorrection;
    forall i | 0 <= i < |lines| ensures '\r' !in MapSeq(PrintCorrection, lines)[i] { CorrectionIsDataRow(lines[i]); }
  }

  /** Both render to a file, and to the same one. */
  predicate SameFile(identifier: string, period: string, a: seq<OssEntry>, b: seq<OssEntry>) {
    OssFile(identifier, period, a).Some? && OssFile(identifier, period, a) == OssFile(identifier, period, b)
  }

  function Body(entries: seq<OssEntry>): seq<string> { MainPart(entries) + CorrectionRows(entries) }

  lemma BodyFree(entries: seq<OssEntry>)
    requires CleanEntries(entries)
    ensures Free('\r', Body(entries))
  {
    MainPartRows(entries);
    CorrectionPartRows(entries);
    hide MainPart, CorrectionRows;
    forall r | r in Body(entries) ensures '\r' !in r { assert r in MainPart(entries) ==> DataRow(r); }
  }

  lemma SameBody(identifier: string, period: string, a: seq<OssEntry>, b: seq<OssEntry>)
    requires CleanEntries(a) && CleanEntries(b)
    ensures SameFile(identifier, period, a, b) ==> Body(a) == Body(b)
  {
    WholeFile(identifier, period, a);
    WholeFile(identifier, period, b);
    BodyFree(a);
    BodyFree(b);
    hide Body, Join, ScanQuarter, OssFile, CleanEntries, Free;
    if SameFile(identifier, period, a, b) {
      var (year, quarter) := ScanQuarter(period).value;
      RowsReadBack(OssHeader(identifier, year, quarter), Body(a), Body(b));
    }
  }

  /** Two files for one period with the same bytes have the same rows, main and correction. */
  lemma OssFileReadBack(identifier: string, period: string, a: seq<OssEntry>, b: seq<OssEntry>)
    requires CleanEntries(a) && CleanEntries(b)
    ensures SameFile(identifier, period, a, b) ==> MainPart(a) == MainPart(b) && CorrectionRows(a) == CorrectionRows(b)
  {
    SameBody(identifier, period, a, b);
    MainPartRows(a);
    MainPartRows(b);
    CorrectionPartRows(a);
    CorrectionPartRows(b);
    hide MainPart, CorrectionRows, SameFile, CleanEntries;
    assert ';' !in MARKER;
    if SameFile(identifier, period, a, b) {
      RowsSeparate(MainPart(a), CorrectionRows(a), MainPart(b), CorrectionRows(b));
    }
  }

  lemma WholeFile(identifier: string, period: string, entries: seq<OssEntry>)
    ensures OssFile(identifier, period, entries).Some? ==>
      && ScanQuarter(period).Some?
      && OssFile(identifier, period, entries).value
        == Join(OssHeader(identifier, ScanQuarter(period).value.0, ScanQuarter(period).value.1) + Body(entries), CRLF) + CRLF
  {
    hide MainLines, CorrectionRows, ScanQuarter, OssHeader, Join;
    if OssFile(identifier, period, entries).Some? {
      var (year, quarter) := ScanQuarter(period).value;
      var header := OssHeader(identifier, year, quarter);
      assert header + MainPart(entries) + CorrectionRows(entries) == header + (MainPart(entries) + CorrectionRows(entries));
    }
  }

  /** For entries without separators in their fields, two files have the same bytes exactly
      when every main key and every correction key has the same totals in both, and both or
      neither have a correction section. */
  lemma OssFileDetermined(identifier: string, period: string, a: seq<OssEntry>, b: seq<OssEntry>)
    requires CleanEntries(a) && CleanEntries(b)
    ensures OssFile(identifier, period, a).Some? ==>
      (OssFile(identifier, period, a) == OssFile(identifier, period, b) <==>
        SameTotals(a, b) && SameCorrections(a, b) && (Corrections(a) == [] <==> Corrections(b) == []))
  {
    MainLinesDetermined(a, b);
    CorrectionLinesDetermined(a, b);
    hide MainLines, CorrectionLines, SameTotals, SameCorrections;
    if SameFile(identifier, period, a, b) {
      OssFileReadBack(identifier, period, a, b);
      MainLinesClean(a);
      MainLinesClean(b);
      MainRowsInjective(MainLines(a), MainLines(b));
      CorrectionPartRows(a);
      CorrectionPartRows(b);
      CorrectionLinesClean(a);
      CorrectionLinesClean(b);
      if CorrectionRows(a) != [] {
        CorrectionRowsInjective(CorrectionLines(a), CorrectionLines(b));
      } else {
        NoCorrections(a);
        NoCorrections(b);
      }
    }
  }

  /** A sale from `origin` to `country`. */
  function SaleTo(origin: string, country: string): OssEntry {
    OssEntry(1, Some(1), "charge:1:sale", "charge", "1", "2026-Q1", "2026-Q1", None, country, origin, "GOODS",
             2500, 10000, 2500, Ready, None)
  }

  lemma OneMainLine(e: OssEntry)
    requires OnMainRow(e) && e.taxable != 0
    ensures MainLines([e]) == [Line(KeyOf(e), Amounts(e.taxable, e.vat))] && Corrections([e]) == []
    ensures forall k ::
      AmountsAt(Taxables([e]), Vats([e]))(k) == if k == KeyOf(e) then Amounts(e.taxable, e.vat) else Amounts(0, 0)
  {
    var key, x, y := KeyOf(e), Keyed(KeyOf(e), e.taxable), Keyed(KeyOf(e), e.vat);
    OneCollected(TaxableOf, e);
    OneCollected(VatOf, e);
    OneCollected(CorrectionOf, e);
    OneKey(x, OssLeq);
    forall k ensures Total([x], k) == (if k == key then e.taxable else 0) && Total([y], k) == if k == key then e.vat else 0 {
      TotalOfOne(x, k);
      TotalOfOne(y, k);
    }
    hide Total, SortedKeys, Collect, OssLeq;
    var value := AmountsAt(Taxables([e]), Vats([e]));
    assert [key][..0] == [] && value(key) == Amounts(e.taxable, e.vat);
    assert Lines([key][..0], value, Amounts(0, 0)) == [];
    assert Lines([key], value, Amounts(0, 0)) == [Line(key, value(key))];
  }

  lemma OneCollected<A, B>(f: A -> Option<B>, x: A)
    ensures Collect(f, [x]) == match f(x) case None => [] case Some(y) => [y]
  {
    CollectSnoc(f, [], x);
    assert [] + [x] == [x];
  }

  lemma OneKey<K>(x: Keyed<K>, leq: (K, K) -> bool)
    ensures SortedKeys([x], leq) == [x.key]
  {
    assert [x][..0] == [];
    assert FirstKeys([x]) == [x.key];
    assert SortBy([x.key][1..], leq) == [];
    assert Insert(x.key, [], leq) == [x.key];
    assert SortBy([x.key], leq) == Insert(x.key, SortBy([x.key][1..], leq), leq);
  }

  /** The renderer itself, given any entries, needs the hypothesis: "A;" with "B" prints the same row
      as "A" with ";B". No table holds such rows; see `StoredFiles.StoredFileDetermined`. */
  lemma SeparatorsConfuse(identifier: string, period: string)
    ensures OssFile(identifier, period, [SaleTo("A;", "B")]) == OssFile(identifier, period, [SaleTo("A", ";B")])
    ensures !SameTotals([SaleTo("A;", "B")], [SaleTo("A", ";B")])
  {
    var a, b := SaleTo("A;", "B"), SaleTo("A", ";B");
    OneMainLine(a);
    OneMainLine(b);
    assert "A;" != "A" by { assert |"A;"| != |"A"|; }
    var la, lb := Line(KeyOf(a), Amounts(10000, 2500)), Line(KeyOf(b), Amounts(10000, 2500));
    assert "A;" + ";" + "B" == "A" + ";" + ";B";
    assert PrintLine(la) == PrintLine(lb);
    hide MainLines, PrintLine, AmountsAt, Encode;
    assert MapSeq(PrintLine, [la]) == MapSeq(PrintLine, [lb]);
    assert AmountsAt(Taxables([a]), Vats([a]))(KeyOf(a)) != AmountsAt(Taxables([b]), Vats([b]))(KeyOf(a));
  }

  lemma NoCorrections(entries: seq<OssEntry>)
    requires Corrections(entries) == []
    ensures CorrectionLines(entries) == []
  {
    SortedKeysListKeys(Corrections(entries), CorrectionLeq);
    NoKeys(Corrections(entries), SortedKeys(Corrections(entries), CorrectionLeq));
  }

  // ---------------------------------------------------------------------------
  // Periodic summary
  // ---------------------------------------------------------------------------

  function ReadyAmount(rowType: string): PsEntry -> int {
    (e: PsEntry) => if e.state.Ready? && e.rowType == rowType then e.exported else 0
  }

  function GoodsOf(s: BuyerSales): int { s.goods.GetOr(0) }

  function ServicesOf(s: BuyerSales): int { s.services.GetOr(0) }

  lemma {:induction false} SellersAreBuyers(entries: seq<PsEntry>, rowType: string)
    ensures KeySet(Sales(entries, rowType)) <= KeySet(Buyers(entries))
  {
    if entries != [] {
      var front, e := entries[..|entries| - 1], entries[|entries| - 1];
      SellersAreBuyers(front, rowType);
      if e.state.Ready? {
        KeySetSnoc(Buyers(front), Keyed(e.buyer, 0));
        if e.rowType == rowType { KeySetSnoc(Sales(front, rowType), Keyed(e.buyer, e.exported)); }
      }
    }
  }

  lemma ShownAmount(sales: seq<Keyed<string>>, buyer: string)
    ensures Shown(sales, buyer).GetOr(0) == Total(sales, buyer)
  {
    if buyer !in KeySet(sales) { TotalOfAbsentKey(sales, buyer); }
  }

  /** Each column adds up to the exported amounts of the ready entries of its row type. */
  lemma PsConserves(entries: seq<PsEntry>)
    ensures SumOf(BuyerLines(entries), GoodsOf) == SumBy(entries, ReadyAmount("goods"))
    ensures SumOf(BuyerLines(entries), ServicesOf) == SumBy(entries, ReadyAmount("services"))
  {
    hide SortedKeys, Lines, Total, Collect, SumBy, Shown;
    var goods, services := Sales(entries, "goods"), Sales(entries, "services");
    var keys := SortedKeys(Buyers(entries), StringLeq);
    SortedKeysListKeys(Buyers(entries), StringLeq);
    SellersAreBuyers(entries, "goods");
    SellersAreBuyers(entries, "services");
    forall b ensures Shown(goods, b).GetOr(0) == Total(goods, b) && Shown(services, b).GetOr(0) == Total(services, b) {
      ShownAmount(goods, b);
      ShownAmount(services, b);
    }
    TableConserves(keys, SalesAt(goods, services), BuyerSales(None, None), GoodsOf, goods);
    TableConserves(keys, SalesAt(goods, services), BuyerSales(None, None), ServicesOf, services);
    CollectedSum(SaleOf("goods"), entries, ReadyAmount("goods"));
    CollectedSum(SaleOf("services"), entries, ReadyAmount("services"));
  }

  function SalesIn(entries: seq<PsEntry>): string -> BuyerSales { SalesAt(Sales(entries, "goods"), Sales(entries,
                   "services")) }

  ghost predicate SameSales(a: seq<PsEntry>, b: seq<PsEntry>) {
    forall buyer :: SalesIn(a)(buyer) == SalesIn(b)(buyer)
  }

  lemma BuyerLinesCover(entries: seq<PsEntry>)
    ensures var keys := SortedKeys(Buyers(entries), StringLeq);
      Distinct(keys) && Sorted(keys, StringLeq) && Covers(keys, SalesIn(entries), BuyerSales(None, None))
  {
    StringOrder();
    SellersAreBuyers(entries, "goods");
    SellersAreBuyers(entries, "services");
    hide TotalOrder, SortedKeys, Collect;
    SortedKeysCover(Buyers(entries), StringLeq, SalesIn(entries), BuyerSales(None, None));
  }

  lemma BuyerLinesDetermined(a: seq<PsEntry>, b: seq<PsEntry>)
    ensures BuyerLines(a) == BuyerLines(b) <==> SameSales(a, b)
  {
    hide SortedKeys, Lines, Total, Collect, TotalOrder, StringLeq, Covers;
    StringOrder();
    BuyerLinesCover(a);
    BuyerLinesCover(b);
    LinesDetermineValues(SortedKeys(Buyers(a), StringLeq), SalesIn(a), SortedKeys(Buyers(b), StringLeq), SalesIn(b),
                         BuyerSales(None, None), StringLeq);
  }

  lemma PsFilePermutation(r: Reporter, period: string, a: seq<PsEntry>, b: seq<PsEntry>)
    requires multiset(a) == multiset(b)
    ensures PsFile(r, period, a) == PsFile(r, period, b)
  {
    CollectPermutation(SaleOf("goods"), a, b);
    CollectPermutation(SaleOf("services"), a, b);
    KeySetPermutation(Sales(a, "goods"), Sales(b, "goods"));
    KeySetPermutation(Sales(a, "services"), Sales(b, "services"));
    hide Collect, BuyerLines, KeySet;
    forall buyer ensures SalesIn(a)(buyer) == SalesIn(b)(buyer) {
      TotalPermutation(Sales(a, "goods"), Sales(b, "goods"), buyer);
      TotalPermutation(Sales(a, "services"), Sales(b, "services"), buyer);
    }
    BuyerLinesDetermined(a, b);
  }

  /** No buyer's number holds a row end. */
  predicate CleanBuyers(entries: seq<PsEntry>) {
    forall e :: e in entries && e.state.Ready? ==> '\r' !in e.buyer
  }

  lemma AmountFieldClean(amount: Option<int>)
    ensures Clean(AmountField(amount))
  {
    if amount.Some? {
      var a: nat := if amount.value < 0 then -amount.value else amount.value;
      assert AllDigits(Dec(a));
    }
  }

  lemma AmountFieldInjective(a: Option<int>, b: Option<int>)
    requires AmountField(a) == AmountField(b)
    ensures a == b
  {
    if a.Some? && b.Some? { DecIntInjective(a.value, b.value); }
  }

  lemma LastSeparator(a: string, r: string, b: string, s: string, c: char)
    requires c !in r && c !in s
    requires a + [c] + r == b + [c] + s
    ensures a == b && r == s
  {
    var t := a + [c] + r;
    assert t[|a|] == c && t[|b|] == c;
    assert forall i :: |b| < i < |t| ==> t[i] == s[i - |b| - 1];
    assert forall i :: |a| < i < |t| ==> t[i] == r[i - |a| - 1];
    assert t[..|a|] == a && t[..|a|] == b;
    assert t[|a| + 1..] == r && t[|a| + 1..] == s;
  }

  lemma BuyerEnd(l: Line<string, BuyerSales>)
    ensures PrintBuyer(l) == l.key + [';'] + AmountField(l.value.goods) + ([';'] + [';'] + AmountField(l.value.services) + [';'])
    ensures PrintBuyer(l) == l.key + [';'] + AmountField(l.value.goods) + [';'] + [';'] + AmountField(l.value.services) + [';']
  {
    hide AmountField;
  }

  /** A buyer's row is read back from its end, where the amounts are: the number may be anything. */
  lemma PrintBuyerInjective(a: Line<string, BuyerSales>, b: Line<string, BuyerSales>)
    requires PrintBuyer(a) == PrintBuyer(b)
    ensures a == b
  {
    BuyerEnd(a);
    BuyerEnd(b);
    AmountFieldClean(a.value.goods); AmountFieldClean(a.value.services);
    AmountFieldClean(b.value.goods); AmountFieldClean(b.value.services);
    hide PrintBuyer, AmountField;
    var g1, s1, g2, s2 :=
      AmountField(a.value.goods), AmountField(a.value.services), AmountField(b.value.goods), AmountField(b.value.services);
    var p1, p2 := a.key + [';'] + g1, b.key + [';'] + g2;
    OffTheEnd(p1 + [';'] + [';'] + s1, p2 + [';'] + [';'] + s2);
    LastSeparator(p1 + [';'], s1, p2 + [';'], s2, ';');
    OffTheEnd(p1, p2);
    LastSeparator(a.key, g1, b.key, g2, ';');
    AmountFieldInjective(a.value.goods, b.value.goods);
    AmountFieldInjective(a.value.services, b.value.services);
  }

  lemma OffTheEnd(a: string, b: string)
    requires a + [';'] == b + [';']
    ensures a == b
  {
    assert (a + [';'])[..|a|] == a && (b + [';'])[..|b|] == b;
  }

  predicate CleanBuyerLines(lines: seq<Line<string, BuyerSales>>) {
    forall i :: 0 <= i < |lines| ==> '\r' !in lines[i].key
  }

  lemma BuyerLinesClean(entries: seq<PsEntry>)
    requires CleanBuyers(entries)
    ensures CleanBuyerLines(BuyerLines(entries))
  {
    hide Collect, Lines, SortedKeys;
    var keys, lines := SortedKeys(Buyers(entries), StringLeq), BuyerLines(entries);
    BuyerLinesCover(entries);
    SortedKeysListKeys(Buyers(entries), StringLeq);
    LinesFaithful(keys, SalesIn(entries), BuyerSales(None, None), StringLeq);
    forall i | 0 <= i < |lines| ensures '\r' !in lines[i].key {
      assert KeysOf(lines)[i] in KeysOf(lines);
      assert lines[i].key in ToSet(keys);
      var x :| x in Buyers(entries) && x.key == lines[i].key;
      var e := CollectedFrom(BuyerOf, entries, x);
    }
  }

  lemma BuyerIsRow(l: Line<string, BuyerSales>)
    requires '\r' !in l.key
    ensures '\r' !in PrintBuyer(l)
  {
    AmountFieldClean(l.value.goods);
    AmountFieldClean(l.value.services);
  }

  lemma BuyersPrinted(lines: seq<Line<string, BuyerSales>>)
    requires CleanBuyerLines(lines)
    ensures Free('\r', MapSeq(PrintBuyer, lines))
  {
    hide PrintBuyer;
    forall i | 0 <= i < |lines| ensures '\r' !in MapSeq(PrintBuyer, lines)[i] { BuyerIsRow(lines[i]); }
  }

  lemma BuyerRowsInjective(a: seq<Line<string, BuyerSales>>, b: seq<Line<string, BuyerSales>>)
    requires MapSeq(PrintBuyer, a) == MapSeq(PrintBuyer, b)
    ensures a == b
  {
    hide PrintBuyer;
    forall i | 0 <= i < |a| ensures a[i] == b[i] {
      assert MapSeq(PrintBuyer, a)[i] == MapSeq(PrintBuyer, b)[i];
      PrintBuyerInjective(a[i], b[i]);
    }
  }

  /** For buyers without row ends in their numbers, two files have the same bytes exactly
      when every buyer has the same goods and services in both. */
  lemma PsFileDetermined(r: Reporter, period: string, a: seq<PsEntry>, b: seq<PsEntry>)
    requires CleanBuyers(a) && CleanBuyers(b)
    requires PsFile(r, period, a).Some?
    ensures PsFile(r, period, a) == PsFile(r, period, b) <==> SameSales(a, b)
  {
    BuyerLinesDetermined(a, b);
    hide BuyerLines, SameSales;
    if PsFile(r, period, a) == PsFile(r, period, b) {
      BuyerLinesClean(a);
      BuyerLinesClean(b);
      BuyersPrinted(BuyerLines(a));
      BuyersPrinted(BuyerLines(b));
      RowsReadBack(PsHeader(r, period), MapSeq(PrintBuyer, BuyerLines(a)), MapSeq(PrintBuyer, BuyerLines(b)));
      BuyerRowsInjective(BuyerLines(a), BuyerLines(b));
    }
  }

  // ---------------------------------------------------------------------------
  // Whole kronor
  // ---------------------------------------------------------------------------

  lemma WholeSekIsRounded(amount: int)
    ensures OreToWholeSek(amount) == Round(amount, 100)
  {}

  /** The integer arithmetic of the code rounds to the nearest krona, halves away from zero: it is
      odd, off by at most 50 ore, and exact for whole kronor. */
  lemma WholeSekIsNearest(amount: int)
    ensures OreToWholeSek(amount) == Round(amount, 100)
    ensures OreToWholeSek(-amount) == -OreToWholeSek(amount)
    ensures -50 <= 100 * OreToWholeSek(amount) - amount <= 50
    ensures amount % 100 == 0 ==> 100 * OreToWholeSek(amount) == amount
  {
    WholeSekIsRounded(amount);
    WholeSekIsRounded(-amount);
    hide OreToWholeSek, Round;
    RoundOdd(amount, 100);
    RoundError(amount, 100);
    if amount % 100 == 0 { RoundWhole(amount / 100, 100); }
  }

  function OreOf(rowType: string): PsEntry -> Option<Keyed<string>> {
    (e: PsEntry) => if e.state.Ready? && e.rowType == rowType then Some(Keyed(e.buyer, e.amountOre)) else None
  }

  function CountOf(entries: seq<PsEntry>, rowType: string, buyer: string): nat {
    if entries == [] then 0
    else
      var e := entries[|entries| - 1];
      CountOf(entries[..|entries| - 1], rowType, buyer) + if e.state.Ready? && e.rowType == rowType && e.buyer == buyer then 1 else 0
  }

  lemma ErrorGrows(total: int, ore: int, n: int, exported: int, amount: int)
    requires -50 * n <= 100 * total - ore <= 50 * n && -50 <= 100 * exported - amount <= 50
    ensures -50 * (n + 1) <= 100 * (total + exported) - (ore + amount) <= 50 * (n + 1)
  {}

  /** A buyer's printed total is within 50 ore per entry of the true sum. */
  lemma {:induction false} BuyerTotalNear(entries: seq<PsEntry>, rowType: string, buyer: string)
    requires forall e :: e in entries ==> e.exported == OreToWholeSek(e.amountOre)
    ensures var error := 100 * Total(Sales(entries, rowType), buyer) - Total(Collect(OreOf(rowType), entries), buyer);
      -50 * CountOf(entries, rowType, buyer) <= error <= 50 * CountOf(entries, rowType, buyer)
  {
    hide Total, OreToWholeSek;
    if entries == [] {
      NothingSold(buyer);
    } else {
      var front, e := entries[..|entries| - 1], entries[|entries| - 1];
      assert entries == front + [e];
      BuyerTotalNear(front, rowType, buyer);
      WholeSekIsNearest(e.amountOre);
      CollectSnoc(SaleOf(rowType), front, e);
      CollectSnoc(OreOf(rowType), front, e);
      TotalSnoc(Sales(front, rowType), Keyed(e.buyer, e.exported), buyer);
      TotalSnoc(Collect(OreOf(rowType), front), Keyed(e.buyer, e.amountOre), buyer);
      hide Collect;
      ErrorGrows(Total(Sales(front, rowType), buyer), Total(Collect(OreOf(rowType), front), buyer), CountOf(front, rowType, buyer),
                 if e.buyer == buyer then e.exported else 0, if e.buyer == buyer then e.amountOre else 0);
    }
  }

  lemma NothingSold(buyer: string)
    ensures Total<string>([], buyer) == 0
  {}
}
