/** internal/filings/render.go: the two files that are sent to the tax agency.

    A file is text in ISO-8859-1, one byte per character, rows ended by CR LF. */
module Render {
  import opened Grouping
  import opened Text
  import opened Periods
  import opened Filing
  import opened Listing

  const CRLF := "\r\n"

  function Encode(rows: seq<string>): Option<string>
  {
    var text := Join(rows, CRLF) + CRLF;
    if Latin1(text) then Some(text) else None
  }

  // ---------------------------------------------------------------------------
  // OSS: what is printed
  // ---------------------------------------------------------------------------

  datatype OssKey = OssKey(origin: string, country: string, rate: int, saleType: string)

  datatype CorrectionKey = CorrectionKey(target: string, country: string)

  predicate OssLeq(a: OssKey, b: OssKey) {
    if a.origin != b.origin then StringLeq(a.origin, b.origin)
    else if a.country != b.country then StringLeq(a.country, b.country)
    else if a.rate != b.rate then a.rate <= b.rate
    else StringLeq(a.saleType, b.saleType)
  }

  predicate CorrectionLeq(a: CorrectionKey, b: CorrectionKey) {
    if a.target != b.target then StringLeq(a.target, b.target) else StringLeq(a.country, b.country)
  }

  predicate OnMainRow(e: OssEntry) { e.state.Ready? && e.correctionTarget.None? }

  predicate OnCorrectionRow(e: OssEntry) { e.state.Ready? && e.correctionTarget.Some? }

  function KeyOf(e: OssEntry): OssKey { OssKey(e.origin, e.country, e.rate, e.saleType) }

  function TaxableOf(e: OssEntry): Option<Keyed<OssKey>> {
    if OnMainRow(e) then Some(Keyed(KeyOf(e), e.taxable)) else None
  }

  function VatOf(e: OssEntry): Option<Keyed<OssKey>> {
    if OnMainRow(e) then Some(Keyed(KeyOf(e), e.vat)) else None
  }

  function CorrectionOf(e: OssEntry): Option<Keyed<CorrectionKey>> {
    if OnCorrectionRow(e) then Some(Keyed(CorrectionKey(e.correctionTarget.value, e.country), e.vat)) else None
  }

  function Taxables(entries: seq<OssEntry>): seq<Keyed<OssKey>> { Collect(TaxableOf, entries) }

  function Vats(entries: seq<OssEntry>): seq<Keyed<OssKey>> { Collect(VatOf, entries) }

  function Corrections(entries: seq<OssEntry>): seq<Keyed<CorrectionKey>> { Collect(CorrectionOf, entries) }

  datatype Amounts = Amounts(taxable: int, vat: int)

  function AmountsAt(taxables: seq<Keyed<OssKey>>, vats: seq<Keyed<OssKey>>): OssKey -> Amounts {
    (k: OssKey) => Amounts(Total(taxables, k), Total(vats, k))
  }

  /** Totals per key in key order, without the keys whose totals are both zero. */
  function MainLines(entries: seq<OssEntry>): seq<Line<OssKey, Amounts>> {
    Lines(SortedKeys(Taxables(entries), OssLeq), AmountsAt(Taxables(entries), Vats(entries)), Amounts(0, 0))
  }

  function TotalAt(amounts: seq<Keyed<CorrectionKey>>): CorrectionKey -> int {
    (k: CorrectionKey) => Total(amounts, k)
  }

  function CorrectionLines(entries: seq<OssEntry>): seq<Line<CorrectionKey, int>> {
    Lines(SortedKeys(Corrections(entries), CorrectionLeq), TotalAt(Corrections(entries)), 0)
  }

  function PrintLine(l: Line<OssKey, Amounts>): string {
    l.key.origin + ";" + l.key.country + ";" + Fixed2(l.key.rate, ',') + ";" + Fixed2(l.value.taxable, ',') + ";"
    + Fixed2(l.value.vat, ',') + ";" + l.key.saleType + ";"
  }

  function CompactQuarterPeriod(period: string): string {
    match ScanQuarter(period) case None => period case Some((year, quarter)) => Pad(year, 4) + "Q" + Dec(quarter)
  }

  function PrintCorrection(l: Line<CorrectionKey, int>): string {
    CompactQuarterPeriod(l.key.target) + ";" + l.key.country + ";" + Fixed2(l.value, ',') + ";"
  }

  function OssHeader(identifier: string, year: nat, quarter: nat): seq<string> {
    ["OSS_001;", identifier + ";" + Dec(quarter) + ";" + Pad(year, 4) + ";"]
  }

  function CorrectionRows(entries: seq<OssEntry>): seq<string> {
    if Corrections(entries) == [] then [] else ["CORRECTIONS"] + MapSeq(PrintCorrection, CorrectionLines(entries))
  }

  /** The content of the OSS file; None for an invalid period or a character that ISO-8859-1
      does not have. `identifier` is the configured number without surrounding blanks. */
  function OssFile(identifier: string, period: string, entries: seq<OssEntry>): Option<string> {
    match ScanQuarter(period)
    case None => None
    case Some((year, quarter)) =>
      Encode(OssHeader(identifier, year, quarter) + MapSeq(PrintLine, MainLines(entries)) + CorrectionRows(entries))
  }

  // ---------------------------------------------------------------------------
  // OSS: the code
  // ---------------------------------------------------------------------------

  lemma OssOrder()
    ensures TotalOrder(OssLeq)
  {
    StringOrder();
    hide StringLeq;
    forall a, b ensures OssLeq(a, b) || OssLeq(b, a) {}
    forall a, b | OssLeq(a, b) && OssLeq(b, a) ensures a == b {}
    forall a, b, c | OssLeq(a, b) && OssLeq(b, c) ensures OssLeq(a, c) {
      OssTransitive(a, b, c);
    }
  }

  lemma OssTransitive(a: OssKey, b: OssKey, c: OssKey)
    requires OssLeq(a, b) && OssLeq(b, c)
    ensures OssLeq(a, c)
  {
    StringOrder();
    hide StringLeq;
  }

  lemma CorrectionOrder()
    ensures TotalOrder(CorrectionLeq)
  {
    StringOrder();
    hide StringLeq;
    forall a, b, c | CorrectionLeq(a, b) && CorrectionLeq(b, c) ensures CorrectionLeq(a, c) {}
  }

  ghost predicate TabulatesBoth(main: map<OssKey, Amounts>, taxables: seq<Keyed<OssKey>>, vats: seq<Keyed<OssKey>>) {
    && main.Keys == KeySet(taxables) == KeySet(vats)
    && forall k :: k in main ==> main[k] == Amounts(Total(taxables, k), Total(vats, k))
  }

  /** The value a map yields for a missing key is zero. */
  function Get(main: map<OssKey, Amounts>, k: OssKey): Amounts { if k in main then main[k] else Amounts(0, 0) }

  lemma AddBoth(main: map<OssKey, Amounts>, taxables: seq<Keyed<OssKey>>, vats: seq<Keyed<OssKey>>, k: OssKey,
                taxable: int, vat: int)
    requires TabulatesBoth(main, taxables, vats)
    ensures TabulatesBoth(main[k := Amounts(Get(main, k).taxable + taxable, Get(main, k).vat + vat)],
                          taxables + [Keyed(k, taxable)], vats + [Keyed(k, vat)])
  {
    KeySetSnoc(taxables, Keyed(k, taxable));
    KeySetSnoc(vats, Keyed(k, vat));
    if k !in main { TotalOfAbsentKey(taxables, k); TotalOfAbsentKey(vats, k); }
    forall k' ensures Total(taxables + [Keyed(k, taxable)], k') == Total(taxables, k') + if k == k' then taxable else 0 {
      TotalSnoc(taxables, Keyed(k, taxable), k');
    }
    forall k' ensures Total(vats + [Keyed(k, vat)], k') == Total(vats, k') + if k == k' then vat else 0 {
      TotalSnoc(vats, Keyed(k, vat), k');
    }
  }

  method SumOssEntries(entries: seq<OssEntry>) returns (main: map<OssKey, Amounts>, corrections: map<CorrectionKey, int>)
    ensures TabulatesBoth(main, Taxables(entries), Vats(entries))
    ensures Tabulates(corrections, Corrections(entries))
  {
    hide Total, KeySet;
    main, corrections := map[], map[];
    assert TabulatesBoth(main, [], []) && Tabulates(corrections, []) by { NothingTabulated(); }
    for i := 0 to |entries|
      invariant TabulatesBoth(main, Taxables(entries[..i]), Vats(entries[..i]))
      invariant Tabulates(corrections, Corrections(entries[..i]))
    {
      var entry := entries[i];
      assert entries[..i + 1][..i] == entries[..i];
      if entry.state != Ready { continue; }
      if entry.correctionTarget.Some? {
        var key := CorrectionKey(entry.correctionTarget.value, entry.country);
        AddTabulates(corrections, Corrections(entries[..i]), Keyed(key, entry.vat));
        corrections := Add(corrections, key, entry.vat);
        continue;
      }
      var key := OssKey(entry.origin, entry.country, entry.rate, entry.saleType);
      var line := Get(main, key);
      AddBoth(main, Taxables(entries[..i]), Vats(entries[..i]), key, entry.taxable, entry.vat);
      main := main[key := Amounts(line.taxable + entry.taxable, line.vat + entry.vat)];
    }
    assert entries[..|entries|] == entries;
  }

  lemma NothingTabulated()
    ensures TabulatesBoth(map[], [], [])
    ensures Tabulates<CorrectionKey>(map[], [])
    ensures Tabulates<string>(map[], [])
  {}

  method MainRows(keys: seq<OssKey>, main: map<OssKey, Amounts>, ghost taxables: seq<Keyed<OssKey>>,
                  ghost vats: seq<Keyed<OssKey>>)
    returns (rows: seq<string>)
    requires TabulatesBoth(main, taxables, vats) && ToSet(keys) == main.Keys
    ensures rows == MapSeq(PrintLine, Lines(keys, AmountsAt(taxables, vats), Amounts(0, 0)))
  {
    hide PrintLine, Total, KeySet;
    rows := [];
    for i := 0 to |keys|
      invariant rows == MapSeq(PrintLine, Lines(keys[..i], AmountsAt(taxables, vats), Amounts(0, 0)))
    {
      assert keys[i] in ToSet(keys);
      assert keys[..i + 1][..i] == keys[..i];
      var line := main[keys[i]];
      if line.taxable == 0 && line.vat == 0 { continue; }
      rows := rows + [PrintLine(Line(keys[i], line))];
    }
    assert keys[..|keys|] == keys;
  }

  method CorrectionRowsFor(keys: seq<CorrectionKey>, corrections: map<CorrectionKey, int>,
                           ghost amounts: seq<Keyed<CorrectionKey>>)
    returns (rows: seq<string>)
    requires Tabulates(corrections, amounts) && ToSet(keys) == corrections.Keys
    ensures rows == MapSeq(PrintCorrection, Lines(keys, TotalAt(amounts), 0))
  {
    hide PrintCorrection, Total, KeySet;
    rows := [];
    for i := 0 to |keys|
      invariant rows == MapSeq(PrintCorrection, Lines(keys[..i], TotalAt(amounts), 0))
    {
      assert keys[i] in ToSet(keys);
      assert keys[..i + 1][..i] == keys[..i];
      if corrections[keys[i]] == 0 { continue; }
      rows := rows + [PrintCorrection(Line(keys[i], corrections[keys[i]]))];
    }
    assert keys[..|keys|] == keys;
  }

  lemma NoKeys<K>(xs: seq<Keyed<K>>, keys: seq<K>)
    requires ToSet(keys) == KeySet(xs)
    ensures keys == [] <==> xs == []
  {
    if xs != [] { assert xs[0] in xs && xs[0].key in KeySet(xs); }
    if keys != [] { assert keys[0] in ToSet(keys); }
  }

  method RenderOssUnion(identifier: string, period: string, entries: seq<OssEntry>) returns (content: Option<string>)
    ensures content == OssFile(identifier, period, entries)
  {
    hide TotalOrder, SortedKeys, Lines, PrintLine, PrintCorrection, TabulatesBoth, Encode;
    var main, corrections := SumOssEntries(entries);
    var parts := ScanQuarter(period);
    if parts.None? { return None; }
    var (year, quarter) := parts.value;
    var rows := OssHeader(identifier, year, quarter);
    OssOrder();
    TabulatedKeys(main, Taxables(entries), Vats(entries));
    var mainKeys := SortedMapKeys(main.Keys, OssLeq, Taxables(entries));
    var mainRows := MainRows(mainKeys, main, Taxables(entries), Vats(entries));
    rows := rows + mainRows;
    CorrectionOrder();
    var correctionKeys := SortedMapKeys(corrections.Keys, CorrectionLeq, Corrections(entries));
    NoKeys(Corrections(entries), correctionKeys);
    if |correctionKeys| > 0 {
      var correctionRows := CorrectionRowsFor(correctionKeys, corrections, Corrections(entries));
      rows := rows + (["CORRECTIONS"] + correctionRows);
    } else {
      assert rows + [] == rows;
    }
    return Encode(rows);
  }

  lemma TabulatedKeys(main: map<OssKey, Amounts>, taxables: seq<Keyed<OssKey>>, vats: seq<Keyed<OssKey>>)
    requires TabulatesBoth(main, taxables, vats)
    ensures main.Keys == KeySet(taxables)
  {}

  // ---------------------------------------------------------------------------
  // Periodic summary
  // ---------------------------------------------------------------------------

  function SaleOf(rowType: string): PsEntry -> Option<Keyed<string>> {
    (e: PsEntry) => if e.state.Ready? && e.rowType == rowType then Some(Keyed(e.buyer, e.exported)) else None
  }

  function BuyerOf(e: PsEntry): Option<Keyed<string>> {
    if e.state.Ready? then Some(Keyed(e.buyer, 0)) else None
  }

  /** Exported amounts of the ready entries of one row type, by buyer. */
  function Sales(entries: seq<PsEntry>, rowType: string): seq<Keyed<string>> { Collect(SaleOf(rowType), entries) }

  /** The buyers of the ready entries, whatever their row type. */
  function Buyers(entries: seq<PsEntry>): seq<Keyed<string>> { Collect(BuyerOf, entries) }

  /** What a buyer's row shows: an amount per row type that occurs. */
  datatype BuyerSales = BuyerSales(goods: Option<int>, services: Option<int>)

  function Shown(sales: seq<Keyed<string>>, buyer: string): Option<int> {
    if buyer in KeySet(sales) then Some(Total(sales, buyer)) else None
  }

  function SalesAt(goods: seq<Keyed<string>>, services: seq<Keyed<string>>): string -> BuyerSales {
    (buyer: string) => BuyerSales(Shown(goods, buyer), Shown(services, buyer))
  }

  function BuyerLines(entries: seq<PsEntry>): seq<Line<string, BuyerSales>> {
    Lines(SortedKeys(Buyers(entries), StringLeq), SalesAt(Sales(entries, "goods"), Sales(entries, "services")), BuyerSales(None, None))
  }

  function AmountField(amount: Option<int>): string {
    match amount case None => "" case Some(n) => DecInt(n)
  }

  function PrintBuyer(l: Line<string, BuyerSales>): string {
    l.key + ";" + AmountField(l.value.goods) + ";;" + AmountField(l.value.services) + ";"
  }

  function PsPeriodCode(period: string): string {
    if |period| != 7 then period else period[2..4] + period[5..7]
  }

  datatype Reporter = Reporter(vatNumber: string, name: string, phone: string, email: string)

  function PsHeader(r: Reporter, period: string): seq<string> {
    ["SKV574008;", r.vatNumber + ";" + PsPeriodCode(period) + ";" + r.name + ";" + r.phone + ";" + r.email]
  }

  function PsFile(r: Reporter, period: string, entries: seq<PsEntry>): Option<string> {
    Encode(PsHeader(r, period) + MapSeq(PrintBuyer, BuyerLines(entries)))
  }

  datatype Totals = Totals(goods: int, services: int, hasGoods: bool, hasServices: bool)

  function NoTotals(): Totals { Totals(0, 0, false, false) }

  ghost predicate TabulatesBuyers(grouped: map<string, Totals>, buyers: seq<Keyed<string>>, goods: seq<Keyed<string>>,
                                  services: seq<Keyed<string>>) {
    && grouped.Keys == KeySet(buyers)
    && KeySet(goods) <= KeySet(buyers) && KeySet(services) <= KeySet(buyers)
    && forall b :: b in grouped ==>
      grouped[b] == Totals(Total(goods, b), Total(services, b), b in KeySet(goods), b in KeySet(services))
  }

  lemma AddSale(sales: seq<Keyed<string>>, buyer: string, amount: int, b: string)
    ensures Total(sales + [Keyed(buyer, amount)], b) == Total(sales, b) + if b == buyer then amount else 0
    ensures KeySet(sales + [Keyed(buyer, amount)]) == KeySet(sales) + {buyer}
    ensures buyer !in KeySet(sales) ==> Total(sales, buyer) == 0
  {
    TotalSnoc(sales, Keyed(buyer, amount), b);
    KeySetSnoc(sales, Keyed(buyer, amount));
    if buyer !in KeySet(sales) { TotalOfAbsentKey(sales, buyer); }
  }

  /** `total := grouped[buyer]`, changed according to the entry's row type. */
  function WithSale(total: Totals, e: PsEntry): Totals {
    if e.rowType == "goods" then total.(goods := total.goods + e.exported, hasGoods := true)
    else if e.rowType == "services" then total.(services := total.services + e.exported, hasServices := true)
    else total
  }

  function GetTotals(grouped: map<string, Totals>, buyer: string): Totals {
    if buyer in grouped then grouped[buyer] else NoTotals()
  }

  function OneSale(e: PsEntry, rowType: string): seq<Keyed<string>> {
    if e.state.Ready? && e.rowType == rowType then [Keyed(e.buyer, e.exported)] else []
  }

  lemma AddBuyer(grouped: map<string, Totals>, buyers: seq<Keyed<string>>, goods: seq<Keyed<string>>,
                 services: seq<Keyed<string>>, e: PsEntry)
    requires TabulatesBuyers(grouped, buyers, goods, services) && e.state.Ready?
    ensures TabulatesBuyers(grouped[e.buyer := WithSale(GetTotals(grouped, e.buyer), e)], buyers + [Keyed(e.buyer, 0)],
                            goods + OneSale(e, "goods"), services + OneSale(e, "services"))
  {
    hide Total, KeySet;
    assert "goods" != "services" by { assert |"goods"| != |"services"|; }
    assert goods + [] == goods && services + [] == services;
    forall b ensures AllOfSale(buyers, goods, services, e, b) {
      AddSale(buyers, e.buyer, 0, b);
      AddSale(goods, e.buyer, e.exported, b);
      AddSale(services, e.buyer, e.exported, b);
    }
    if e.buyer !in grouped { TotalOfAbsentKey(goods, e.buyer); TotalOfAbsentKey(services, e.buyer); }
    var after := grouped[e.buyer := WithSale(GetTotals(grouped, e.buyer), e)];
    var goods', services' := goods + OneSale(e, "goods"), services + OneSale(e, "services");
    assert AllOfSale(buyers, goods, services, e, e.buyer);
    forall b | b in after
      ensures after[b] == Totals(Total(goods', b), Total(services', b), b in KeySet(goods'), b in KeySet(services'))
    {
      assert AllOfSale(buyers, goods, services, e, b);
    }
  }

  ghost predicate AllOfSale(buyers: seq<Keyed<string>>, goods: seq<Keyed<string>>, services: seq<Keyed<string>>,
                            e: PsEntry, b: string) {
    && KeySet(buyers + [Keyed(e.buyer, 0)]) == KeySet(buyers) + {e.buyer}
    && KeySet(goods + [Keyed(e.buyer, e.exported)]) == KeySet(goods) + {e.buyer}
    && KeySet(services + [Keyed(e.buyer, e.exported)]) == KeySet(services) + {e.buyer}
    && Total(goods + [Keyed(e.buyer, e.exported)], b) == Total(goods, b) + (if b == e.buyer then e.exported else 0)
    && Total(services + [Keyed(e.buyer, e.exported)], b) == Total(services, b) + (if b == e.buyer then e.exported else 0)
  }

  method SumPsEntries(entries: seq<PsEntry>) returns (grouped: map<string, Totals>)
    ensures TabulatesBuyers(grouped, Buyers(entries), Sales(entries, "goods"), Sales(entries, "services"))
  {
    hide TabulatesBuyers, WithSale;
    grouped := map[];
    NoBuyers();
    for i := 0 to |entries|
      invariant TabulatesBuyers(grouped, Buyers(entries[..i]), Sales(entries[..i], "goods"), Sales(entries[..i], "services"))
    {
      var entry := entries[i];
      assert entries[..i + 1][..i] == entries[..i];
      if entry.state != Ready { continue; }
      assert Sales(entries[..i + 1], "goods") == Sales(entries[..i], "goods") + OneSale(entry, "goods");
      assert Sales(entries[..i + 1], "services") == Sales(entries[..i], "services") + OneSale(entry, "services");
      AddBuyer(grouped, Buyers(entries[..i]), Sales(entries[..i], "goods"), Sales(entries[..i], "services"), entry);
      grouped := grouped[entry.buyer := WithSale(GetTotals(grouped, entry.buyer), entry)];
    }
    assert entries[..|entries|] == entries;
  }

  lemma NoBuyers()
    ensures TabulatesBuyers(map[], [], [], [])
  {}

  method BuyerRows(buyers: seq<string>, grouped: map<string, Totals>, ghost keys: seq<Keyed<string>>,
                   ghost goods: seq<Keyed<string>>, ghost services: seq<Keyed<string>>)
    returns (rows: seq<string>)
    requires TabulatesBuyers(grouped, keys, goods, services) && ToSet(buyers) == grouped.Keys
    ensures rows == MapSeq(PrintBuyer, Lines(buyers, SalesAt(goods, services), BuyerSales(None, None)))
  {
    hide PrintBuyer, Total, KeySet;
    rows := [];
    for i := 0 to |buyers|
      invariant rows == MapSeq(PrintBuyer, Lines(buyers[..i], SalesAt(goods, services), BuyerSales(None, None)))
    {
      assert buyers[i] in ToSet(buyers);
      assert buyers[..i + 1][..i] == buyers[..i];
      var total := grouped[buyers[i]];
      if !total.hasGoods && !total.hasServices { continue; }
      var goodsField := if total.hasGoods then Some(total.goods) else None;
      var servicesField := if total.hasServices then Some(total.services) else None;
      rows := rows + [PrintBuyer(Line(buyers[i], BuyerSales(goodsField, servicesField)))];
    }
    assert buyers[..|buyers|] == buyers;
  }

  method RenderPeriodicSummary(r: Reporter, period: string, entries: seq<PsEntry>) returns (content: Option<string>)
    ensures content == PsFile(r, period, entries)
  {
    hide TotalOrder, SortedKeys, Lines, PrintBuyer, Encode;
    var grouped := SumPsEntries(entries);
    StringOrder();
    var buyers := SortedMapKeys(grouped.Keys, StringLeq, Buyers(entries));
    var rows := BuyerRows(buyers, grouped, Buyers(entries), Sales(entries, "goods"), Sales(entries, "services"));
    return Encode(PsHeader(r, period) + rows);
  }
}
