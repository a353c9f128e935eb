/** From the facts of a charge or a refund to the row that the filing tables keep of it. */
module FiledRows {
  import opened Grouping
  import opened Text
  import opened Ledger
  import opened Rounding
  import opened Periods
  import opened PeriodLaws
  import opened FactBuilders
  import opened DoubleEntry
  import opened Filing
  import opened Entries
  import opened EntryTables
  import opened EntryLaws
  import opened EntryMeaning
  import opened RenderLaws
  import opened Webhook
  import opened BackfillLaws

  // ---------------------------------------------------------------------------
  // What a row should say
  // ---------------------------------------------------------------------------

  /** The tax status of a sale within the EU; `tail` is "_B2C" or "_B2B". */
  predicate SoldInEu(c: TaxCase, tail: string) {
    |c.status| >= 4 && c.status[..3] == "EU_" && c.status[|c.status| - 4..] == tail
  }

  /** The characters of ISO-8859-1 are the first 256. */
  predicate Encodable(s: string) { forall i :: 0 <= i < |s| ==> s[i] as int <= 0xFF }

  lemma EncodableMeans(s: string)
    ensures Encodable(s) <==> Latin1(s)
  {
    forall i | 0 <= i < |s| ensures s[i] in s {}
    if Encodable(s) {
      forall c | c in s ensures c as int < 256 { var i :| 0 <= i < |s| && s[i] == c; }
    }
  }

  function QuarterName(d: Date): string {
    Pad(d.year, 4) + "-Q" + if d.month <= 3 then "1" else if d.month <= 6 then "2" else if d.month <= 9 then "3" else "4"
  }

  function MonthName(d: Date): string { Pad(d.year, 4) + "-" + Pad(d.month, 2) }

  /** The configured rate of the country, or the rate that the amounts show, to the nearest hundredth
      of a percent. */
  predicate RateReads(rate: int, s: Settings, country: string, taxable: int, vat: int) {
    if country in s.rates then rate == s.rates[country]
    else if taxable == 0 || vat == 0 then rate == 0
    else
      var size: int := Abs(taxable);
      -size <= 2 * (taxable * rate - vat * 10000) <= size
  }

  /** The row of an event posted and supplied on these dates, with these amounts. */
  predicate OssReads(e: OssEntry, s: Settings, c: TaxCase, posted: Date, supplied: Date, taxable: int, vat: int) {
    && |e.country| == (if |c.country| < 2 then 2 else |c.country|) && c.country <= e.country
    && (forall i :: |c.country| <= i < |e.country| ==> e.country[i] == ' ')
    && e.origin == s.origin && e.saleType == c.saleType
    && e.filingPeriod == QuarterName(posted) && e.originalPeriod == QuarterName(supplied) && e.correctionTarget == None
    && RateReads(e.rate, s, c.country, taxable, vat)
    && if Encodable(s.origin) && Encodable(c.country) then
         e.state == Ready && e.reason == None && e.taxable == taxable && e.vat == vat
       else
         e.state == Review && e.reason == Some("OSS entry contains characters outside ISO-8859-1") && e.taxable == 0 && e.vat == 0
  }

  /** Why a summary row without a review reason of its own is held back. */
  function HeldBack(c: TaxCase, amount: int): Option<string> {
    if c.saleType !in {"GOODS", "SERVICES"} then Some("periodic summary row type could not be resolved")
    else if amount == 0 then Some("periodic summary entry is missing settled SEK amount")
    else if !Encodable(c.buyer) then Some("periodic summary buyer VAT number contains characters outside ISO-8859-1")
    else None
  }

  predicate PsReads(e: PsEntry, c: TaxCase, posted: Date, amount: int) {
    && e.buyer == c.buyer && e.filingPeriod == MonthName(posted)
    && e.rowType == (if c.saleType == "GOODS" then "goods" else if c.saleType == "SERVICES" then "services" else "")
    && e.reason == HeldBack(c, amount)
    && if e.reason == None then e.state == Ready && e.amountOre == amount && -50 <= 100 * e.exported - amount <= 50
       else e.state == Review && e.amountOre == 0 && e.exported == 0
  }

  // ---------------------------------------------------------------------------
  // What the entries say
  // ---------------------------------------------------------------------------

  lemma QuarterIsNamed(d: Date)
    requires 1 <= d.month <= 12
    ensures QuarterPeriod(d) == QuarterName(d)
  {
    assert Dec(1) == "1" && Dec(2) == "2" && Dec(3) == "3" && Dec(4) == "4";
  }

  lemma RateIsRead(s: Settings, c: Context)
    ensures RateReads(RateOf(s, c), s, c.country, c.revenue, c.vat)
  {
    if c.country !in s.rates && c.revenue != 0 && c.vat != 0 {
      if c.revenue > 0 {
        RoundError(c.vat * 10000, c.revenue);
      } else {
        RoundError(-c.vat * 10000, -c.revenue);
        ShownOfNegative(c.revenue, c.vat, Round(-c.vat * 10000, -c.revenue));
      }
    }
  }

  lemma ShownOfNegative(taxable: int, vat: int, rate: int)
    ensures -taxable * rate - -vat * 10000 == -(taxable * rate - vat * 10000)
  {
    assert -taxable * rate == -(taxable * rate);
  }

  lemma OssEntryReads(s: Settings, k: nat, c: TaxCase, group: string, objectType: string, objectId: string,
                      posted: Date, supplied: Date, amount: int, taxable: int, vat: int, id: nat)
    requires ValidDate(posted) && ValidDate(supplied) && (objectType == "refund" ==> supplied == posted)
    ensures OssReads(AsColumns(OssEntryFor(s, Filed(k, c, group, objectType, objectId, posted, supplied, amount, taxable, vat), id)),
                     s, c, posted, supplied, taxable, vat)
  {
    QuarterIsNamed(posted);
    QuarterIsNamed(supplied);
    RateIsRead(s, Filed(k, c, group, objectType, objectId, posted, supplied, amount, taxable, vat));
    EncodableMeans(s.origin);
    EncodableMeans(c.country);
    hide QuarterPeriod, QuarterName, RateOf, RateReads, Latin1, Encodable;
  }

  lemma PsEntryReads(k: nat, c: TaxCase, group: string, objectType: string, objectId: string, posted: Date, supplied: Date,
                     amount: int, revenue: int, vat: int, id: nat)
    requires ValidDate(posted) && ValidDate(supplied)
    ensures PsReads(PsEntryFor(Filed(k, c, group, objectType, objectId, posted, supplied, amount, revenue, vat), id), c, posted, amount)
  {
    var filed := Filed(k, c, group, objectType, objectId, posted, supplied, amount, revenue, vat);
    HeldBackFor(filed, c);
    RowTypeOf(c.saleType);
    WholeSekIsNearest(amount);
    WholeSekIsNearest(0);
    hide Latin1, OreToWholeSek, Round, PsReason, HeldBack, PsRowType;
  }

  lemma RowTypeOf(saleType: string)
    ensures PsRowType(saleType) == if saleType == "GOODS" then "goods" else if saleType == "SERVICES" then "services" else ""
  {}

  lemma HeldBackFor(filed: Context, c: TaxCase)
    requires filed.reason == "" && filed.saleType == c.saleType && filed.buyer == c.buyer
    ensures PsReason(filed) == HeldBack(c, filed.amount)
  {
    EncodableMeans(c.buyer);
    hide Latin1, Encodable;
  }

  // ---------------------------------------------------------------------------
  // The facts of one group among others
  // ---------------------------------------------------------------------------

  lemma {:induction false} NoneOfGroup(facts: seq<FilingFact>, g: string)
    requires forall f :: f in facts ==> f.fact.group != g
    ensures GroupFacts(facts, g) == []
  {
    if facts != [] { NoneOfGroup(facts[..|facts| - 1], g); }
  }

  lemma {:induction false} AllOfGroup(facts: seq<FilingFact>, g: string)
    requires forall f :: f in facts ==> f.fact.group == g
    ensures GroupFacts(facts, g) == facts
  {
    if facts != [] {
      AllOfGroup(facts[..|facts| - 1], g);
      assert facts == facts[..|facts| - 1] + [facts[|facts| - 1]];
    }
  }

  /** The facts hold, in any order and among those of other groups, the facts `own` of group `g`. */
  ghost predicate Among(own: seq<FilingFact>, g: string, facts: seq<FilingFact>) {
    exists rest: seq<FilingFact> :: multiset(facts) == multiset(own + rest) && forall f :: f in rest ==> f.fact.group != g
  }

  lemma GroupAmong(own: seq<FilingFact>, g: string, facts: seq<FilingFact>)
    requires Among(own, g, facts) && forall f :: f in own ==> f.fact.group == g
    ensures multiset(GroupFacts(facts, g)) == multiset(own)
    ensures own != [] && IsFilingGroup(g) ==> g in FilingGroups(facts)
  {
    var rest :| multiset(facts) == multiset(own + rest) && forall f :: f in rest ==> f.fact.group != g;
    CollectPermutation(InGroup(g), facts, own + rest);
    CollectConcat(InGroup(g), own, rest);
    AllOfGroup(own, g);
    NoneOfGroup(rest, g);
    assert own + [] == own;
    if own != [] && IsFilingGroup(g) {
      assert own[0] in multiset(own + rest) && own[0] in multiset(facts);
      hide IsFilingGroup, FilingGroups;
      GroupIsThere(facts, own[0]);
      GroupsAreDistinct(facts);
      assert g in ToSet(FilingGroups(facts));
    }
  }

  /** The facts of BuildSaleFacts, as one transaction stores them, hold those of its sale group. */
  lemma SaleAmong(s: SaleInput, id: nat, at: nat, charged: Option<Date>, facts: seq<FilingFact>, others: seq<FilingFact>)
    requires multiset(facts) == multiset(Stored(s.Facts(id), at, charged) + others)
    requires forall f :: f in others ==> f.fact.group != s.prefix + ":sale"
    ensures Among(Stored(s.SaleGroup(id), at, charged), s.prefix + ":sale", facts)
  {
    hide SaleInput.SaleGroup, SaleInput.FeeGroup, SaleInput.AvailableGroup, Among;
    var rest := OtherThanSale(s, id);
    hide SaleInput.Facts;
    PartAmong(s.SaleGroup(id), rest, at, charged, others, facts, s.prefix + ":sale");
  }

  lemma OtherThanSale(s: SaleInput, id: nat) returns (rest: seq<Fact>)
    ensures s.Facts(id) == s.SaleGroup(id) + rest && forall f :: f in rest ==> f.group != s.prefix + ":sale"
  {
    hide SaleInput.SaleGroup, SaleInput.FeeGroup, SaleInput.AvailableGroup;
    var sale := s.SaleGroup(id);
    var fees := s.FeeGroup(id + |sale|);
    var available := s.AvailableGroup(id + |sale| + |fees|);
    NotOfSale(s, id + |sale|, id + |sale| + |fees|);
    rest := fees + available;
    assert sale + fees + available == sale + rest;
  }

  lemma PartAmong(own: seq<Fact>, rest: seq<Fact>, at: nat, charged: Option<Date>, others: seq<FilingFact>,
                  facts: seq<FilingFact>, g: string)
    requires multiset(facts) == multiset(Stored(own + rest, at, charged) + others)
    requires forall f :: f in rest ==> f.group != g
    requires forall f :: f in others ==> f.fact.group != g
    ensures Among(Stored(own, at, charged), g, facts)
  {
    StoredConcat(own, rest, at, charged);
    var more := Stored(rest, at, charged) + others;
    assert Stored(own, at, charged) + Stored(rest, at, charged) + others == Stored(own, at, charged) + more;
    forall f | f in more ensures f.fact.group != g {
      if f !in others { StoredFact(rest, at, charged, f); }
    }
  }

  lemma StoredConcat(a: seq<Fact>, b: seq<Fact>, at: nat, charged: Option<Date>)
    ensures Stored(a + b, at, charged) == Stored(a, at, charged) + Stored(b, at, charged)
  {}

  lemma StoredFact(facts: seq<Fact>, at: nat, charged: Option<Date>, f: FilingFact)
    requires f in Stored(facts, at, charged)
    ensures f.fact in facts
  {}

  lemma NotOfSale(s: SaleInput, id1: nat, id2: nat)
    ensures forall f :: f in s.FeeGroup(id1) + s.AvailableGroup(id2) ==> f.group != s.prefix + ":sale"
  {
    assert |s.prefix + ":sale"| != |s.prefix + ":fee"| && |s.prefix + ":sale"| != |s.prefix + ":available"|;
  }

  lemma SaleGroupIsFiled(s: SaleInput, id: nat, at: nat, charged: Option<Date>)
    ensures IsFilingGroup(s.prefix + ":sale")
    ensures Stored(s.SaleGroup(id), at, charged) != []
    ensures forall f :: f in Stored(s.SaleGroup(id), at, charged) ==>
      f.fact.group == s.prefix + ":sale" && f.fact.date == s.chargeDate && f.charged == charged
  {
    var g := s.prefix + ":sale";
    assert g[|g| - |":sale"|..] == ":sale";
  }

  lemma RefundGroupIsFiled(r: RefundInput, id: nat, at: nat, charged: Option<Date>)
    requires |r.group| >= 7 && r.group[..7] == "refund:"
    ensures IsFilingGroup(r.group)
    ensures Stored(r.Facts(id), at, charged) != []
    ensures forall f :: f in Stored(r.Facts(id), at, charged) ==> f.fact.group == r.group && f.fact.date == r.date
  {}

  /** The row of a group whose context is known. */
  lemma OssRowIs(oss: map<string, OssEntry>, settings: Settings, facts: seq<FilingFact>, cases: map<nat, TaxCase>,
                 g: string, c: Context)
    requires Entries.Dated(facts) && OssAgrees(oss, settings, facts, cases, g)
    requires GroupFacts(facts, g) != [] && ContextOf(GroupFacts(facts, g), cases) == Some(c) && IsOssCandidate(c)
    ensures ValidContext(c) && g in oss && oss[g].(id := 0) == AsColumns(OssEntryFor(settings, c, 0))
  {
    GroupFactsDated(facts, g);
    ContextIsValid(GroupFacts(facts, g), cases);
    hide ContextOf, GroupFacts, IsOssCandidate, ValidContext, Entries.Dated;
  }

  lemma PsRowIs(ps: map<string, PsEntry>, facts: seq<FilingFact>, cases: map<nat, TaxCase>, g: string, c: Context)
    requires Entries.Dated(facts) && PsAgrees(ps, facts, cases, g)
    requires GroupFacts(facts, g) != [] && ContextOf(GroupFacts(facts, g), cases) == Some(c) && IsPsCandidate(c)
    ensures ValidContext(c) && g in ps && ps[g].(id := 0) == PsEntryFor(c, 0)
  {
    GroupFactsDated(facts, g);
    ContextIsValid(GroupFacts(facts, g), cases);
    hide ContextOf, GroupFacts, IsPsCandidate, ValidContext, Entries.Dated;
  }

  lemma EuCandidate(c: Context, k: TaxCase)
    requires c.status == k.status && c.buyer == k.buyer
    ensures SoldInEu(k, "_B2C") ==> IsOssCandidate(c)
    ensures SoldInEu(k, "_B2B") && k.buyer != "" ==> IsPsCandidate(c)
  {}

  lemma SameOssReads(a: OssEntry, b: OssEntry, s: Settings, c: TaxCase, posted: Date, supplied: Date, taxable: int, vat: int)
    requires a.(id := 0) == b && OssReads(b, s, c, posted, supplied, taxable, vat)
    ensures OssReads(a, s, c, posted, supplied, taxable, vat)
    ensures a.group == b.group && a.taxCase == b.taxCase && a.objectId == b.objectId
  {
    hide QuarterName, RateReads, Encodable;
  }

  lemma SamePsReads(a: PsEntry, b: PsEntry, c: TaxCase, posted: Date, amount: int)
    requires a.(id := 0) == b && PsReads(b, c, posted, amount)
    ensures PsReads(a, c, posted, amount)
    ensures a.group == b.group && a.taxCase == b.taxCase && a.objectId == b.objectId
  {
    hide MonthName, HeldBack;
  }

  lemma OssRowOfContext(oss: map<string, OssEntry>, settings: Settings, facts: seq<FilingFact>, cases: map<nat, TaxCase>,
                        k: nat, c: TaxCase, g: string, objectType: string, objectId: string, posted: Date, supplied: Date,
                        amount: int, taxable: int, vat: int)
    requires Entries.Dated(facts) && OssAgrees(oss, settings, facts, cases, g) && GroupFacts(facts, g) != []
    requires ContextOf(GroupFacts(facts, g), cases)
      == Some(Filed(k, c, g, objectType, objectId, posted, supplied, amount, taxable, vat))
    requires SoldInEu(c, "_B2C") && (objectType == "refund" ==> supplied == posted)
    ensures g in oss && oss[g].group == g && oss[g].taxCase == Some(k) && oss[g].objectId == objectId
    ensures OssReads(oss[g], settings, c, posted, supplied, taxable, vat)
  {
    var filed := Filed(k, c, g, objectType, objectId, posted, supplied, amount, taxable, vat);
    EuCandidate(filed, c);
    hide ContextOf, GroupFacts, Entries.Dated, OssAgrees, OssReads, AsColumns, SoldInEu, IsOssCandidate;
    OssRowIs(oss, settings, facts, cases, g, filed);
    OssEntryReads(settings, k, c, g, objectType, objectId, posted, supplied, amount, taxable, vat, 0);
    SameOssReads(oss[g], AsColumns(OssEntryFor(settings, filed, 0)), settings, c, posted, supplied, taxable, vat);
    NamesKept(settings, filed);
  }

  lemma NamesKept(s: Settings, c: Context)
    requires ValidContext(c)
    ensures var e := AsColumns(OssEntryFor(s, c, 0)); e.group == c.group && e.taxCase == c.taxCase && e.objectId == c.objectId
    ensures var e := PsEntryFor(c, 0); e.group == c.group && e.taxCase == c.taxCase && e.objectId == c.objectId
  {
    hide QuarterPeriod, MonthPeriod, RateOf, Filled, Latin1, OreToWholeSek;
  }

  lemma PsRowOfContext(ps: map<string, PsEntry>, facts: seq<FilingFact>, cases: map<nat, TaxCase>,
                       k: nat, c: TaxCase, g: string, objectType: string, objectId: string, posted: Date, supplied: Date,
                       amount: int, revenue: int, vat: int)
    requires Entries.Dated(facts) && PsAgrees(ps, facts, cases, g) && GroupFacts(facts, g) != []
    requires ContextOf(GroupFacts(facts, g), cases)
      == Some(Filed(k, c, g, objectType, objectId, posted, supplied, amount, revenue, vat))
    requires SoldInEu(c, "_B2B") && c.buyer != ""
    ensures g in ps && ps[g].group == g && ps[g].taxCase == Some(k) && ps[g].objectId == objectId
    ensures PsReads(ps[g], c, posted, amount)
  {
    var filed := Filed(k, c, g, objectType, objectId, posted, supplied, amount, revenue, vat);
    EuCandidate(filed, c);
    hide ContextOf, GroupFacts, Entries.Dated, PsAgrees, PsReads, SoldInEu, IsPsCandidate;
    PsRowIs(ps, facts, cases, g, filed);
    PsEntryReads(k, c, g, objectType, objectId, posted, supplied, amount, revenue, vat, 0);
    SamePsReads(ps[g], PsEntryFor(filed, 0), c, posted, amount);
    NamesKept(Settings("", map[]), filed);
  }

  // ---------------------------------------------------------------------------
  // The rows of a sale
  // ---------------------------------------------------------------------------

  /** A sale of a charge within the EU, among the facts in whatever order. */
  ghost predicate EuSale(s: SaleInput, charged: Option<Date>, facts: seq<FilingFact>, cases: map<nat, TaxCase>, tail: string) {
    && s.gross > 0 && s.revenue >= 0 && s.objectType == "charge"
    && s.taxCase.Some? && s.taxCase.value in cases
    && cases[s.taxCase.value].reportable && SoldInEu(cases[s.taxCase.value], tail)
    && exists id, at, others :: (
      && multiset(facts) == multiset(Stored(s.Facts(id), at, charged) + others)
      && forall f :: f in others ==> f.fact.group != s.prefix + ":sale")
  }

  lemma SaleIsGrouped(s: SaleInput, charged: Option<Date>, facts: seq<FilingFact>, cases: map<nat, TaxCase>, tail: string)
    requires EuSale(s, charged, facts, cases, tail) && Entries.Dated(facts)
    ensures var g := s.prefix + ":sale"; var own := GroupFacts(facts, g);
      && g in FilingGroups(facts) && own != [] && ValidDate(s.chargeDate) && CivilDate(s.chargeDate)
      && (charged.Some? ==> ValidDate(charged.value))
      && s.taxCase.Some? && s.taxCase.value in cases && SoldInEu(cases[s.taxCase.value], tail)
      && (forall f :: f in own ==> f in facts && f.fact.date == s.chargeDate)
      && ContextOf(own, cases) == Some(Filed(
        s.taxCase.value, cases[s.taxCase.value], g, "charge", s.objectId,
        s.chargeDate, charged.GetOr(s.chargeDate), s.gross, s.revenue, BookedVat(s.vat, s.accounts.outputVat)))
  {
    var id, at, others :|
      && multiset(facts) == multiset(Stored(s.Facts(id), at, charged) + others)
      && forall f :: f in others ==> f.fact.group != s.prefix + ":sale";
    var g := s.prefix + ":sale";
    var stored := Stored(s.SaleGroup(id), at, charged);
    SaleAmong(s, id, at, charged, facts, others);
    SaleGroupIsFiled(s, id, at, charged);
    hide SaleInput.SaleGroup, Stored, ContextOf, FilingGroups, IsFilingGroup, Among;
    GroupAmong(stored, g, facts);
    GroupFactsDated(facts, g);
    SameMembers(GroupFacts(facts, g), stored);
    assert stored[0] in stored;
    SaleIsFiledAsBooked(s, id, at, charged, GroupFacts(facts, g), cases);
  }

  lemma SaleRowReads(oss: map<string, OssEntry>, settings: Settings, s: SaleInput, charged: Option<Date>,
                     facts: seq<FilingFact>, cases: map<nat, TaxCase>)
    requires EuSale(s, charged, facts, cases, "_B2C") && Entries.Dated(facts)
    requires OssAgrees(oss, settings, facts, cases, s.prefix + ":sale")
    ensures var g := s.prefix + ":sale";
      && g in oss && oss[g].group == g && oss[g].taxCase == s.taxCase && oss[g].objectId == s.objectId
      && OssReads(oss[g], settings, cases[s.taxCase.value], s.chargeDate, charged.GetOr(s.chargeDate),
                  s.revenue, if s.vat > 0 && s.accounts.outputVat != 0 then s.vat else 0)
  {
    hide ContextOf, GroupFacts, FilingGroups, Entries.Dated, EuSale, OssAgrees, OssReads, SoldInEu, Filed;
    SaleIsGrouped(s, charged, facts, cases, "_B2C");
    assert "charge" != "refund" by { assert "charge"[0] != "refund"[0]; }
    OssRowOfContext(oss, settings, facts, cases, s.taxCase.value, cases[s.taxCase.value], s.prefix + ":sale", "charge", s.objectId,
                    s.chargeDate, charged.GetOr(s.chargeDate), s.gross, s.revenue, BookedVat(s.vat, s.accounts.outputVat));
  }

  lemma SaleSummaryReads(ps: map<string, PsEntry>, s: SaleInput, charged: Option<Date>, facts: seq<FilingFact>,
                         cases: map<nat, TaxCase>)
    requires EuSale(s, charged, facts, cases, "_B2B") && cases[s.taxCase.value].buyer != "" && Entries.Dated(facts)
    requires PsAgrees(ps, facts, cases, s.prefix + ":sale")
    ensures var g := s.prefix + ":sale";
      && g in ps && ps[g].group == g && ps[g].taxCase == s.taxCase && ps[g].objectId == s.objectId
      && PsReads(ps[g], cases[s.taxCase.value], s.chargeDate, s.gross)
  {
    hide ContextOf, GroupFacts, FilingGroups, Entries.Dated, EuSale, PsAgrees, PsReads, SoldInEu, Filed;
    SaleIsGrouped(s, charged, facts, cases, "_B2B");
    PsRowOfContext(ps, facts, cases, s.taxCase.value, cases[s.taxCase.value], s.prefix + ":sale", "charge", s.objectId,
                   s.chargeDate, charged.GetOr(s.chargeDate), s.gross, s.revenue, BookedVat(s.vat, s.accounts.outputVat));
  }

  // ---------------------------------------------------------------------------
  // The rows of a refund
  // ---------------------------------------------------------------------------

  /** A refund of a sale within the EU, among the facts in whatever order. */
  ghost predicate EuRefund(r: RefundInput, facts: seq<FilingFact>, cases: map<nat, TaxCase>, tail: string) {
    && r.gross >= 0 && r.revenue >= 0 && |r.group| >= 7 && r.group[..7] == "refund:"
    && r.taxCase.Some? && r.taxCase.value in cases
    && cases[r.taxCase.value].reportable && SoldInEu(cases[r.taxCase.value], tail)
    && exists id, at, charged :: Among(Stored(r.Facts(id), at, charged), r.group, facts)
  }

  lemma RefundIsGrouped(r: RefundInput, facts: seq<FilingFact>, cases: map<nat, TaxCase>, tail: string)
    requires EuRefund(r, facts, cases, tail) && Entries.Dated(facts)
    ensures var own := GroupFacts(facts, r.group);
      && r.group in FilingGroups(facts) && own != [] && CivilDate(r.date)
      && r.taxCase.Some? && r.taxCase.value in cases && SoldInEu(cases[r.taxCase.value], tail)
      && (forall f :: f in own ==> f in facts && f.fact.date == r.date)
      && ContextOf(own, cases) == Some(Filed(
        r.taxCase.value, cases[r.taxCase.value], r.group, "refund", r.objectId,
        r.date, r.date, -r.gross, -r.revenue, -BookedVat(r.vat, r.outputVat)))
  {
    var id, at, charged :| Among(Stored(r.Facts(id), at, charged), r.group, facts);
    var stored := Stored(r.Facts(id), at, charged);
    RefundGroupIsFiled(r, id, at, charged);
    hide RefundInput.Facts, Stored, ContextOf, FilingGroups, IsFilingGroup, Among;
    GroupAmong(stored, r.group, facts);
    GroupFactsDated(facts, r.group);
    SameMembers(GroupFacts(facts, r.group), stored);
    assert stored[0] in stored;
    RefundIsFiledAsBooked(r, id, at, charged, GroupFacts(facts, r.group), cases);
  }

  lemma RefundRowReads(oss: map<string, OssEntry>, settings: Settings, r: RefundInput, facts: seq<FilingFact>,
                       cases: map<nat, TaxCase>)
    requires EuRefund(r, facts, cases, "_B2C") && Entries.Dated(facts)
    requires OssAgrees(oss, settings, facts, cases, r.group)
    ensures
      && r.group in oss && oss[r.group].group == r.group && oss[r.group].taxCase == r.taxCase && oss[r.group].objectId == r.objectId
      && OssReads(oss[r.group], settings, cases[r.taxCase.value], r.date, r.date,
                  -r.revenue, if r.vat > 0 && r.outputVat != 0 then -r.vat else 0)
  {
    hide ContextOf, GroupFacts, FilingGroups, Entries.Dated, EuRefund, OssAgrees, OssReads, SoldInEu, Filed;
    RefundIsGrouped(r, facts, cases, "_B2C");
    OssRowOfContext(oss, settings, facts, cases, r.taxCase.value, cases[r.taxCase.value], r.group, "refund", r.objectId,
                    r.date, r.date, -r.gross, -r.revenue, -BookedVat(r.vat, r.outputVat));
  }

  lemma RefundSummaryReads(ps: map<string, PsEntry>, r: RefundInput, facts: seq<FilingFact>, cases: map<nat, TaxCase>)
    requires EuRefund(r, facts, cases, "_B2B") && cases[r.taxCase.value].buyer != "" && Entries.Dated(facts)
    requires PsAgrees(ps, facts, cases, r.group)
    ensures
      && r.group in ps && ps[r.group].group == r.group && ps[r.group].taxCase == r.taxCase && ps[r.group].objectId == r.objectId
      && PsReads(ps[r.group], cases[r.taxCase.value], r.date, -r.gross)
  {
    hide ContextOf, GroupFacts, FilingGroups, Entries.Dated, EuRefund, PsAgrees, PsReads, SoldInEu, Filed;
    RefundIsGrouped(r, facts, cases, "_B2B");
    PsRowOfContext(ps, facts, cases, r.taxCase.value, cases[r.taxCase.value], r.group, "refund", r.objectId,
                   r.date, r.date, -r.gross, -r.revenue, -BookedVat(r.vat, r.outputVat));
  }

  // ---------------------------------------------------------------------------
  // After a sync
  // ---------------------------------------------------------------------------

  /** What a committed sync keeps of a sale to a consumer in the EU: its revenue and its booked VAT
      as they are, its case's country and sale type, the configured origin, the quarters in which it
      was posted and supplied. */
  lemma SyncedSale(t: Tables, settings: Settings, facts: seq<FilingFact>, cases: map<nat, TaxCase>, firstId: nat,
                   s: SaleInput, charged: Option<Date>)
    requires Entries.Dated(facts) && SyncTx(t, settings, facts, cases, firstId).Some?
    requires EuSale(s, charged, facts, cases, "_B2C")
    ensures var g, oss := s.prefix + ":sale", SyncTx(t, settings, facts, cases, firstId).value.oss;
      && g in oss && oss[g].group == g && oss[g].taxCase == s.taxCase && oss[g].objectId == s.objectId
      && OssReads(oss[g], settings, cases[s.taxCase.value], s.chargeDate, charged.GetOr(s.chargeDate),
                  s.revenue, if s.vat > 0 && s.accounts.outputVat != 0 then s.vat else 0)
  {
    SyncAgrees(t, settings, facts, cases, firstId);
    SaleIsGrouped(s, charged, facts, cases, "_B2C");
    hide SyncTx, OssAgrees, OssReads, EuSale, Entries.Dated, FilingGroups, ContextOf, GroupFacts;
    SaleRowReads(SyncTx(t, settings, facts, cases, firstId).value.oss, settings, s, charged, facts, cases);
  }

  /** A sale to a business: its gross amount, to the krona, in its buyer's row of its posting month. */
  lemma SyncedSummary(t: Tables, settings: Settings, facts: seq<FilingFact>, cases: map<nat, TaxCase>, firstId: nat,
                      s: SaleInput, charged: Option<Date>)
    requires Entries.Dated(facts) && SyncTx(t, settings, facts, cases, firstId).Some?
    requires EuSale(s, charged, facts, cases, "_B2B") && cases[s.taxCase.value].buyer != ""
    ensures var g, ps := s.prefix + ":sale", SyncTx(t, settings, facts, cases, firstId).value.ps;
      && g in ps && ps[g].group == g && ps[g].taxCase == s.taxCase && ps[g].objectId == s.objectId
      && PsReads(ps[g], cases[s.taxCase.value], s.chargeDate, s.gross)
  {
    SyncAgrees(t, settings, facts, cases, firstId);
    SaleIsGrouped(s, charged, facts, cases, "_B2B");
    hide SyncTx, PsAgrees, PsReads, EuSale, Entries.Dated, FilingGroups, ContextOf, GroupFacts;
    SaleSummaryReads(SyncTx(t, settings, facts, cases, firstId).value.ps, s, charged, facts, cases);
  }

  /** A refund: the negated amounts, in the period it was posted in. */
  lemma SyncedRefund(t: Tables, settings: Settings, facts: seq<FilingFact>, cases: map<nat, TaxCase>, firstId: nat,
                     r: RefundInput)
    requires Entries.Dated(facts) && SyncTx(t, settings, facts, cases, firstId).Some?
    ensures EuRefund(r, facts, cases, "_B2C") ==>
      var oss := SyncTx(t, settings, facts, cases, firstId).value.oss;
      && r.group in oss && oss[r.group].group == r.group && oss[r.group].taxCase == r.taxCase && oss[r.group].objectId == r.objectId
      && OssReads(oss[r.group], settings, cases[r.taxCase.value], r.date, r.date,
                  -r.revenue, if r.vat > 0 && r.outputVat != 0 then -r.vat else 0)
    ensures EuRefund(r, facts, cases, "_B2B") && cases[r.taxCase.value].buyer != "" ==>
      var ps := SyncTx(t, settings, facts, cases, firstId).value.ps;
      && r.group in ps && ps[r.group].group == r.group && ps[r.group].taxCase == r.taxCase && ps[r.group].objectId == r.objectId
      && PsReads(ps[r.group], cases[r.taxCase.value], r.date, -r.gross)
  {
    SyncAgrees(t, settings, facts, cases, firstId);
    hide SyncTx, OssAgrees, PsAgrees, OssReads, PsReads, EuRefund, Entries.Dated, FilingGroups, ContextOf, GroupFacts;
    if EuRefund(r, facts, cases, "_B2C") {
      RefundIsGrouped(r, facts, cases, "_B2C");
      RefundRowReads(SyncTx(t, settings, facts, cases, firstId).value.oss, settings, r, facts, cases);
    }
    if EuRefund(r, facts, cases, "_B2B") && cases[r.taxCase.value].buyer != "" {
      RefundIsGrouped(r, facts, cases, "_B2B");
      RefundSummaryReads(SyncTx(t, settings, facts, cases, firstId).value.ps, r, facts, cases);
    }
  }

  // ---------------------------------------------------------------------------
  // After a backfill
  // ---------------------------------------------------------------------------

  lemma {:induction false} Collected<A, B>(f: A -> Option<B>, s: seq<A>, x: A)
    requires x in s && f(x).Some?
    ensures f(x).value in Collect(f, s)
  {
    if x != s[|s| - 1] { Collected(f, s[..|s| - 1], x); }
  }

  /** A backfill of a date's own period reads the group. */
  lemma GroupIsRead(kind: Kind, stored: seq<FilingFact>, g: string, f: FilingFact)
    requires Entries.Dated(stored) && f in stored && f.fact.group == g && FilingRelevant(g) && IsFilingGroup(g)
    ensures CanonicalName(kind, PeriodOf(kind, f.fact.date)) == PeriodOf(kind, f.fact.date)
    ensures g in FilingGroups(PeriodFacts(kind, PeriodOf(kind, f.fact.date), stored))
  {
    var period := PeriodOf(kind, f.fact.date);
    OwnPeriodIsCanonical(kind, f.fact.date);
    hide PeriodDateRange, Within, FilingRelevant, IsFilingGroup, PeriodOf, CanonicalName, FilingGroups, Entries.Dated;
    var range := PeriodDateRange(kind, period).value;
    Collected(RelevantIn(range), stored, f);
    GroupIsThere(PeriodFacts(kind, period, stored), f);
    GroupsAreDistinct(PeriodFacts(kind, period, stored));
    assert g in ToSet(FilingGroups(PeriodFacts(kind, period, stored)));
  }

  lemma OneDateOf(stored: seq<FilingFact>, g: string, d: Date)
    requires Entries.Dated(stored) && forall f :: f in GroupFacts(stored, g) ==> f.fact.date == d
    ensures OneDate(stored, g)
  {
    forall f | f in stored && f.fact.group == g ensures f.fact.date == d { Collected(InGroup(g), stored, f); }
  }

  lemma SaleIsRelevant(prefix: string)
    requires |prefix| >= 7 && prefix[..7] == "charge:"
    ensures FilingRelevant(prefix + ":sale")
  {
    var g := prefix + ":sale";
    assert g[..7] == "charge:" && g[|g| - |":sale"|..] == ":sale";
  }

  lemma RefundIsRelevant(group: string)
    requires |group| >= 7 && group[..7] == "refund:"
    ensures FilingRelevant(group)
  {}

  /** The same rows come from a backfill of the quarter that a charge was posted in. */
  lemma BackfilledSale(t: Tables, settings: Settings, stored: seq<FilingFact>, cases: map<nat, TaxCase>, firstId: nat,
                       s: SaleInput, charged: Option<Date>)
    requires Entries.Dated(stored) && EuSale(s, charged, stored, cases, "_B2C")
    requires |s.prefix| >= 7 && s.prefix[..7] == "charge:"
    requires BackfillTx(t, settings, OssUnion, QuarterName(s.chargeDate), stored, cases, firstId).Some?
    ensures var g, oss := s.prefix + ":sale", BackfillTx(t, settings, OssUnion, QuarterName(s.chargeDate), stored, cases, firstId).value.oss;
      && g in oss && oss[g].group == g && oss[g].taxCase == s.taxCase && oss[g].objectId == s.objectId
      && OssReads(oss[g], settings, cases[s.taxCase.value], s.chargeDate, charged.GetOr(s.chargeDate),
                  s.revenue, if s.vat > 0 && s.accounts.outputVat != 0 then s.vat else 0)
  {
    var g := s.prefix + ":sale";
    SaleIsGrouped(s, charged, stored, cases, "_B2C");
    QuarterIsNamed(s.chargeDate);
    SaleIsRelevant(s.prefix);
    OneDateOf(stored, g, s.chargeDate);
    FiledGroup(stored, g);
    var f := GroupFacts(stored, g)[0];
    GroupFactsDated(stored, g);
    hide EuSale, BackfillTx, FilingGroups, GroupFacts, OneDate, OssReads, OssAgrees, CanonicalName, PeriodFacts, FilingRelevant,
         IsFilingGroup, QuarterName, QuarterPeriod, ContextOf, Entries.Dated;
    GroupIsRead(OssUnion, stored, g, f);
    BackfillFilesWholeGroups(t, settings, OssUnion, QuarterName(s.chargeDate), stored, cases, firstId, g);
    SaleRowReads(BackfillTx(t, settings, OssUnion, QuarterName(s.chargeDate), stored, cases, firstId).value.oss,
                 settings, s, charged, stored, cases);
  }

  lemma FiledGroup(facts: seq<FilingFact>, g: string)
    requires g in FilingGroups(facts)
    ensures IsFilingGroup(g)
  {
    GroupsAreDistinct(facts);
    assert g in ToSet(FilingGroups(facts));
    GroupsAreFiled(facts);
  }

  lemma BackfilledSummary(t: Tables, settings: Settings, stored: seq<FilingFact>, cases: map<nat, TaxCase>, firstId: nat,
                          s: SaleInput, charged: Option<Date>)
    requires Entries.Dated(stored) && EuSale(s, charged, stored, cases, "_B2B") && cases[s.taxCase.value].buyer != ""
    requires |s.prefix| >= 7 && s.prefix[..7] == "charge:"
    requires BackfillTx(t, settings, PeriodicSummary, MonthName(s.chargeDate), stored, cases, firstId).Some?
    ensures var g, ps := s.prefix + ":sale", BackfillTx(t, settings, PeriodicSummary, MonthName(s.chargeDate), stored, cases, firstId).value.ps;
      && g in ps && ps[g].group == g && ps[g].taxCase == s.taxCase && ps[g].objectId == s.objectId
      && PsReads(ps[g], cases[s.taxCase.value], s.chargeDate, s.gross)
  {
    var g := s.prefix + ":sale";
    SaleIsGrouped(s, charged, stored, cases, "_B2B");
    SaleIsRelevant(s.prefix);
    OneDateOf(stored, g, s.chargeDate);
    FiledGroup(stored, g);
    var f := GroupFacts(stored, g)[0];
    GroupFactsDated(stored, g);
    assert PeriodOf(PeriodicSummary, s.chargeDate) == MonthName(s.chargeDate);
    hide EuSale, BackfillTx, FilingGroups, GroupFacts, OneDate, PsReads, PsAgrees, CanonicalName, PeriodFacts, FilingRelevant,
         IsFilingGroup, MonthName, PeriodOf, ContextOf, Entries.Dated;
    GroupIsRead(PeriodicSummary, stored, g, f);
    BackfillFilesWholeGroups(t, settings, PeriodicSummary, MonthName(s.chargeDate), stored, cases, firstId, g);
    SaleSummaryReads(BackfillTx(t, settings, PeriodicSummary, MonthName(s.chargeDate), stored, cases, firstId).value.ps,
                     s, charged, stored, cases);
  }

  lemma RefundIsRead(kind: Kind, r: RefundInput, stored: seq<FilingFact>, cases: map<nat, TaxCase>, tail: string)
    requires Entries.Dated(stored) && EuRefund(r, stored, cases, tail)
    ensures 1 <= r.date.month <= 12 && OneDate(stored, r.group) && r.taxCase.Some? && r.taxCase.value in cases
    ensures CanonicalName(kind, PeriodOf(kind, r.date)) == PeriodOf(kind, r.date)
    ensures r.group in FilingGroups(PeriodFacts(kind, PeriodOf(kind, r.date), stored))
  {
    RefundIsGrouped(r, stored, cases, tail);
    RefundIsRelevant(r.group);
    OneDateOf(stored, r.group, r.date);
    FiledGroup(stored, r.group);
    var f := GroupFacts(stored, r.group)[0];
    GroupFactsDated(stored, r.group);
    hide EuRefund, FilingGroups, GroupFacts, OneDate, CanonicalName, PeriodFacts, FilingRelevant, IsFilingGroup, PeriodOf,
         ContextOf, Entries.Dated;
    GroupIsRead(kind, stored, r.group, f);
  }

  lemma BackfilledRefund(t: Tables, settings: Settings, stored: seq<FilingFact>, cases: map<nat, TaxCase>, firstId: nat,
                         r: RefundInput)
    requires Entries.Dated(stored)
    ensures var done := BackfillTx(t, settings, OssUnion, QuarterName(r.date), stored, cases, firstId);
      EuRefund(r, stored, cases, "_B2C") && done.Some? ==>
        && r.group in done.value.oss && done.value.oss[r.group].group == r.group
        && OssReads(done.value.oss[r.group], settings, cases[r.taxCase.value], r.date, r.date,
                    -r.revenue, if r.vat > 0 && r.outputVat != 0 then -r.vat else 0)
    ensures var done := BackfillTx(t, settings, PeriodicSummary, MonthName(r.date), stored, cases, firstId);
      EuRefund(r, stored, cases, "_B2B") && cases[r.taxCase.value].buyer != "" && done.Some? ==>
        && r.group in done.value.ps && done.value.ps[r.group].group == r.group
        && PsReads(done.value.ps[r.group], cases[r.taxCase.value], r.date, -r.gross)
  {
    hide EuRefund, BackfillTx, FilingGroups, OneDate, OssReads, PsReads, OssAgrees, PsAgrees, CanonicalName, PeriodFacts,
         QuarterName, MonthName, QuarterPeriod, MonthPeriod, Entries.Dated;
    var oss := BackfillTx(t, settings, OssUnion, QuarterName(r.date), stored, cases, firstId);
    if EuRefund(r, stored, cases, "_B2C") && oss.Some? {
      RefundIsRead(OssUnion, r, stored, cases, "_B2C");
      QuarterIsNamed(r.date);
      BackfillFilesWholeGroups(t, settings, OssUnion, QuarterName(r.date), stored, cases, firstId, r.group);
      RefundRowReads(oss.value.oss, settings, r, stored, cases);
    }
    var ps := BackfillTx(t, settings, PeriodicSummary, MonthName(r.date), stored, cases, firstId);
    if EuRefund(r, stored, cases, "_B2B") && ps.Some? {
      RefundIsRead(PeriodicSummary, r, stored, cases, "_B2B");
      MonthIsNamed(r.date);
      BackfillFilesWholeGroups(t, settings, PeriodicSummary, MonthName(r.date), stored, cases, firstId, r.group);
      if cases[r.taxCase.value].buyer != "" { RefundSummaryReads(ps.value.ps, r, stored, cases); }
    }
  }

  lemma MonthIsNamed(d: Date)
    ensures MonthPeriod(d) == MonthName(d)
  {}

  // ---------------------------------------------------------------------------
  // Which table, and what is held back
  // ---------------------------------------------------------------------------

  lemma {:induction false} ReasonOf(facts: seq<FilingFact>, why: Option<string>)
    requires facts != [] && forall f :: f in facts ==> f.fact.reviewReason == why
    ensures Summarized(facts).reason == why.GetOr("")
  {
    hide IsGross, IsRevenue, IsVat;
    var front := facts[..|facts| - 1];
    if front != [] {
      ReasonOf(front, why);
    } else {
      assert Summarized(front).reason == "";
    }
  }

  lemma ContextOfCase(facts: seq<FilingFact>, cases: map<nat, TaxCase>, k: nat, why: Option<string>)
    requires facts != [] && k in cases && why != Some("")
    requires forall f :: f in facts ==> f.fact.taxCase == Some(k) && f.fact.reviewReason == why
    ensures ContextOf(facts, cases).Some?
    ensures var c := ContextOf(facts, cases).value;
      && c.status == cases[k].status && c.buyer == cases[k].buyer && c.saleType == cases[k].saleType
      && c.reason == (if why.Some? then why.value else if cases[k].reportable then "" else "tax case is not reportable")
  {
    var arranged := SortBy(facts, FactLeq);
    SortByMultiset(facts, FactLeq);
    SameMembers(facts, arranged);
    ReasonOf(arranged, why);
    hide SortBy, Summarized, FactLeq;
    assert arranged[0] in arranged;
  }

  lemma StatusDecides(c: Context)
    ensures IsOssCandidate(c) <==> |c.status| >= 4 && c.status[..3] == "EU_" && c.status[|c.status| - 4..] == "_B2C"
    ensures IsPsCandidate(c) <==> |c.status| >= 4 && c.status[..3] == "EU_" && c.status[|c.status| - 4..] == "_B2B" && c.buyer != ""
  {}

  lemma HeldEntries(s: Settings, c: Context, id: nat)
    requires ValidContext(c) && c.reason != ""
    ensures var e := AsColumns(OssEntryFor(s, c, id));
      e.state == Review && e.reason == Some(c.reason) && e.taxable == 0 && e.vat == 0
    ensures var e := PsEntryFor(c, id);
      && e.state == Review && e.amountOre == 0 && e.exported == 0
      && e.reason == Some(if c.saleType in {"GOODS", "SERVICES"} then c.reason else "periodic summary row type could not be resolved")
  {
    WholeSekIsNearest(0);
    hide QuarterPeriod, MonthPeriod, RateOf, Filled, Latin1, OreToWholeSek;
  }

  /** A filed group whose facts name one known tax case. After a committed sync it has an OSS row if
      and only if the case is a sale to a consumer in another EU country, and a summary row if and only
      if it is one to a business with a number. If the facts need review, or the case is not
      reportable, the row has no amounts and says why. */
  lemma SyncedGroup(t: Tables, settings: Settings, facts: seq<FilingFact>, cases: map<nat, TaxCase>, firstId: nat,
                    g: string, k: nat, why: Option<string>)
    requires Entries.Dated(facts) && SyncTx(t, settings, facts, cases, firstId).Some?
    requires (|g| >= 7 && g[..7] == "refund:") || (|g| >= 5 && g[|g| - 5..] == ":sale")
    requires k in cases && why != Some("") && exists f :: f in facts && f.fact.group == g
    requires forall f :: f in facts && f.fact.group == g ==> f.fact.taxCase == Some(k) && f.fact.reviewReason == why
    ensures var t', c := SyncTx(t, settings, facts, cases, firstId).value, cases[k];
      var reason := if why.Some? then why.value else "tax case is not reportable";
      && (g in t'.oss <==> SoldInEu(c, "_B2C"))
      && (g in t'.ps <==> SoldInEu(c, "_B2B") && c.buyer != "")
      && (why.Some? || !c.reportable ==>
          && (g in t'.oss ==>
              var e := t'.oss[g]; e.state == Review && e.reason == Some(reason) && e.taxable == 0 && e.vat == 0)
          && (g in t'.ps ==>
              var e := t'.ps[g];
              && e.state == Review && e.amountOre == 0 && e.exported == 0
              && e.reason == Some(if c.saleType in {"GOODS", "SERVICES"} then reason else "periodic summary row type could not be resolved")))
  {
    var f :| f in facts && f.fact.group == g;
    IsFiled(g);
    GroupIsThere(facts, f);
    GroupsAreDistinct(facts);
    assert g in ToSet(FilingGroups(facts));
    SyncAgrees(t, settings, facts, cases, firstId);
    var own, t' := GroupFacts(facts, g), SyncTx(t, settings, facts, cases, firstId).value;
    GroupFactsDated(facts, g);
    ContextOfCase(own, cases, k, why);
    ContextIsValid(own, cases);
    var c := ContextOf(own, cases).value;
    StatusDecides(c);
    if c.reason != "" { HeldEntries(settings, c, 0); }
    hide SyncTx, FilingGroups, GroupFacts, ContextOf, IsFilingGroup, Entries.Dated, IsOssCandidate, IsPsCandidate, OssEntryFor,
         PsEntryFor, ValidContext, AsColumns;
    assert OssAgrees(t'.oss, settings, facts, cases, g) && PsAgrees(t'.ps, facts, cases, g);
    if g in t'.oss { assert t'.oss[g].(id := 0) == AsColumns(OssEntryFor(settings, c, 0)); }
    if g in t'.ps { assert t'.ps[g].(id := 0) == PsEntryFor(c, 0); }
  }

  lemma IsFiled(g: string)
    requires (|g| >= 7 && g[..7] == "refund:") || (|g| >= 5 && g[|g| - 5..] == ":sale")
    ensures IsFilingGroup(g)
  {}

  // ---------------------------------------------------------------------------
  // When a sync commits
  // ---------------------------------------------------------------------------

  /** The columns take the row that the group's own facts build, in either table. */
  ghost predicate RowsFit(s: Settings, facts: seq<FilingFact>, cases: map<nat, TaxCase>, g: string)
    requires Entries.Dated(facts)
  {
    && (OssRow(s, facts, cases, g, 0).Some? ==>
        var e := OssRow(s, facts, cases, g, 0).value;
        (e.saleType == "GOODS" || e.saleType == "SERVICES") && |e.country| <= 2 && |e.origin| <= 2)
    && (PsRow(facts, cases, g, 0).Some? ==>
        var e := PsRow(facts, cases, g, 0).value;
        e.rowType == "goods" || e.rowType == "services")
  }

  /** A sync commits if and only if the columns take every group's rows; one sale to a business whose
      sale type is unknown is enough to keep the whole webhook's entries out. */
  lemma SyncCommitsIfRowsFit(t: Tables, s: Settings, facts: seq<FilingFact>, cases: map<nat, TaxCase>, firstId: nat)
    requires Entries.Dated(facts)
    ensures SyncTx(t, s, facts, cases, firstId).Some? <==> forall g :: g in FilingGroups(facts) ==> RowsFit(s, facts, cases, g)
  {
    hide SyncTx, FilingGroups, OssRow, PsRow, OssAllStorable, PsAllStorable, Entries.Dated;
    SyncCommits(t, s, facts, cases, firstId);
    RowsStorable(s, facts, cases, FilingGroups(facts), firstId);
  }

  /** What the sale's own facts build for the summary table. */
  lemma SaleBuilds(sale: SaleInput, charged: Option<Date>, facts: seq<FilingFact>, cases: map<nat, TaxCase>)
    requires Entries.Dated(facts) && EuSale(sale, charged, facts, cases, "_B2B") && cases[sale.taxCase.value].buyer != ""
    ensures sale.prefix + ":sale" in FilingGroups(facts)
    ensures var own := PsRow(facts, cases, sale.prefix + ":sale", 0);
      own.Some? && PsReads(own.value, cases[sale.taxCase.value], sale.chargeDate, sale.gross)
  {
    hide ContextOf, GroupFacts, FilingGroups, EuSale, PsReads, SoldInEu, IsPsCandidate, Entries.Dated;
    SaleIsGrouped(sale, charged, facts, cases, "_B2B");
    var own := PsRow(facts, cases, sale.prefix + ":sale", 0);
    var table := if own.Some? then map[sale.prefix + ":sale" := own.value] else map[];
    SaleSummaryReads(table, sale, charged, facts, cases);
  }

  lemma UnknownSaleTypeAborts(t: Tables, s: Settings, facts: seq<FilingFact>, cases: map<nat, TaxCase>, firstId: nat,
                              sale: SaleInput, charged: Option<Date>)
    requires Entries.Dated(facts) && EuSale(sale, charged, facts, cases, "_B2B")
    requires cases[sale.taxCase.value].buyer != "" && cases[sale.taxCase.value].saleType !in {"GOODS", "SERVICES"}
    ensures SyncTx(t, s, facts, cases, firstId).None?
  {
    SaleBuilds(sale, charged, facts, cases);
    SyncCommitsIfRowsFit(t, s, facts, cases, firstId);
    hide SyncTx, FilingGroups, PsRow, OssRow, EuSale, HeldBack, MonthName, Entries.Dated;
    assert !RowsFit(s, facts, cases, sale.prefix + ":sale");
  }

  /** Every row of the summary table is in one of the two columns. */
  ghost predicate InColumns(ps: map<string, PsEntry>) {
    forall g :: g in ps ==> ps[g].rowType == "goods" || ps[g].rowType == "services"
  }

  lemma {:induction false} UpsertKeepsColumns(table: map<string, PsEntry>, entries: seq<PsEntry>)
    requires InColumns(table) && UpsertPs(table, entries).Some?
    ensures InColumns(UpsertPs(table, entries).value)
  {
    if entries != [] { UpsertKeepsColumns(table, entries[..|entries| - 1]); }
  }

  lemma SyncKeepsColumns(t: Tables, s: Settings, facts: seq<FilingFact>, cases: map<nat, TaxCase>, firstId: nat)
    requires Entries.Dated(facts) && InColumns(t.ps) && SyncTx(t, s, facts, cases, firstId).Some?
    ensures InColumns(SyncTx(t, s, facts, cases, firstId).value.ps)
  {
    var groups := FilingGroups(facts);
    assert InColumns(t.ps - ToSet(groups));
    hide FilingGroups, AllOss, AllPs, UpsertOss, UpsertPs, OssPeriods, PsPeriods, UpsertPeriods, InColumns, Entries.Dated;
    UpsertKeepsColumns(t.ps - ToSet(groups), AllPs(facts, cases, groups, firstId));
  }

  lemma BackfillKeepsColumns(t: Tables, s: Settings, kind: Kind, period: string, stored: seq<FilingFact>,
                             cases: map<nat, TaxCase>, firstId: nat)
    requires Entries.Dated(stored) && InColumns(t.ps) && BackfillTx(t, s, kind, period, stored, cases, firstId).Some?
    ensures InColumns(BackfillTx(t, s, kind, period, stored, cases, firstId).value.ps)
  {
    PeriodFactsAreItsOwn(kind, period, stored);
    BackfillReads(t, s, kind, period, stored, cases, firstId);
    var facts := PeriodFacts(kind, period, stored);
    var groups := FilingGroups(facts);
    assert InColumns(t.ps - ToSet(groups));
    hide BackfillTx, PeriodFacts, PeriodDateRange, FilingGroups, AllOss, AllPs, UpsertOss, UpsertPs, OssOfPeriod, PsOfPeriod,
         UpsertPeriods, InColumns, Entries.Dated, AllOf;
    if facts != [] && kind.PeriodicSummary? {
      UpsertKeepsColumns(t.ps - ToSet(groups), PsOfPeriod(AllPs(facts, cases, groups, firstId), period));
    }
  }
}
