/** internal/filings/build_entries.go: the entry that one source group of facts is filed as.

    Texts that the code trims or upper-cases before use come trimmed and upper-cased here. */
module Entries {
  import opened Grouping
  import opened Text
  import opened Ledger
  import opened Rounding
  import opened Periods
  import opened Filing

  /** A fact as the filing code sees it: `charged` is the creation date that the fact's payload
      gives for a charge, None where the payload has none. */
  datatype FilingFact = FilingFact(fact: Fact, createdAt: nat, charged: Option<Date>)

  datatype TaxCase = TaxCase(status: string, reportable: bool, saleType: string, country: string, buyer: string)

  /** `rates`: the configured VAT rate of each country that has one above zero percent, rounded to
      basis points. */
  datatype Settings = Settings(origin: string, rates: map<string, int>)

  predicate HasPrefix(s: string, prefix: string) { prefix <= s }

  predicate HasSuffix(s: string, suffix: string) { |s| >= |suffix| && s[|s| - |suffix|..] == suffix }

  predicate IsFilingGroup(group: string) { HasPrefix(group, "refund:") || HasSuffix(group, ":sale") }

  // ---------------------------------------------------------------------------
  // Summarising a group
  // ---------------------------------------------------------------------------

  datatype Summary = Summary(gross: int, revenue: int, vat: int, reason: string)

  predicate IsGross(f: Fact) { f.factType in {"sale_receivable", "sale_review_receivable", "refund_receivable",
                    "refund_review_receivable"} }

  predicate IsRevenue(f: Fact) { f.factType in {"sale_revenue", "refund_revenue"} }

  predicate IsVat(f: Fact) { f.factType in {"sale_output_vat", "refund_output_vat"} }

  function Noted(s: Summary, f: Fact): Summary {
    var reason := if s.reason == "" && f.reviewReason.Some? then f.reviewReason.value else s.reason;
    Summary(if IsGross(f) then f.amount else s.gross,
            if !IsGross(f) && IsRevenue(f) then f.amount else s.revenue,
            if !IsGross(f) && !IsRevenue(f) && IsVat(f) then f.amount else s.vat,
            reason)
  }

  function Summarized(facts: seq<FilingFact>): Summary {
    if facts == [] then Summary(0, 0, 0, "") else Noted(Summarized(facts[..|facts| - 1]), facts[|facts| - 1].fact)
  }

  method SummarizeFacts(facts: seq<FilingFact>) returns (s: Summary)
    ensures s == Summarized(facts)
  {
    hide IsGross, IsRevenue, IsVat;
    s := Summary(0, 0, 0, "");
    for i := 0 to |facts|
      invariant s == Summarized(facts[..i])
    {
      var f := facts[i].fact;
      assert facts[..i + 1][..i] == facts[..i];
      if s.reason == "" && f.reviewReason.Some? && f.reviewReason.value != "" {
        s := s.(reason := f.reviewReason.value);
      }
      if IsGross(f) {
        s := s.(gross := f.amount);
      } else if IsRevenue(f) {
        s := s.(revenue := f.amount);
      } else if IsVat(f) {
        s := s.(vat := f.amount);
      }
    }
    assert facts[..|facts|] == facts;
  }

  // ---------------------------------------------------------------------------
  // The context of a group
  // ---------------------------------------------------------------------------

  /** By fact type, then by creation; Go's sort leaves the order of ties open. */
  predicate FactLeq(a: FilingFact, b: FilingFact) {
    if a.fact.factType == b.fact.factType then a.createdAt <= b.createdAt else StringLeq(a.fact.factType, b.fact.factType)
  }

  datatype Context = Context(
    taxCase: Option<nat>, group: string, objectType: string, objectId: string,
    postingDate: Date, supplyDate: Date, status: string, saleType: string, country: string, buyer: string,
    amount: int, revenue: int, vat: int, reason: string)

  function UnsupportedReason(c: TaxCase): string { if c.reportable then "" else "tax case is not reportable" }

  /** The context of a group whose first fact is `rep`. */
  function ContextFor(rep: FilingFact, s: Summary, cases: map<nat, TaxCase>): Context {
    var f := rep.fact;
    var sign := if f.objectType == "refund" then -1 else 1;
    var bare := Context(f.taxCase, f.group, f.objectType, f.objectId, f.date, f.date, "", "", "", "", 0, s.revenue, s.vat, s.reason);
    if f.taxCase.None? then bare.(reason := "accounting facts are missing tax_case_id")
    else if f.taxCase.value !in cases then bare.(reason := "tax case is missing")
    else
      var c := cases[f.taxCase.value];
      bare.(
        status := c.status, saleType := c.saleType, country := c.country, buyer := c.buyer,
        supplyDate := if s.reason == "" && f.objectType == "charge" && rep.charged.Some? then rep.charged.value else f.date,
        reason := if s.reason == "" then UnsupportedReason(c) else s.reason,
        amount := sign * s.gross, revenue := sign * s.revenue, vat := sign * s.vat)
  }

  function ContextOf(facts: seq<FilingFact>, cases: map<nat, TaxCase>): Option<Context> {
    if facts == [] then None
    else
      var arranged := SortBy(facts, FactLeq);
      SortByMultiset(facts, FactLeq);
      assert |arranged| == |multiset(arranged)| == |facts|;
      Some(ContextFor(arranged[0], Summarized(arranged), cases))
  }

  method BuildGroupContext(facts: seq<FilingFact>, cases: map<nat, TaxCase>) returns (r: Option<Context>)
    ensures r == ContextOf(facts, cases)
  {
    if |facts| == 0 { return None; }
    var arranged := SortBy(facts, FactLeq);
    assert |arranged| == |facts| by {
      SortByMultiset(facts, FactLeq);
      assert |arranged| == |multiset(arranged)|;
    }
    var s := SummarizeFacts(arranged);
    hide SortBy, Summarized, FactLeq;
    var rep := arranged[0];
    var f := rep.fact;
    var ctx := Context(f.taxCase, f.group, f.objectType, f.objectId, f.date, f.date, "", "", "", "", 0, s.revenue, s.vat, s.reason);
    if f.taxCase.None? {
      return Some(ctx.(reason := "accounting facts are missing tax_case_id"));
    }
    if f.taxCase.value !in cases {
      return Some(ctx.(reason := "tax case is missing"));
    }
    var c := cases[f.taxCase.value];
    ctx := ctx.(status := c.status, saleType := c.saleType, country := c.country, buyer := c.buyer, amount := s.gross);
    if ctx.reason == "" {
      if f.objectType == "charge" && rep.charged.Some? {
        ctx := ctx.(supplyDate := rep.charged.value);
      }
      if UnsupportedReason(c) != "" {
        ctx := ctx.(reason := UnsupportedReason(c));
      }
    }
    if f.objectType == "refund" {
      ctx := ctx.(amount := -s.gross, revenue := -s.revenue, vat := -s.vat);
    }
    return Some(ctx);
  }

  // ---------------------------------------------------------------------------
  // The two entries
  // ---------------------------------------------------------------------------

  predicate IsOssCandidate(c: Context) { HasPrefix(c.status, "EU_") && HasSuffix(c.status, "_B2C") }

  predicate IsPsCandidate(c: Context) { HasPrefix(c.status, "EU_") && HasSuffix(c.status, "_B2B") && c.buyer != "" }

  /** The rate that the amounts themselves show, in basis points. */
  function ShownRate(revenue: int, vat: int): int {
    if revenue == 0 || vat == 0 then 0
    else if revenue > 0 then Round(vat * 10000, revenue)
    else Round(-vat * 10000, -revenue)
  }

  predicate ValidContext(c: Context) { ValidDate(c.postingDate) && ValidDate(c.supplyDate) }

  function RateOf(s: Settings, c: Context): int {
    if c.country in s.rates then s.rates[c.country] else ShownRate(c.revenue, c.vat)
  }

  function OssEntryFor(s: Settings, c: Context, id: nat): OssEntry
    requires ValidContext(c)
  {
    var period, supply := QuarterPeriod(c.postingDate), QuarterPeriod(c.supplyDate);
    var target := if c.objectType == "refund" && period != supply then Some(supply) else None;
    var encodable := Latin1(s.origin) && Latin1(c.country);
    var ready := c.reason == "" && encodable;
    OssEntry(id, c.taxCase, c.group, c.objectType, c.objectId, supply, period, target, c.country, s.origin, c.saleType, RateOf(s, c),
             if ready then c.revenue else 0, if ready then c.vat else 0, if ready then Ready else Review,
             if ready then None else if c.reason != "" then Some(c.reason) else Some("OSS entry contains characters outside ISO-8859-1"))
  }

  method BuildOssUnionEntry(s: Settings, c: Context, id: nat) returns (e: OssEntry)
    requires ValidContext(c)
    ensures e == OssEntryFor(s, c, id)
  {
    var period, supply := QuarterPeriod(c.postingDate), QuarterPeriod(c.supplyDate);
    hide QuarterPeriod, RateOf, Latin1;
    var state, reason := Ready, None;
    if c.reason != "" {
      state, reason := Review, Some(c.reason);
    }
    e := OssEntry(id, c.taxCase, c.group, c.objectType, c.objectId, supply, period, None, c.country, s.origin, c.saleType,
                  RateOf(s, c), 0, 0, state, reason);
    if state == Ready {
      e := e.(taxable := c.revenue, vat := c.vat);
    }
    if c.objectType == "refund" && period != supply {
      e := e.(correctionTarget := Some(supply));
    }
    if state == Ready && (!Latin1(e.origin) || !Latin1(e.country)) {
      e := e.(state := Review, reason := Some("OSS entry contains characters outside ISO-8859-1"), taxable := 0, vat := 0);
    }
  }

  function PsRowType(saleType: string): string {
    if saleType == "GOODS" then "goods" else if saleType == "SERVICES" then "services" else ""
  }

  /** Why a periodic summary entry needs review; later findings replace earlier ones. */
  function PsReason(c: Context): Option<string> {
    if PsRowType(c.saleType) == "" then Some("periodic summary row type could not be resolved")
    else if c.reason != "" then Some(c.reason)
    else if c.amount == 0 then Some("periodic summary entry is missing settled SEK amount")
    else if !Latin1(c.buyer) then Some("periodic summary buyer VAT number contains characters outside ISO-8859-1")
    else None
  }

  function PsEntryFor(c: Context, id: nat): PsEntry
    requires ValidContext(c)
  {
    var ready := PsReason(c).None?;
    var amount := if ready then c.amount else 0;
    PsEntry(id, c.taxCase, c.group, c.objectType, c.objectId, MonthPeriod(c.postingDate), c.buyer, PsRowType(c.saleType),
            amount, OreToWholeSek(amount), if ready then Ready else Review, PsReason(c))
  }

  method BuildPeriodicSummaryEntry(c: Context, id: nat) returns (e: PsEntry)
    requires ValidContext(c)
    ensures e == PsEntryFor(c, id)
  {
    hide Latin1, MonthPeriod;
    var state, reason := Ready, None;
    if c.reason != "" {
      state, reason := Review, Some(c.reason);
    }
    var rowType := PsRowType(c.saleType);
    if rowType == "" {
      state, reason := Review, Some("periodic summary row type could not be resolved");
    }
    var amount := c.amount;
    if state == Ready && amount == 0 {
      state, reason := Review, Some("periodic summary entry is missing settled SEK amount");
    }
    if state == Review { amount := 0; }
    e := PsEntry(id, c.taxCase, c.group, c.objectType, c.objectId, MonthPeriod(c.postingDate), c.buyer, rowType,
                 amount, OreToWholeSek(amount), state, reason);
    if state == Ready && !Latin1(e.buyer) {
      e := e.(state := Review, reason := Some("periodic summary buyer VAT number contains characters outside ISO-8859-1"),
              amountOre := 0, exported := 0);
    }
  }

  // ---------------------------------------------------------------------------
  // A group on its own
  // ---------------------------------------------------------------------------

  /** The facts carry dates of the calendar. */
  predicate Dated(facts: seq<FilingFact>) {
    forall f :: f in facts ==> CivilDate(f.fact.date) && (f.charged.Some? ==> ValidDate(f.charged.value))
  }

  lemma ContextIsValid(facts: seq<FilingFact>, cases: map<nat, TaxCase>)
    requires Dated(facts) && facts != []
    ensures ContextOf(facts, cases).Some?
    ensures var c := ContextOf(facts, cases).value;
      ValidContext(c) && CivilDate(c.postingDate) && exists f :: f in facts && c.group == f.fact.group && c.postingDate == f.fact.date
  {
    hide Summarized, FactLeq;
    var arranged := SortBy(facts, FactLeq);
    SortByMultiset(facts, FactLeq);
    assert |arranged| == |multiset(arranged)| == |facts|;
    assert arranged[0] in multiset(arranged) && arranged[0] in multiset(facts);
  }

  /** What one group of facts is filed as, in each table, by itself. */
  function OssOfGroup(s: Settings, facts: seq<FilingFact>, cases: map<nat, TaxCase>, id: nat): Option<OssEntry>
    requires Dated(facts)
  {
    if facts == [] then None
    else
      ContextIsValid(facts, cases);
      var c := ContextOf(facts, cases).value;
      if IsOssCandidate(c) then Some(OssEntryFor(s, c, id)) else None
  }

  function PsOfGroup(facts: seq<FilingFact>, cases: map<nat, TaxCase>, id: nat): Option<PsEntry>
    requires Dated(facts)
  {
    if facts == [] then None
    else
      ContextIsValid(facts, cases);
      var c := ContextOf(facts, cases).value;
      if IsPsCandidate(c) then Some(PsEntryFor(c, id)) else None
  }
}
