/** What an entry says: the amounts of the sale or refund whose facts it was built from. */
module EntryMeaning {
  import opened Grouping
  import opened Text
  import opened Ledger
  import opened Rounding
  import opened Periods
  import opened FactBuilders
  import opened DoubleEntry
  import opened Filing
  import opened Entries
  import opened Render
  import opened RenderLaws

  // ---------------------------------------------------------------------------
  // The order of a group's facts does not matter
  // ---------------------------------------------------------------------------

  /** What the facts of one group share. */
  function HeaderOf(f: FilingFact): FilingFact {
    f.(createdAt := 0,
       fact := f.fact.(id := 0, factType := "", amount := 0, account := 0, direction := Debit, status := Pending, payload := None))
  }

  predicate Alike(a: FilingFact, b: FilingFact) {
    && HeaderOf(a) == HeaderOf(b)
    && (IsGross(a.fact) && IsGross(b.fact) ==> a.fact.amount == b.fact.amount)
    && (IsRevenue(a.fact) && IsRevenue(b.fact) ==> a.fact.amount == b.fact.amount)
    && (IsVat(a.fact) && IsVat(b.fact) ==> a.fact.amount == b.fact.amount)
  }

  /** One event's facts: the same header, and one amount per role. */
  predicate Uniform(facts: seq<FilingFact>) {
    forall a, b :: a in facts && b in facts ==> Alike(a, b)
  }

  lemma Roles(f: Fact)
    ensures !(IsGross(f) && IsRevenue(f)) && !(IsGross(f) && IsVat(f)) && !(IsRevenue(f) && IsVat(f))
  {}

  ghost predicate Sums(s: Summary, facts: seq<FilingFact>) {
    && (forall f :: f in facts && IsGross(f.fact) ==> s.gross == f.fact.amount)
    && (forall f :: f in facts && IsRevenue(f.fact) ==> s.revenue == f.fact.amount)
    && (forall f :: f in facts && IsVat(f.fact) ==> s.vat == f.fact.amount)
    && ((forall f :: f in facts ==> !IsGross(f.fact)) ==> s.gross == 0)
    && ((forall f :: f in facts ==> !IsRevenue(f.fact)) ==> s.revenue == 0)
    && ((forall f :: f in facts ==> !IsVat(f.fact)) ==> s.vat == 0)
    && (forall f :: f in facts ==> s.reason == f.fact.reviewReason.GetOr(""))
    && (facts == [] ==> s.reason == "")
  }

  lemma SumsSnoc(s: Summary, front: seq<FilingFact>, f: FilingFact)
    requires Sums(s, front) && Uniform(front + [f])
    ensures Sums(Noted(s, f.fact), front + [f])
  {
    var all := front + [f];
    Roles(f.fact);
    hide IsGross, IsRevenue, IsVat;
    assert f in all;
    forall g | g in all ensures Alike(g, f) && (g in front || g == f) {}
    assert forall g :: g in front ==> g in all;
    if front != [] { assert front[0] in front; }
  }

  lemma {:induction false} SummarizedSums(facts: seq<FilingFact>)
    requires Uniform(facts)
    ensures Sums(Summarized(facts), facts)
  {
    hide Sums, Noted, Alike;
    if facts == [] {
      NothingSums();
    } else {
      var front, f := facts[..|facts| - 1], facts[|facts| - 1];
      assert facts == front + [f];
      assert forall g :: g in front ==> g in facts;
      SummarizedSums(front);
      SumsSnoc(Summarized(front), front, f);
    }
  }

  lemma NothingSums()
    ensures Sums(Summarized([]), [])
  {}

  lemma SumsUnique(a: seq<FilingFact>, b: seq<FilingFact>, s: Summary, t: Summary)
    requires multiset(a) == multiset(b) && Sums(s, a) && Sums(t, b)
    ensures s == t
  {
    hide IsGross, IsRevenue, IsVat;
    SameMembers(a, b);
    if a != [] { assert a[0] in a; }
    if s.gross != t.gross { var f :| f in a && IsGross(f.fact); }
    if s.revenue != t.revenue { var f :| f in a && IsRevenue(f.fact); }
    if s.vat != t.vat { var f :| f in a && IsVat(f.fact); }
  }

  lemma SameMembers<T>(a: seq<T>, b: seq<T>)
    requires multiset(a) == multiset(b)
    ensures forall f :: f in a <==> f in b
    ensures |a| == |b|
  {
    forall f ensures f in a <==> f in b { assert f in multiset(a) <==> f in multiset(b); }
    assert |a| == |multiset(a)| == |multiset(b)| == |b|;
  }

  /** However the facts of one event are listed, and whichever way ties are sorted, the group
      has the same context: any arrangement gives what `ContextOf` gives. */
  lemma ContextIgnoresOrder(facts: seq<FilingFact>, arranged: seq<FilingFact>, cases: map<nat, TaxCase>)
    requires Uniform(facts) && multiset(arranged) == multiset(facts) && facts != []
    ensures arranged != []
    ensures ContextOf(facts, cases) == Some(ContextFor(arranged[0], Summarized(arranged), cases))
  {
    var sorted := SortBy(facts, FactLeq);
    SortByMultiset(facts, FactLeq);
    SameMembers(facts, sorted);
    SameMembers(facts, arranged);
    hide Alike, Summarized, SortBy;
    SummarizedSums(sorted);
    SummarizedSums(arranged);
    SumsUnique(sorted, arranged, Summarized(sorted), Summarized(arranged));
    assert sorted[0] in sorted && arranged[0] in arranged;
    SameRepresentative(sorted[0], arranged[0], Summarized(sorted), cases);
  }

  lemma SameRepresentative(a: FilingFact, b: FilingFact, s: Summary, cases: map<nat, TaxCase>)
    requires Alike(a, b)
    ensures ContextFor(a, s, cases) == ContextFor(b, s, cases)
  {
    hide IsGross, IsRevenue, IsVat;
    var h, k := HeaderOf(a), HeaderOf(b);
    assert a.charged == h.charged && b.charged == k.charged;
    assert a.fact.taxCase == h.fact.taxCase && b.fact.taxCase == k.fact.taxCase;
    assert a.fact.group == h.fact.group && b.fact.group == k.fact.group;
    assert a.fact.objectType == h.fact.objectType && b.fact.objectType == k.fact.objectType;
    assert a.fact.objectId == h.fact.objectId && b.fact.objectId == k.fact.objectId;
    assert a.fact.date == h.fact.date && b.fact.date == k.fact.date;
  }

  // ---------------------------------------------------------------------------
  // Any facts
  // ---------------------------------------------------------------------------

  /** `amount` is that of the last fact of one of the types, or zero if there is none. */
  ghost predicate LastAmount(facts: seq<FilingFact>, types: set<string>, amount: int) {
    || (amount == 0 && forall f :: f in facts ==> f.fact.factType !in types)
    || (exists i :: (
        && 0 <= i < |facts| && facts[i].fact.factType in types && facts[i].fact.amount == amount
        && forall j :: i < j < |facts| ==> facts[j].fact.factType !in types))
  }

  /** `reason` is the first one that is given, or empty. */
  ghost predicate FirstReason(facts: seq<FilingFact>, reason: string) {
    || (reason == "" && forall f :: f in facts ==> f.fact.reviewReason.GetOr("") == "")
    || (exists i :: (
        && 0 <= i < |facts| && facts[i].fact.reviewReason == Some(reason) && reason != ""
        && forall j :: 0 <= j < i ==> facts[j].fact.reviewReason.GetOr("") == ""))
  }

  lemma LastAmountSnoc(front: seq<FilingFact>, f: FilingFact, types: set<string>, amount: int)
    requires LastAmount(front, types, amount)
    ensures LastAmount(front + [f], types, if f.fact.factType in types then f.fact.amount else amount)
  {
    var all := front + [f];
    if f.fact.factType in types {
      assert all[|front|] == f;
    } else if i :| 0 <= i < |front| && front[i].fact.factType in types && front[i].fact.amount == amount
                   && forall j :: i < j < |front| ==> front[j].fact.factType !in types {
      assert all[i] == front[i];
      forall j | i < j < |all| ensures all[j].fact.factType !in types {}
    }
  }

  lemma FirstReasonSnoc(front: seq<FilingFact>, f: FilingFact, reason: string)
    requires FirstReason(front, reason)
    ensures FirstReason(front + [f], if reason == "" && f.fact.reviewReason.Some? then f.fact.reviewReason.value else reason)
  {
    var all := front + [f];
    assert all[|front|] == f;
    if i :| 0 <= i < |front| && front[i].fact.reviewReason == Some(reason) && reason != ""
            && forall j :: 0 <= j < i ==> front[j].fact.reviewReason.GetOr("") == "" {
      assert all[i] == front[i];
    } else {
      forall j | 0 <= j < |front| ensures all[j].fact.reviewReason.GetOr("") == "" { assert front[j] in front; }
    }
  }

  /** What a group's summary holds: for gross, revenue and VAT the amount of the last fact of a type
      that stands for it, and the first reason for review. */
  lemma {:induction false} SummaryMeans(facts: seq<FilingFact>)
    ensures var s := Summarized(facts);
      && LastAmount(facts, {"sale_receivable", "sale_review_receivable", "refund_receivable", "refund_review_receivable"}, s.gross)
      && LastAmount(facts, {"sale_revenue", "refund_revenue"}, s.revenue)
      && LastAmount(facts, {"sale_output_vat", "refund_output_vat"}, s.vat)
      && FirstReason(facts, s.reason)
  {
    hide LastAmount, FirstReason;
    if facts == [] {
      NothingSummarised();
    } else {
      var front, f := facts[..|facts| - 1], facts[|facts| - 1];
      assert facts == front + [f];
      SummaryMeans(front);
      var s := Summarized(front);
      LastAmountSnoc(front, f, {"sale_receivable", "sale_review_receivable", "refund_receivable", "refund_review_receivable"}, s.gross);
      LastAmountSnoc(front, f, {"sale_revenue", "refund_revenue"}, s.revenue);
      LastAmountSnoc(front, f, {"sale_output_vat", "refund_output_vat"}, s.vat);
      FirstReasonSnoc(front, f, s.reason);
      Roles(f.fact);
    }
  }

  lemma NothingSummarised()
    ensures forall types :: LastAmount([], types, 0)
    ensures FirstReason([], "")
  {}

  ghost predicate Preorder<T(!new)>(leq: (T, T) -> bool) {
    (forall a, b :: leq(a, b) || leq(b, a)) && (forall a, b, c :: leq(a, b) && leq(b, c) ==> leq(a, c))
  }

  lemma {:induction false} InsertedHead<T(!new)>(x: T, s: seq<T>, leq: (T, T) -> bool)
    requires Preorder(leq) && (s != [] ==> forall y :: y in s ==> leq(s[0], y))
    ensures var r := Insert(x, s, leq); r != [] && leq(r[0], x) && forall y :: y in s ==> leq(r[0], y)
  {
    assert leq(x, x);
    if s != [] && leq(x, s[0]) {
      forall y | y in s ensures leq(x, y) { assert leq(s[0], y); }
    }
  }

  lemma {:induction false} SortedHeadIsLeast<T(!new)>(s: seq<T>, leq: (T, T) -> bool)
    requires Preorder(leq) && s != []
    ensures var r := SortBy(s, leq); r != [] && forall y :: y in s ==> leq(r[0], y)
  {
    hide Preorder;
    SortByMultiset(s[1..], leq);
    SameMembers(SortBy(s[1..], leq), s[1..]);
    if s[1..] != [] { SortedHeadIsLeast(s[1..], leq); }
    InsertedHead(s[0], SortBy(s[1..], leq), leq);
    forall y | y in s ensures y == s[0] || y in s[1..] {}
  }

  lemma FactOrder()
    ensures Preorder(FactLeq)
  {
    StringOrder();
    hide StringLeq;
    forall a, b ensures FactLeq(a, b) || FactLeq(b, a) {}
    forall a, b, c | FactLeq(a, b) && FactLeq(b, c) ensures FactLeq(a, c) {}
  }

  /** Any group is filed under what its first fact says, by type in byte order and then by creation. */
  lemma FiledUnderFirst(facts: seq<FilingFact>, cases: map<nat, TaxCase>) returns (rep: FilingFact)
    requires facts != []
    ensures rep in facts
    ensures forall f :: f in facts ==>
      StringLeq(rep.fact.factType, f.fact.factType) && (f.fact.factType == rep.fact.factType ==> rep.createdAt <= f.createdAt)
    ensures ContextOf(facts, cases).Some?
    ensures var c := ContextOf(facts, cases).value;
      && c.taxCase == rep.fact.taxCase && c.group == rep.fact.group && c.objectType == rep.fact.objectType
      && c.objectId == rep.fact.objectId && c.postingDate == rep.fact.date
      && (c.supplyDate == rep.fact.date || (rep.fact.objectType == "charge" && rep.charged == Some(c.supplyDate)))
  {
    FactOrder();
    SortedHeadIsLeast(facts, FactLeq);
    SortByMultiset(facts, FactLeq);
    SameMembers(facts, SortBy(facts, FactLeq));
    StringOrder();
    hide SortBy, Preorder, Summarized, StringLeq;
    rep := SortBy(facts, FactLeq)[0];
    assert rep in SortBy(facts, FactLeq);
    forall f | f in facts ensures StringLeq(rep.fact.factType, f.fact.factType) { assert FactLeq(rep, f); }
  }

  // ---------------------------------------------------------------------------
  // Sales and refunds
  // ---------------------------------------------------------------------------

  /** Facts as one transaction stores them. */
  function Stored(facts: seq<Fact>, at: nat, charged: Option<Date>): (r: seq<FilingFact>)
    ensures |r| == |facts|
    ensures forall i :: 0 <= i < |facts| ==> r[i] == FilingFact(facts[i], at, charged)
  {
    seq(|facts|, i requires 0 <= i < |facts| => FilingFact(facts[i], at, charged))
  }

  predicate Reportable(cases: map<nat, TaxCase>, taxCase: Option<nat>) {
    taxCase.Some? && taxCase.value in cases && cases[taxCase.value].reportable
  }

  function Filed(taxCase: nat, c: TaxCase, group: string, objectType: string, objectId: string, date: Date, supply: Date,
                 amount: int, revenue: int, vat: int): Context
  {
    Context(Some(taxCase), group, objectType, objectId, date, supply, c.status, c.saleType, c.country, c.buyer,
            amount, revenue, vat, "")
  }

  lemma SaleFactsAlike(s: SaleInput, id: nat, at: nat, charged: Option<Date>)
    ensures Uniform(Stored(s.SaleGroup(id), at, charged))
    ensures Summarized(Stored(s.SaleGroup(id), at, charged))
      == Summary(Abs(s.gross), Abs(s.revenue), BookedVat(s.vat, s.accounts.outputVat), "")
  {
    var facts := Stored(s.SaleGroup(id), at, charged);
    SaleRoles(s, id);
    assert facts[..0] == [];
    assert facts[..1][..0] == facts[..0];
    assert facts[..2][..1] == facts[..1];
    hide IsGross, IsRevenue, IsVat;
    assert Summarized(facts[..1]) == Summary(Abs(s.gross), 0, 0, "");
    assert Summarized(facts[..2]) == Summary(Abs(s.gross), Abs(s.revenue), 0, "");
    if |facts| == 2 {
      assert facts[..2] == facts;
    } else {
      assert facts[..3] == facts && facts[..3][..2] == facts[..2];
    }
  }

  lemma SaleRoles(s: SaleInput, id: nat)
    ensures var g := s.SaleGroup(id);
      && IsGross(g[0]) && !IsRevenue(g[0]) && !IsVat(g[0])
      && IsRevenue(g[1]) && !IsGross(g[1]) && !IsVat(g[1])
      && (|g| == 3 ==> IsVat(g[2]) && !IsGross(g[2]) && !IsRevenue(g[2]))
  {
    var g := s.SaleGroup(id);
    Roles(g[0]);
    Roles(g[1]);
    if |g| == 3 { Roles(g[2]); }
  }

  /** A charge's sale group is filed with the amounts it was booked with, in whatever order its
      facts come back. `charged` is the date in the payload, which the supply date is taken from. */
  lemma SaleIsFiledAsBooked(s: SaleInput, id: nat, at: nat, charged: Option<Date>, listing: seq<FilingFact>,
                            cases: map<nat, TaxCase>)
    requires s.gross > 0 && s.revenue >= 0 && s.objectType == "charge" && Reportable(cases, s.taxCase)
    requires multiset(listing) == multiset(Stored(s.SaleGroup(id), at, charged))
    ensures ContextOf(listing, cases) == Some(Filed(s.taxCase.value, cases[s.taxCase.value], s.prefix + ":sale", "charge", s.objectId,
      s.chargeDate, charged.GetOr(s.chargeDate), s.gross, s.revenue, BookedVat(s.vat, s.accounts.outputVat)))
  {
    var facts := Stored(s.SaleGroup(id), at, charged);
    SaleFactsAlike(s, id, at, charged);
    SameMembers(listing, facts);
    assert "charge" != "refund" by { assert "charge"[0] != "refund"[0]; }
    hide Alike, Summarized, IsGross, IsRevenue, IsVat;
    ContextIgnoresOrder(listing, facts, cases);
  }

  lemma RefundRoles(r: RefundInput, id: nat)
    ensures var g := r.Facts(id);
      && IsGross(g[0]) && !IsRevenue(g[0]) && !IsVat(g[0])
      && IsRevenue(g[1]) && !IsGross(g[1]) && !IsVat(g[1])
      && (|g| == 3 ==> IsVat(g[2]) && !IsGross(g[2]) && !IsRevenue(g[2]))
  {
    var g := r.Facts(id);
    Roles(g[0]);
    Roles(g[1]);
    if |g| == 3 { Roles(g[2]); }
  }

  lemma RefundFactsAlike(r: RefundInput, id: nat, at: nat, charged: Option<Date>)
    ensures Uniform(Stored(r.Facts(id), at, charged))
    ensures Summarized(Stored(r.Facts(id), at, charged)) == Summary(Abs(r.gross), Abs(r.revenue), BookedVat(r.vat, r.outputVat), "")
  {
    var facts := Stored(r.Facts(id), at, charged);
    RefundRoles(r, id);
    assert facts[..0] == [];
    assert facts[..1][..0] == facts[..0];
    assert facts[..2][..1] == facts[..1];
    hide IsGross, IsRevenue, IsVat;
    assert Summarized(facts[..1]) == Summary(Abs(r.gross), 0, 0, "");
    assert Summarized(facts[..2]) == Summary(Abs(r.gross), Abs(r.revenue), 0, "");
    if |facts| == 2 {
      assert facts[..2] == facts;
    } else {
      assert facts[..3] == facts && facts[..3][..2] == facts[..2];
    }
  }

  /** A refund is filed with the negated amounts, on its own posting date, whatever date its payload
      gives. */
  lemma RefundIsFiledAsBooked(r: RefundInput, id: nat, at: nat, charged: Option<Date>, listing: seq<FilingFact>,
                              cases: map<nat, TaxCase>)
    requires r.gross >= 0 && r.revenue >= 0 && Reportable(cases, r.taxCase)
    requires multiset(listing) == multiset(Stored(r.Facts(id), at, charged))
    ensures ContextOf(listing, cases) == Some(Filed(r.taxCase.value, cases[r.taxCase.value], r.group, "refund", r.objectId,
      r.date, r.date, -r.gross, -r.revenue, -BookedVat(r.vat, r.outputVat)))
  {
    var facts := Stored(r.Facts(id), at, charged);
    RefundFactsAlike(r, id, at, charged);
    SameMembers(listing, facts);
    assert "charge" != "refund" by { assert "charge"[0] != "refund"[0]; }
    hide Alike, Summarized, IsGross, IsRevenue, IsVat;
    ContextIgnoresOrder(listing, facts, cases);
  }

  /** The supply date of a refund is never moved off its posting date, so no entry that is built
      from facts corrects an earlier period, however late the refund. */
  lemma RefundsNeverCorrect(s: Settings, facts: seq<FilingFact>, cases: map<nat, TaxCase>, id: nat)
    requires Entries.Dated(facts) && OssOfGroup(s, facts, cases, id).Some?
    ensures OssOfGroup(s, facts, cases, id).value.correctionTarget.None?
  {
    ContextIsValid(facts, cases);
    assert "charge" != "refund" by { assert "charge"[0] != "refund"[0]; }
    hide Summarized, SortBy, QuarterPeriod, RateOf;
  }

  // ---------------------------------------------------------------------------
  // A refunded sale
  // ---------------------------------------------------------------------------

  lemma RateIsEven(s: Settings, c: Context, d: Context)
    requires d.country == c.country && d.revenue == -c.revenue && d.vat == -c.vat
    ensures RateOf(s, c) == RateOf(s, d)
  {
    assert -(-c.vat) * 10000 == c.vat * 10000;
  }

  /** Two entries that cancel: the same row, opposite amounts. */
  predicate Cancel(a: OssEntry, b: OssEntry) {
    && a.correctionTarget.None? && b.correctionTarget.None? && a.state == b.state
    && KeyOf(a) == KeyOf(b) && a.taxable + b.taxable == 0 && a.vat + b.vat == 0
  }

  lemma PairLeavesTotals<A, K>(f: A -> Option<Keyed<K>>, entries: seq<A>, a: A, b: A, k: K)
    requires f(a).Some? <==> f(b).Some?
    requires f(a).Some? ==> f(a).value.key == f(b).value.key && f(a).value.amount + f(b).value.amount == 0
    ensures Total(Collect(f, entries + [a] + [b]), k) == Total(Collect(f, entries), k)
  {
    hide Total, Collect;
    CollectSnoc(f, entries, a);
    CollectSnoc(f, entries + [a], b);
    if f(a).Some? {
      TotalSnoc(Collect(f, entries), f(a).value, k);
      TotalSnoc(Collect(f, entries + [a]), f(b).value, k);
    }
  }

  lemma CancellingEntriesVanish(entries: seq<OssEntry>, a: OssEntry, b: OssEntry)
    requires Cancel(a, b)
    ensures MainLines(entries + [a] + [b]) == MainLines(entries)
    ensures Corrections(entries + [a] + [b]) == Corrections(entries)
  {
    hide Total, Collect, MainLines;
    var two := entries + [a] + [b];
    CollectSnoc(CorrectionOf, entries, a);
    CollectSnoc(CorrectionOf, entries + [a], b);
    forall k ensures AmountsAt(Taxables(two), Vats(two))(k) == AmountsAt(Taxables(entries), Vats(entries))(k) {
      PairLeavesTotals(TaxableOf, entries, a, b, k);
      PairLeavesTotals(VatOf, entries, a, b, k);
    }
    MainLinesDetermined(two, entries);
  }

  /** A sale and a refund of all of it in the same quarter leave the quarter's rows as if neither
      had happened. */
  lemma RefundedSaleVanishes(settings: Settings, sale: Context, refund: Context, id1: nat, id2: nat,
                             entries: seq<OssEntry>)
    requires ValidContext(sale) && ValidContext(refund)
    requires sale.objectType == "charge" && refund.objectType == "refund" && refund.supplyDate == refund.postingDate
    requires sale.reason == refund.reason && sale.country == refund.country && sale.saleType == refund.saleType
    requires refund.revenue == -sale.revenue && refund.vat == -sale.vat
    ensures var a, b := OssEntryFor(settings, sale, id1), OssEntryFor(settings, refund, id2);
      MainLines(entries + [a] + [b]) == MainLines(entries) && Corrections(entries + [a] + [b]) == Corrections(entries)
  {
    assert "charge" != "refund" by { assert "charge"[0] != "refund"[0]; }
    hide QuarterPeriod, MainLines, Corrections, Latin1;
    RateIsEven(settings, sale, refund);
    hide RateOf;
    CancellingEntriesVanish(entries, OssEntryFor(settings, sale, id1), OssEntryFor(settings, refund, id2));
  }

  /** Two summary entries that cancel: the same buyer and row type, opposite amounts. */
  predicate CancelSales(a: PsEntry, b: PsEntry) {
    a.state == b.state && a.buyer == b.buyer && a.rowType == b.rowType && a.exported + b.exported == 0
  }

  /** The entry counts in one of the two columns. */
  predicate InColumn(e: PsEntry) { e.state.Ready? && e.rowType in {"goods", "services"} }

  lemma CancellingSales(entries: seq<PsEntry>, a: PsEntry, b: PsEntry, rowType: string, buyer: string)
    requires CancelSales(a, b)
    ensures var two := entries + [a] + [b];
      && Total(Sales(two, rowType), buyer) == Total(Sales(entries, rowType), buyer)
      && KeySet(Sales(two, rowType))
        == KeySet(Sales(entries, rowType)) + (if a.state.Ready? && a.rowType == rowType then {a.buyer} else {})
  {
    PairLeavesTotals(SaleOf(rowType), entries, a, b, buyer);
    hide Total, Collect, KeySet;
    CollectSnoc(SaleOf(rowType), entries, a);
    CollectSnoc(SaleOf(rowType), entries + [a], b);
    if a.state.Ready? && a.rowType == rowType {
      KeySetSnoc(Sales(entries, rowType), Keyed(a.buyer, a.exported));
      KeySetSnoc(Sales(entries + [a], rowType), Keyed(b.buyer, b.exported));
    }
  }

  /** Two cancelling entries leave a summary's rows as they are exactly when their buyer sells in
      that column anyway; otherwise the column shows a zero that was not there. */
  lemma CancellingSalesShow(entries: seq<PsEntry>, a: PsEntry, b: PsEntry)
    requires CancelSales(a, b)
    ensures var two := entries + [a] + [b];
      && (BuyerLines(two) == BuyerLines(entries) <==> InColumn(a) ==> a.buyer in KeySet(Sales(entries, a.rowType)))
      && (InColumn(a) && a.buyer !in KeySet(Sales(entries, a.rowType)) ==>
          Shown(Sales(entries, a.rowType), a.buyer) == None && Shown(Sales(two, a.rowType), a.buyer) == Some(0))
  {
    var two := entries + [a] + [b];
    hide Total, Collect, BuyerLines, KeySet;
    forall rowType, buyer
      ensures Total(Sales(two, rowType), buyer) == Total(Sales(entries, rowType), buyer)
      ensures KeySet(Sales(two, rowType))
        == KeySet(Sales(entries, rowType)) + (if a.state.Ready? && a.rowType == rowType then {a.buyer} else {})
    {
      CancellingSales(entries, a, b, rowType, buyer);
    }
    BuyerLinesDetermined(two, entries);
    if InColumn(a) && a.buyer !in KeySet(Sales(entries, a.rowType)) {
      TotalOfAbsentKey(Sales(entries, a.rowType), a.buyer);
      assert SalesIn(two)(a.buyer) != SalesIn(entries)(a.buyer);
    } else {
      forall buyer ensures SalesIn(two)(buyer) == SalesIn(entries)(buyer) {}
    }
  }

  lemma CancellingSalesFile(r: Reporter, period: string, entries: seq<PsEntry>, a: PsEntry, b: PsEntry)
    requires CancelSales(a, b)
    ensures var two := entries + [a] + [b]; var silent := InColumn(a) ==> a.buyer in KeySet(Sales(entries, a.rowType));
      && (silent ==> PsFile(r, period, two) == PsFile(r, period, entries))
      && (!silent && CleanBuyers(two) && CleanBuyers(entries) ==>
          PsFile(r, period, two).None? || PsFile(r, period, two) != PsFile(r, period, entries))
  {
    var two := entries + [a] + [b];
    CancellingSalesShow(entries, a, b);
    hide BuyerLines, KeySet, Collect, InColumn, CleanBuyers;
    if CleanBuyers(two) && CleanBuyers(entries) && PsFile(r, period, two).Some? {
      PsFileDetermined(r, period, two, entries);
      BuyerLinesDetermined(two, entries);
    }
  }

  // ---------------------------------------------------------------------------
  // From the facts to the files
  // ---------------------------------------------------------------------------

  /** The facts of one sale and of one refund, as they may come back from the database. */
  ghost predicate SaleAndRefund(s: SaleInput, r: RefundInput, sale: seq<FilingFact>, refund: seq<FilingFact>,
                                cases: map<nat, TaxCase>) {
    && s.gross > 0 && s.revenue >= 0 && s.objectType == "charge" && Reportable(cases, s.taxCase) && Mirrors(r, s)
    && Entries.Dated(sale) && Entries.Dated(refund)
    && (exists id, at :: multiset(sale) == multiset(Stored(s.SaleGroup(id), at, Some(s.chargeDate))))
    && (exists id, at :: multiset(refund) == multiset(Stored(r.Facts(id), at, None)))
  }

  /** The contexts of a sale and of its refund are those of two entries that cancel. */
  predicate Opposite(sale: Context, refund: Context) {
    && ValidContext(sale) && ValidContext(refund)
    && sale.objectType == "charge" && refund.objectType == "refund" && refund.supplyDate == refund.postingDate
    && sale.status == refund.status && sale.reason == refund.reason
    && sale.country == refund.country && sale.saleType == refund.saleType && sale.buyer == refund.buyer
    && refund.amount == -sale.amount && refund.revenue == -sale.revenue && refund.vat == -sale.vat
  }

  lemma SaleContext(s: SaleInput, r: RefundInput, sale: seq<FilingFact>, refund: seq<FilingFact>,
                    cases: map<nat, TaxCase>)
    requires SaleAndRefund(s, r, sale, refund, cases)
    ensures sale != [] && ContextOf(sale, cases).Some? && ValidContext(ContextOf(sale, cases).value)
    ensures ContextOf(sale, cases).value == Filed(
      s.taxCase.value, cases[s.taxCase.value], s.prefix + ":sale", "charge", s.objectId,
      s.chargeDate, s.chargeDate, s.gross, s.revenue, BookedVat(s.vat, s.accounts.outputVat))
  {
    var id, at :| multiset(sale) == multiset(Stored(s.SaleGroup(id), at, Some(s.chargeDate)));
    hide SaleInput.SaleGroup, ContextOf, Entries.Dated, Stored, RefundInput.Facts;
    SaleIsFiledAsBooked(s, id, at, Some(s.chargeDate), sale, cases);
    NoFactsNoContext(cases);
    ContextIsValid(sale, cases);
  }

  lemma RefundContext(s: SaleInput, r: RefundInput, sale: seq<FilingFact>, refund: seq<FilingFact>,
                      cases: map<nat, TaxCase>)
    requires SaleAndRefund(s, r, sale, refund, cases)
    ensures refund != [] && ContextOf(refund, cases).Some? && ValidContext(ContextOf(refund, cases).value)
    ensures ContextOf(refund, cases).value == Filed(
      r.taxCase.value, cases[r.taxCase.value], r.group, "refund", r.objectId,
      r.date, r.date, -r.gross, -r.revenue, -BookedVat(r.vat, r.outputVat))
  {
    var id, at :| multiset(refund) == multiset(Stored(r.Facts(id), at, None));
    hide SaleInput.SaleGroup, ContextOf, Entries.Dated, Stored, RefundInput.Facts;
    RefundIsFiledAsBooked(r, id, at, None, refund, cases);
    NoFactsNoContext(cases);
    ContextIsValid(refund, cases);
  }

  lemma ContextsOppose(s: SaleInput, r: RefundInput, sale: seq<FilingFact>, refund: seq<FilingFact>,
                       cases: map<nat, TaxCase>)
    requires SaleAndRefund(s, r, sale, refund, cases)
    ensures sale != [] && refund != [] && ContextOf(sale, cases).Some? && ContextOf(refund, cases).Some?
    ensures Opposite(ContextOf(sale, cases).value, ContextOf(refund, cases).value)
  {
    hide SaleInput.SaleGroup, RefundInput.Facts, ContextOf, Entries.Dated, Stored;
    SaleContext(s, r, sale, refund, cases);
    RefundContext(s, r, sale, refund, cases);
  }

  lemma NoFactsNoContext(cases: map<nat, TaxCase>)
    ensures ContextOf([], cases).None?
  {}

  lemma OppositeSalesCancel(sale: Context, refund: Context, i: nat, j: nat)
    requires Opposite(sale, refund)
    ensures IsPsCandidate(sale) <==> IsPsCandidate(refund)
    ensures CancelSales(PsEntryFor(sale, i), PsEntryFor(refund, j))
  {
    WholeSekIsNearest(sale.amount);
    hide Latin1, MonthPeriod, OreToWholeSek, Round, PsRowType, HasPrefix, HasSuffix;
    ZeroRounds();
  }

  lemma ZeroRounds()
    ensures OreToWholeSek(0) == 0
  {}

  function With<A>(entries: seq<A>, a: Option<A>, b: Option<A>): seq<A> {
    entries + (match a case None => [] case Some(x) => [x]) + (match b case None => [] case Some(x) => [x])
  }

  lemma OppositeSalesVanish(settings: Settings, sale: Context, refund: Context, i: nat, j: nat, identifier: string,
                            period: string, entries: seq<OssEntry>)
    requires Opposite(sale, refund)
    ensures IsOssCandidate(sale) <==> IsOssCandidate(refund)
    ensures OssFile(identifier, period, entries + [OssEntryFor(settings, sale, i)] + [OssEntryFor(settings, refund, j)])
      == OssFile(identifier, period, entries)
  {
    hide HasPrefix, HasSuffix, OssEntryFor, MainLines, Corrections, CorrectionLines, Encode, ScanQuarter, OssHeader;
    RefundedSaleVanishes(settings, sale, refund, i, j, entries);
    var a, b := OssEntryFor(settings, sale, i), OssEntryFor(settings, refund, j);
    SameLinesSameFile(identifier, period, entries + [a] + [b], entries);
  }

  lemma SameLinesSameFile(identifier: string, period: string, a: seq<OssEntry>, b: seq<OssEntry>)
    requires MainLines(a) == MainLines(b) && Corrections(a) == Corrections(b)
    ensures OssFile(identifier, period, a) == OssFile(identifier, period, b)
  {
    hide MainLines, Corrections, Encode, ScanQuarter, OssHeader;
  }

  /** A sale and a refund that pays it back in full, filed together, leave the OSS file byte for
      byte as it would be without the two. */
  lemma RefundUndoesSaleInOss(settings: Settings, s: SaleInput, r: RefundInput, sale: seq<FilingFact>,
                              refund: seq<FilingFact>, cases: map<nat, TaxCase>, i: nat, j: nat,
                              identifier: string, period: string, entries: seq<OssEntry>)
    requires SaleAndRefund(s, r, sale, refund, cases)
    ensures var a, b := OssOfGroup(settings, sale, cases, i), OssOfGroup(settings, refund, cases, j);
      (a.Some? <==> b.Some?) && OssFile(identifier, period, With(entries, a, b)) == OssFile(identifier, period, entries)
  {
    ContextsOppose(s, r, sale, refund, cases);
    hide ContextOf, SaleAndRefund, OssEntryFor, OssFile, Opposite, IsOssCandidate;
    var x, y := ContextOf(sale, cases).value, ContextOf(refund, cases).value;
    OppositeAreValid(x, y);
    OppositeSalesVanish(settings, x, y, i, j, identifier, period, entries);
    assert entries + [] + [] == entries;
  }

  /** In the periodic summary every buyer's totals stay as they are, and so does the file, unless
      the buyer has nothing else in that column, which then shows a zero. */
  lemma RefundUndoesSaleInSummary(s: SaleInput, r: RefundInput, sale: seq<FilingFact>, refund: seq<FilingFact>,
                                  cases: map<nat, TaxCase>, i: nat, j: nat,
                                  reporter: Reporter, period: string, entries: seq<PsEntry>)
    requires SaleAndRefund(s, r, sale, refund, cases)
    ensures var a, b := PsOfGroup(sale, cases, i), PsOfGroup(refund, cases, j); var both := With(entries, a, b);
      && (a.Some? <==> b.Some?)
      && (forall rowType, buyer :: Total(Sales(both, rowType), buyer) == Total(Sales(entries, rowType), buyer))
      && (BuyerLines(both) == BuyerLines(entries) <==>
          (a.Some? && InColumn(a.value) ==> a.value.buyer in KeySet(Sales(entries, a.value.rowType))))
      && (BuyerLines(both) == BuyerLines(entries) ==> PsFile(reporter, period, both) == PsFile(reporter, period, entries))
      && (CleanBuyers(both) && CleanBuyers(entries) && PsFile(reporter, period, both).Some? ==>
          (BuyerLines(both) == BuyerLines(entries) <==> PsFile(reporter, period, both) == PsFile(reporter, period, entries)))
      && (a.Some? && BuyerLines(both) != BuyerLines(entries) ==>
          && Shown(Sales(entries, a.value.rowType), a.value.buyer) == None
          && Shown(Sales(both, a.value.rowType), a.value.buyer) == Some(0))
  {
    ContextsOppose(s, r, sale, refund, cases);
    hide ContextOf, SaleAndRefund, IsPsCandidate, PsEntryFor, BuyerLines, Collect, KeySet, Total, Opposite, InColumn,
         Encode, CleanBuyers;
    var x, y := ContextOf(sale, cases).value, ContextOf(refund, cases).value;
    OppositeAreValid(x, y);
    OppositeSalesCancel(x, y, i, j);
    if IsPsCandidate(x) {
      CancellingSalesShow(entries, PsEntryFor(x, i), PsEntryFor(y, j));
      CancellingSalesFile(reporter, period, entries, PsEntryFor(x, i), PsEntryFor(y, j));
      forall rowType, buyer
        ensures Total(Sales(With(entries, Some(PsEntryFor(x, i)), Some(PsEntryFor(y, j))), rowType), buyer)
          == Total(Sales(entries, rowType), buyer)
      {
        CancellingSales(entries, PsEntryFor(x, i), PsEntryFor(y, j), rowType, buyer);
      }
    } else {
      assert entries + [] + [] == entries;
    }
  }

  lemma OppositeAreValid(sale: Context, refund: Context)
    requires Opposite(sale, refund)
    ensures ValidContext(sale) && ValidContext(refund)
  {}
}
