/** internal/bokio: recognising a journal or an upload that the remote side already holds. */
module Bokio {
  import opened Grouping
  import opened Text
  import opened Ledger
  import opened Journal

  datatype RemoteJournal = RemoteJournal(title: string, date: Date, items: seq<JournalItem>)

  datatype RemoteUpload = RemoteUpload(entry: nat, description: string)

  datatype Listed = Listed(id: nat, journal: RemoteJournal)

  datatype ListedUpload = ListedUpload(id: nat, upload: RemoteUpload)

  function NormalizeItem(item: JournalItem): string {
    DecInt(item.account) + "|" + Fixed2(item.debit, '.') + "|" + Fixed2(item.credit, '.')
  }

  function Normalized(items: seq<JournalItem>): seq<string> {
    SortBy(MapSeq(NormalizeItem, items), StringLeq)
  }

  /** Two item lists the matcher takes for the same journal. */
  predicate SameItems(a: seq<JournalItem>, b: seq<JournalItem>) {
    Normalized(a) == Normalized(b)
  }

  predicate SameJournal(a: RemoteJournal, b: RemoteJournal) {
    a.title == b.title && a.date == b.date && SameItems(a.items, b.items)
  }

  /** Two journals with the same title, date and multiset of items. */
  predicate SameEntry(a: RemoteJournal, b: RemoteJournal) {
    a.title == b.title && a.date == b.date && multiset(a.items) == multiset(b.items)
  }

  // ---------------------------------------------------------------------------
  // The code
  // ---------------------------------------------------------------------------

  method NormalizeJournalItems(items: seq<JournalItem>) returns (normalized: seq<string>)
    ensures normalized == Normalized(items)
  {
    hide NormalizeItem, SortBy;
    normalized := [];
    for i := 0 to |items|
      invariant normalized == MapSeq(NormalizeItem, items[..i])
    {
      normalized := normalized + [NormalizeItem(items[i])];
    }
    assert items[..|items|] == items;
    normalized := SortBy(normalized, StringLeq);
  }

  method SameJournalItems(a: seq<string>, b: seq<string>) returns (same: bool)
    ensures same <==> a == b
  {
    if |a| != |b| { return false; }
    for i := 0 to |a|
      invariant a[..i] == b[..i]
    {
      if a[i] != b[i] { return false; }
    }
    assert a[..|a|] == a && b[..|b|] == b;
    return true;
  }

  method EntryMatches(journal: RemoteJournal, wanted: RemoteJournal, expected: seq<string>) returns (same: bool)
    requires expected == Normalized(wanted.items)
    ensures same <==> SameJournal(journal, wanted)
  {
    if journal.title != wanted.title || journal.date != wanted.date { return false; }
    var actual := NormalizeJournalItems(journal.items);
    same := SameJournalItems(expected, actual);
  }

  predicate NoneMatches(page: seq<Listed>, wanted: RemoteJournal) {
    page == [] || (NoneMatches(page[..|page| - 1], wanted) && !SameJournal(page[|page| - 1].journal, wanted))
  }

  lemma {:induction false} NoneMatchesAll(page: seq<Listed>, wanted: RemoteJournal, e: Listed)
    requires NoneMatches(page, wanted) && e in page
    ensures !SameJournal(e.journal, wanted)
  {
    if e != page[|page| - 1] { NoneMatchesAll(page[..|page| - 1], wanted, e); }
  }

  /** The first entry of the page that matches, or the page's length. */
  method FirstMatch(wanted: RemoteJournal, page: seq<Listed>) returns (i: nat)
    ensures i <= |page| && NoneMatches(page[..i], wanted)
    ensures i < |page| ==> SameJournal(page[i].journal, wanted)
  {
    var expected := NormalizeJournalItems(wanted.items);
    i := 0;
    while i < |page|
      invariant i <= |page| && NoneMatches(page[..i], wanted)
    {
      var same := EntryMatches(page[i].journal, wanted, expected);
      if same { return; }
      assert page[..i + 1][..i] == page[..i];
      i := i + 1;
    }
  }

  /** `page` is what the remote side lists for the date. */
  method FindMatchingJournalEntry(wanted: RemoteJournal, page: seq<Listed>) returns (found: Option<nat>)
    ensures found.Some? ==> exists e :: e in page && e.id == found.value && SameEntry(e.journal, wanted)
    ensures found.None? ==> forall e :: e in page ==> !SameEntry(e.journal, wanted)
  {
    var i := FirstMatch(wanted, page);
    if i == |page| {
      assert page[..i] == page;
      forall e | e in page ensures !SameEntry(e.journal, wanted) {
        NoneMatchesAll(page, wanted, e);
        MatcherDecidesMultisetEquality(e.journal.items, wanted.items);
      }
      return None;
    }
    assert page[i] in page;
    MatcherDecidesMultisetEquality(page[i].journal.items, wanted.items);
    return Some(page[i].id);
  }

  method FindUploadByJournalEntryAndDescription(entry: nat, description: string, page: seq<ListedUpload>)
    returns (found: Option<nat>)
    ensures found.Some? ==> ListedUpload(found.value, RemoteUpload(entry, description)) in page
    ensures found.None? ==> forall u :: u in page ==> u.upload != RemoteUpload(entry, description)
  {
    for i := 0 to |page|
      invariant forall j :: 0 <= j < i ==> page[j].upload != RemoteUpload(entry, description)
    {
      if page[i].upload.entry == entry && page[i].upload.description == description {
        assert page[i] == ListedUpload(page[i].id, RemoteUpload(entry, description));
        return Some(page[i].id);
      }
    }
    return None;
  }

  // ---------------------------------------------------------------------------
  // What the matcher decides
  // ---------------------------------------------------------------------------

  lemma NoBar(n: int)
    ensures '|' !in DecInt(n) && '|' !in Fixed2(n, '.')
  {
    var a: nat := if n < 0 then -n else n;
    assert AllDigits(Dec(a)) && '|' !in Dec(a);
    if '|' in Fixed2(n, '.') { Fixed2Chars(n, '.', '|'); }
  }

  lemma BarsSeparate(a1: string, a2: string, a3: string, b1: string, b2: string, b3: string)
    requires '|' !in a1 && '|' !in b1 && '|' !in a2 && '|' !in b2
    requires a1 + "|" + a2 + "|" + a3 == b1 + "|" + b2 + "|" + b3
    ensures a1 == b1 && a2 == b2 && a3 == b3
  {
    var ra, rb := a2 + "|" + a3, b2 + "|" + b3;
    assert a1 + "|" + a2 + "|" + a3 == a1 + ['|'] + ra;
    assert b1 + "|" + b2 + "|" + b3 == b1 + ['|'] + rb;
    FirstSeparator(a1, ra, b1, rb, '|');
    FirstSeparator(a2, a3, b2, b3, '|');
  }

  lemma NormalizeInjective(a: JournalItem, b: JournalItem)
    requires NormalizeItem(a) == NormalizeItem(b)
    ensures a == b
  {
    NoBar(a.account); NoBar(b.account);
    NoBar(a.debit); NoBar(b.debit);
    BarsSeparate(DecInt(a.account), Fixed2(a.debit, '.'), Fixed2(a.credit, '.'),
                 DecInt(b.account), Fixed2(b.debit, '.'), Fixed2(b.credit, '.'));
    DecIntInjective(a.account, b.account);
    Fixed2Injective(a.debit, b.debit, '.');
    Fixed2Injective(a.credit, b.credit, '.');
  }

  /** The matcher, which compares sorted printed lines, decides multiset equality of the
      items: it neither confuses different amounts nor is it put off by another order. */
  lemma MatcherDecidesMultisetEquality(a: seq<JournalItem>, b: seq<JournalItem>)
    ensures SameItems(a, b) <==> multiset(a) == multiset(b)
  {
    StringOrder();
    SortCanonical(MapSeq(NormalizeItem, a), MapSeq(NormalizeItem, b), StringLeq);
    if multiset(a) == multiset(b) { MapPermutation(NormalizeItem, a, b); }
    if multiset(MapSeq(NormalizeItem, a)) == multiset(MapSeq(NormalizeItem, b)) {
      forall x, y | NormalizeItem(x) == NormalizeItem(y) ensures x == y { NormalizeInjective(x, y); }
      MapReflects(NormalizeItem, a, b);
    }
  }
}
