/** Printing of numbers, byte order of strings, and separator-terminated records.

    Strings are sequences of characters. `Dec`, `DecInt`, `Pad` and `Fixed2` are what Go's
    `%d`, `%0wd` and `%.2f` print for the integers used here (`%.2f` of cents / 100). */
module Text {
  import opened Grouping

  predicate IsDigit(c: char) { '0' <= c <= '9' }

  predicate AllDigits(s: string) { forall c :: c in s ==> IsDigit(c) }

  function Digit(n: nat): (c: char)
    requires n < 10
    ensures IsDigit(c)
  {
    ['0', '1', '2', '3', '4', '5', '6', '7', '8', '9'][n]
  }

  function DigitValue(c: char): (n: nat)
    requires IsDigit(c)
    ensures n < 10 && Digit(n) == c
  {
    (c as int) - ('0' as int)
  }

  lemma DigitValueOfDigit(n: nat)
    requires n < 10
    ensures DigitValue(Digit(n)) == n
  {}

  /** The characters that ISO-8859-1 has. */
  predicate Latin1(s: string) { forall c :: c in s ==> c as int < 256 }

  /** Decimal digits of `n`, most significant first. */
  function Dec(n: nat): (s: string)
    ensures s != [] && AllDigits(s)
  {
    if n < 10 then [Digit(n)] else Dec(n / 10) + [Digit(n % 10)]
  }

  function Value(s: string): nat
    requires AllDigits(s)
  {
    if s == [] then 0 else 10 * Value(s[..|s| - 1]) + DigitValue(s[|s| - 1])
  }

  lemma {:induction false} ValueOfDec(n: nat)
    ensures Value(Dec(n)) == n
  {
    DigitValueOfDigit(n % 10);
    if n < 10 {
      assert Dec(n)[..0] == [];
    } else {
      ValueOfDec(n / 10);
      assert Dec(n)[..|Dec(n)| - 1] == Dec(n / 10);
    }
  }

  function DecInt(n: int): string {
    if n < 0 then "-" + Dec(-n) else Dec(n)
  }

  /** What scanning with `%d` reads from a string that starts with an integer. */
  function ScanInt(s: string): int {
    if s != [] && s[0] == '-' then -(Value(DigitPrefix(s[1..])) as int)
    else Value(DigitPrefix(s))
  }

  function DigitPrefix(s: string): (d: string)
    ensures AllDigits(d)
  {
    if s != [] && IsDigit(s[0]) then [s[0]] + DigitPrefix(s[1..]) else []
  }

  lemma {:induction false} DigitPrefixOfDigits(d: string, rest: string)
    requires AllDigits(d)
    requires rest == [] || !IsDigit(rest[0])
    ensures DigitPrefix(d + rest) == d
  {
    if d == [] {
      assert d + rest == rest;
    } else {
      DigitPrefixOfDigits(d[1..], rest);
      assert (d + rest)[1..] == d[1..] + rest;
    }
  }

  lemma ScanOfDigits(d: string, rest: string)
    requires d != [] && AllDigits(d)
    requires rest == [] || !IsDigit(rest[0])
    ensures ScanInt(d + rest) == Value(d)
    ensures ScanInt("-" + d + rest) == 0 - Value(d)
  {
    DigitPrefixOfDigits(d, rest);
    assert d[0] in d;
    var text := "-" + d + rest;
    assert text[0] == '-' && text[1..] == d + rest;
  }

  /** An integer printed with `%d` is read back by `%d`, whatever follows it. */
  lemma ScanOfDecInt(n: int, rest: string)
    requires rest == [] || !IsDigit(rest[0])
    ensures ScanInt(DecInt(n) + rest) == n
  {
    var a: nat := if n < 0 then -n else n;
    var d := Dec(a);
    assert Value(d) == a by { ValueOfDec(a); }
    assert DecInt(n) == if n < 0 then "-" + d else d;
    ScanOfDigits(d, rest);
  }

  lemma DecIntInjective(m: int, n: int)
    requires DecInt(m) == DecInt(n)
    ensures m == n
  {
    ScanOfDecInt(m, "");
    ScanOfDecInt(n, "");
    assert DecInt(m) + "" == DecInt(n) + "";
  }

  function Zeros(k: nat): (s: string)
    ensures AllDigits(s) && |s| == k
  {
    seq(k, _ => '0')
  }

  /** `n` with leading zeros up to width `w`. */
  function Pad(n: nat, w: nat): (s: string)
    ensures AllDigits(s) && |s| >= w
  {
    var d := Dec(n);
    if |d| < w then Zeros(w - |d|) + d else d
  }

  lemma {:induction false} ValueOfZeros(k: nat, d: string)
    requires AllDigits(d)
    ensures Value(Zeros(k) + d) == Value(d)
    decreases k + |d|
  {
    if d != [] {
      ValueOfZeros(k, d[..|d| - 1]);
      assert (Zeros(k) + d)[..k + |d| - 1] == Zeros(k) + d[..|d| - 1];
    } else if k > 0 {
      ValueOfZeros(k - 1, d);
      assert (Zeros(k) + d)[..k - 1] == Zeros(k - 1) + d;
    } else {
      assert Zeros(k) + d == d;
    }
  }

  lemma ValueOfPad(n: nat, w: nat)
    ensures Value(Pad(n, w)) == n
  {
    hide Value, Dec, Zeros, AllDigits;
    ValueOfDec(n);
    if |Dec(n)| < w { ValueOfZeros(w - |Dec(n)|, Dec(n)); }
  }

  lemma {:induction false} DecLength(n: nat, w: nat, bound: nat)
    requires w > 0 && bound == Pow10(w) && n < bound
    ensures |Dec(n)| <= w
    decreases w
  {
    if n >= 10 {
      DecLength(n / 10, w - 1, Pow10(w - 1));
    }
  }

  function Pow10(w: nat): nat { if w == 0 then 1 else 10 * Pow10(w - 1) }

  lemma PadWidth(n: nat, w: nat)
    requires w > 0 && n < Pow10(w)
    ensures |Pad(n, w)| == w
  {
    DecLength(n, w, Pow10(w));
  }

  /** A number of hundredths printed with two decimals. */
  function Fixed2(n: int, point: char): string {
    var a := if n < 0 then -n else n;
    (if n < 0 then "-" else "") + Dec(a / 100) + [point] + Pad(a % 100, 2)
  }

  /** Two-decimal printing loses nothing, so a printed amount identifies the amount. */
  lemma Fixed2Injective(m: int, n: int, point: char)
    requires Fixed2(m, point) == Fixed2(n, point)
    ensures m == n
  {
    var a, b := if m < 0 then -m else m, if n < 0 then -n else n;
    assert Pow10(2) == 100 by { assert Pow10(1) == 10; }
    PadWidth(a % 100, 2);
    PadWidth(b % 100, 2);
    var s := Fixed2(m, point);
    assert s[|s| - 2..] == Pad(a % 100, 2) == Pad(b % 100, 2);
    ValueOfPad(a % 100, 2);
    ValueOfPad(b % 100, 2);
    assert s[..|s| - 3] == (if m < 0 then "-" else "") + Dec(a / 100);
    assert s[..|s| - 3] == (if n < 0 then "-" else "") + Dec(b / 100);
    assert IsDigit(Dec(a / 100)[0]) && IsDigit(Dec(b / 100)[0]);
    assert m < 0 <==> s[0] == '-';
    assert n < 0 <==> s[0] == '-';
    assert Dec(a / 100) == Dec(b / 100) by {
      if m < 0 {
        assert s[1..|s| - 3] == Dec(a / 100);
        assert s[1..|s| - 3] == Dec(b / 100);
      } else {
        assert s[..|s| - 3] == Dec(a / 100);
      }
    }
    ValueOfDec(a / 100);
    ValueOfDec(b / 100);
  }

  /** No character of a printed amount is anything but a digit, a sign or the point. */
  lemma Fixed2Chars(n: int, point: char, c: char)
    requires c in Fixed2(n, point)
    ensures IsDigit(c) || c == '-' || c == point
  {}

  // ---------------------------------------------------------------------------
  // Byte order
  // ---------------------------------------------------------------------------

  predicate StringLeq(a: string, b: string) {
    a == [] || (b != [] && (a[0] < b[0] || (a[0] == b[0] && StringLeq(a[1..], b[1..]))))
  }

  lemma {:induction false} StringLeqTotal(a: string, b: string)
    ensures StringLeq(a, b) || StringLeq(b, a)
  {
    if a != [] && b != [] && a[0] == b[0] { StringLeqTotal(a[1..], b[1..]); }
  }

  lemma {:induction false} StringLeqAntisymmetric(a: string, b: string)
    requires StringLeq(a, b) && StringLeq(b, a)
    ensures a == b
  {
    if a != [] && b != [] {
      StringLeqAntisymmetric(a[1..], b[1..]);
      assert a == [a[0]] + a[1..] && b == [b[0]] + b[1..];
    }
  }

  lemma {:induction false} StringLeqTransitive(a: string, b: string, c: string)
    requires StringLeq(a, b) && StringLeq(b, c)
    ensures StringLeq(a, c)
  {
    if a != [] && a[0] == b[0] == c[0] { StringLeqTransitive(a[1..], b[1..], c[1..]); }
  }

  lemma StringOrder()
    ensures TotalOrder(StringLeq)
  {
    forall a, b ensures StringLeq(a, b) || StringLeq(b, a) { StringLeqTotal(a, b); }
    forall a, b | StringLeq(a, b) && StringLeq(b, a) ensures a == b { StringLeqAntisymmetric(a, b); }
    forall a, b, c | StringLeq(a, b) && StringLeq(b, c) ensures StringLeq(a, c) { StringLeqTransitive(a, b, c); }
  }

  // ---------------------------------------------------------------------------
  // Terminated records
  // ---------------------------------------------------------------------------

  /** Every part followed by the terminator. */
  function Terminated(parts: seq<string>, end: string): string {
    if parts == [] then "" else parts[0] + end + Terminated(parts[1..], end)
  }

  function Join(parts: seq<string>, sep: string): string {
    if parts == [] then ""
    else if |parts| == 1 then parts[0]
    else parts[0] + sep + Join(parts[1..], sep)
  }

  lemma {:induction false} JoinTerminated(parts: seq<string>, sep: string)
    requires parts != []
    ensures Join(parts, sep) + sep == Terminated(parts, sep)
  {
    if |parts| == 1 {
      assert Terminated(parts[1..], sep) == "";
      assert parts[0] + sep + "" == parts[0] + sep;
    } else {
      JoinTerminated(parts[1..], sep);
      assert parts[0] + sep + Join(parts[1..], sep) + sep == parts[0] + sep + (Join(parts[1..], sep) + sep);
    }
  }

  predicate Free(c: char, parts: seq<string>) {
    forall p :: p in parts ==> c !in p
  }

  lemma FirstSeparator(a: string, r: string, b: string, s: string, c: char)
    requires c !in a && c !in b
    requires a + [c] + r == b + [c] + s
    ensures a == b && r == s
  {
    var t := a + [c] + r;
    assert t[|a|] == c && t[|b|] == c;
    assert forall i :: 0 <= i < |b| ==> t[i] == b[i];
    assert forall i :: 0 <= i < |a| ==> t[i] == a[i];
    assert t[..|a|] == a && t[..|a|] == b;
    assert t[|a| + 1..] == r && t[|a| + 1..] == s;
  }

  /** Terminated records can be read back: equal text means equal parts. */
  lemma {:induction false} TerminatedInjective(a: seq<string>, b: seq<string>, end: string)
    requires end != [] && Free(end[0], a) && Free(end[0], b)
    requires Terminated(a, end) == Terminated(b, end)
    ensures a == b
  {
    if a == [] || b == [] {
    } else {
      var ra := end[1..] + Terminated(a[1..], end);
      var rb := end[1..] + Terminated(b[1..], end);
      assert end == [end[0]] + end[1..];
      assert Terminated(a, end) == a[0] + [end[0]] + ra;
      assert Terminated(b, end) == b[0] + [end[0]] + rb;
      FirstSeparator(a[0], ra, b[0], rb, end[0]);
      assert ra[|end| - 1..] == Terminated(a[1..], end);
      assert rb[|end| - 1..] == Terminated(b[1..], end);
      TerminatedInjective(a[1..], b[1..], end);
      assert a == [a[0]] + a[1..] && b == [b[0]] + b[1..];
    }
  }
}
