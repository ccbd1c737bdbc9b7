/**
 * The handful of Python string operations the application relies on:
 * `str.strip`, `str.join`, `str.split`, `str.startswith`, the `in` test for
 * substrings, and integer formatting with `{:02d}`-style zero padding.
 */
module Strings {

  /** Python's `str.isspace` for one character (the characters `str.strip()` removes). */
  predicate IsSpace(c: char)
  {
    c == ' ' || ('\t' <= c <= '\r') || ('\U{1C}' <= c <= '\U{1F}')
    || c == '\U{85}' || c == '\U{A0}' || c == '\U{1680}'
    || ('\U{2000}' <= c <= '\U{200A}') || c == '\U{2028}' || c == '\U{2029}'
    || c == '\U{202F}' || c == '\U{205F}' || c == '\U{3000}'
  }

  predicate AllSpace(s: string)
  {
    forall i :: 0 <= i < |s| ==> IsSpace(s[i])
  }

  /** `s.lstrip()`: the suffix of `s` left after its leading whitespace. */
  function LStrip(s: string): string
  {
    if s != [] && IsSpace(s[0]) then LStrip(s[1..]) else s
  }

  /** LStrip removes exactly the leading whitespace. */
  lemma {:induction false} LStripRemovesLeadingSpace(s: string)
    ensures var r := LStrip(s);
      |r| <= |s| && r == s[|s| - |r|..] && AllSpace(s[..|s| - |r|]) && (r == [] || !IsSpace(r[0]))
  {
    if s != [] && IsSpace(s[0]) {
      LStripRemovesLeadingSpace(s[1..]);
      var r := LStrip(s);
      assert s[..|s| - |r|] == [s[0]] + s[1..][..|s| - 1 - |r|];
    }
  }

  /** `s.rstrip()`: the prefix of `s` left before its trailing whitespace. */
  function RStrip(s: string): string
  {
    if s != [] && IsSpace(s[|s| - 1]) then RStrip(s[..|s| - 1]) else s
  }

  /** RStrip removes exactly the trailing whitespace. */
  lemma {:induction false} RStripRemovesTrailingSpace(s: string)
    ensures var r := RStrip(s);
      |r| <= |s| && r == s[..|r|] && AllSpace(s[|r|..]) && (r == [] || !IsSpace(r[|r| - 1]))
  {
    if s != [] && IsSpace(s[|s| - 1]) {
      RStripRemovesTrailingSpace(s[..|s| - 1]);
      var r := RStrip(s);
      assert s[|r|..] == s[..|s| - 1][|r|..] + [s[|s| - 1]];
    }
  }

  /** `s.strip()`. */
  function Strip(s: string): string
  {
    RStrip(LStrip(s))
  }

  /**
   * Strip removes exactly a whitespace prefix and a whitespace suffix: what is
   * left is an infix of `s` that neither starts nor ends with whitespace.
   */
  lemma StripIsTrimmedInfix(s: string)
    ensures exists a :: TrimmedAt(s, Strip(s), a)
  {
    var l := LStrip(s);
    var a := |s| - |l|;
    assert TrimmedAt(s, Strip(s), a) by {
      var r := RStrip(l);
      LStripRemovesLeadingSpace(s);
      RStripRemovesTrailingSpace(l);
      assert s[a..a + |r|] == l[..|r|];
      assert s[a + |r|..] == l[|r|..];
      if r != [] {
        assert r[0] == l[0];
      }
    }
  }

  /** `r` is `s` with the whitespace before index `a` and after `r` removed. */
  predicate TrimmedAt(s: string, r: string, a: int)
  {
    0 <= a && a + |r| <= |s| && r == s[a..a + |r|]
    && AllSpace(s[..a]) && AllSpace(s[a + |r|..])
    && (r == [] || (!IsSpace(r[0]) && !IsSpace(r[|r| - 1])))
  }

  /** A string without surrounding whitespace is left alone by Strip. */
  lemma StripOfTrimmed(s: string)
    requires s == [] || (!IsSpace(s[0]) && !IsSpace(s[|s| - 1]))
    ensures Strip(s) == s
  {
  }

  /** Conversely, whitespace around a trimmed string is exactly what Strip removes. */
  lemma StripOfPadded(p: string, r: string, q: string)
    requires AllSpace(p) && AllSpace(q)
    requires r == [] || (!IsSpace(r[0]) && !IsSpace(r[|r| - 1]))
    ensures r != [] ==> Strip(p + r + q) == r
  {
    if r != [] {
      LStripOfSpaces(p, r + q);
      assert p + r + q == p + (r + q);
      RStripOfSpaces(r, q);
    }
  }

  lemma {:induction false} LStripOfSpaces(p: string, s: string)
    requires AllSpace(p) && s != [] && !IsSpace(s[0])
    ensures LStrip(p + s) == s
  {
    if p != [] {
      assert (p + s)[1..] == p[1..] + s;
      LStripOfSpaces(p[1..], s);
    }
  }

  lemma {:induction false} RStripOfSpaces(s: string, q: string)
    requires AllSpace(q) && s != [] && !IsSpace(s[|s| - 1])
    ensures RStrip(s + q) == s
  {
    if q != [] {
      assert (s + q)[..|s + q| - 1] == s + q[..|q| - 1];
      RStripOfSpaces(s, q[..|q| - 1]);
    } else {
      assert s + q == s;
    }
  }

  /** Stripping twice is stripping once. */
  lemma StripIdempotent(s: string)
    ensures Strip(Strip(s)) == Strip(s)
  {
    var r := Strip(s);
    LStripRemovesLeadingSpace(s);
    RStripRemovesTrailingSpace(LStrip(s));
    if r != [] {
      assert !IsSpace(LStrip(s)[0]) by {
        assert LStrip(s)[0] == r[0];
      }
    }
    StripOfTrimmed(r);
  }

  /** `sep.join(parts)`. */
  function Join(parts: seq<string>, sep: string): string
  {
    if |parts| == 0 then ""
    else if |parts| == 1 then parts[0]
    else parts[0] + sep + Join(parts[1..], sep)
  }

  /** Appending one more part appends the separator and that part. */
  lemma {:induction false} JoinSnoc(parts: seq<string>, x: string, sep: string)
    requires parts != []
    ensures Join(parts + [x], sep) == Join(parts, sep) + sep + x
  {
    if |parts| == 1 {
      assert parts + [x] == [parts[0], x];
      assert Join([x], sep) == x;
    } else {
      assert (parts + [x])[1..] == parts[1..] + [x];
      JoinSnoc(parts[1..], x, sep);
    }
  }

  /** Every part occurs in the joined string. */
  lemma {:induction false} JoinContainsPart(parts: seq<string>, sep: string, i: nat)
    requires i < |parts|
    ensures Contains(Join(parts, sep), parts[i])
  {
    var j := Join(parts, sep);
    if i == 0 {
      assert OccursAt(j, parts[0], 0);
    } else {
      JoinContainsPart(parts[1..], sep, i - 1);
      var rest := Join(parts[1..], sep);
      var k :| 0 <= k <= |rest| && OccursAt(rest, parts[1..][i - 1], k);
      var off := |parts[0] + sep|;
      assert j == parts[0] + sep + rest;
      assert j[off + k..off + k + |parts[i]|] == rest[k..k + |parts[i]|];
      assert OccursAt(j, parts[i], off + k);
    }
  }

  /** `s.split(c)` for a one-character separator `c`. */
  function Split(s: string, c: char): (parts: seq<string>)
    ensures |parts| >= 1
    ensures forall i :: 0 <= i < |parts| ==> c !in parts[i]
  {
    if s == [] then [""]
    else if s[0] == c then [""] + Split(s[1..], c)
    else
      var rest := Split(s[1..], c);
      [[s[0]] + rest[0]] + rest[1..]
  }

  /** Splitting and joining back with the same separator gives the original string. */
  lemma {:induction false} JoinSplit(s: string, c: char)
    ensures Join(Split(s, c), [c]) == s
  {
    if s == [] {
    } else if s[0] == c {
      JoinSplit(s[1..], c);
      var rest := Split(s[1..], c);
      assert ([""] + rest)[1..] == rest;
    } else {
      JoinSplit(s[1..], c);
      var rest := Split(s[1..], c);
      var parts := [[s[0]] + rest[0]] + rest[1..];
      if |rest| == 1 {
        assert parts == [[s[0]] + rest[0]];
      } else {
        assert parts[1..] == rest[1..];
        assert Join(rest, [c]) == rest[0] + [c] + Join(rest[1..], [c]);
      }
    }
  }

  /** A separator between two strings splits them apart: the parts of both, in order. */
  lemma {:induction false} SplitConcat(a: string, b: string, c: char)
    ensures Split(a + [c] + b, c) == Split(a, c) + Split(b, c)
  {
    var s := a + [c] + b;
    if a == [] {
      assert s[1..] == b;
    } else {
      assert s[1..] == a[1..] + [c] + b;
      SplitConcat(a[1..], b, c);
    }
  }

  /** A string without the separator is one part. */
  lemma {:induction false} SplitWithoutSeparator(s: string, c: char)
    requires c !in s
    ensures Split(s, c) == [s]
  {
    if s != [] {
      assert c !in s[1..] by { assert forall x :: x in s[1..] ==> x in s; }
      SplitWithoutSeparator(s[1..], c);
      assert [s[0]] + s[1..] == s;
    }
  }

  /** The first part of a split is the longest prefix without the separator. */
  lemma SplitHead(s: string, c: char)
    ensures |Split(s, c)[0]| <= |s|
    ensures var h := Split(s, c)[0];
      h == s[..|h|] && c !in h && (|h| == |s| || s[|h|] == c)
  {
    JoinSplit(s, c);
    var parts := Split(s, c);
    if |parts| > 1 {
      assert s == parts[0] + [c] + Join(parts[1..], [c]);
    }
    assert c !in parts[0];
  }

  predicate StartsWith(s: string, prefix: string)
  {
    |prefix| <= |s| && s[..|prefix|] == prefix
  }

  /** Python's `sub in s`. */
  predicate Contains(s: string, sub: string)
  {
    exists i :: 0 <= i <= |s| && OccursAt(s, sub, i)
  }

  predicate OccursAt(s: string, sub: string, i: int)
  {
    0 <= i <= |s| - |sub| && s[i..i + |sub|] == sub
  }

  predicate EndsWith(s: string, suffix: string)
  {
    |suffix| <= |s| && s[|s| - |suffix|..] == suffix
  }

  /** The position of the last occurrence of `c` in `s`, or -1 (Python's `str.rfind`). */
  function RFind(s: string, c: char): (i: int)
    ensures -1 <= i < |s|
    ensures i >= 0 ==> s[i] == c
    ensures forall j :: i < j < |s| ==> s[j] != c
  {
    if s == [] then -1
    else if s[|s| - 1] == c then |s| - 1
    else RFind(s[..|s| - 1], c)
  }

  // ---------------------------------------------------------------------
  // Decimal rendering of integers

  predicate IsDigit(c: char)
  {
    '0' <= c <= '9'
  }

  predicate AllDigits(s: string)
  {
    forall i :: 0 <= i < |s| ==> IsDigit(s[i])
  }

  function DigitChar(d: nat): (c: char)
    requires d < 10
    ensures IsDigit(c) && c as int - '0' as int == d
  {
    ('0' as int + d) as char
  }

  /** `str(n)` for a natural number: its shortest decimal form. */
  function NatToDecimal(n: nat): (r: string)
    ensures 1 <= |r| && AllDigits(r)
    ensures |r| > 1 ==> r[0] != '0'
  {
    if n < 10 then [DigitChar(n)] else NatToDecimal(n / 10) + [DigitChar(n % 10)]
  }

  /** The number a string of decimal digits denotes (the inverse view of NatToDecimal). */
  function DecimalValue(s: string): nat
    requires AllDigits(s)
  {
    if s == [] then 0
    else 10 * DecimalValue(s[..|s| - 1]) + (s[|s| - 1] as int - '0' as int)
  }

  lemma {:induction false} DecimalRoundTrip(n: nat)
    ensures DecimalValue(NatToDecimal(n)) == n
  {
    if n >= 10 {
      DecimalRoundTrip(n / 10);
      var r := NatToDecimal(n);
      assert r[..|r| - 1] == NatToDecimal(n / 10);
    }
  }

  function Pow10(k: nat): (p: nat)
    ensures p >= 1
  {
    if k == 0 then 1 else 10 * Pow10(k - 1)
  }

  /** A number below 10^k has at most k digits. */
  lemma {:induction false} NatToDecimalLength(n: nat, k: nat)
    requires 1 <= k && n < Pow10(k)
    ensures |NatToDecimal(n)| <= k
  {
    if n >= 10 {
      NatToDecimalLength(n / 10, k - 1);
    }
  }

  function Zeros(k: nat): (r: string)
    ensures |r| == k && forall i :: 0 <= i < k ==> r[i] == '0'
  {
    if k == 0 then "" else "0" + Zeros(k - 1)
  }

  /** Leading zeros do not change the value of a digit string. */
  lemma {:induction false} LeadingZerosValue(k: nat, s: string)
    requires AllDigits(s)
    ensures AllDigits(Zeros(k) + s) && DecimalValue(Zeros(k) + s) == DecimalValue(s)
  {
    if s == [] {
      assert Zeros(k) + s == Zeros(k);
      ZerosValue(k);
    } else {
      var t := Zeros(k) + s;
      assert t[..|t| - 1] == Zeros(k) + s[..|s| - 1];
      LeadingZerosValue(k, s[..|s| - 1]);
    }
  }

  lemma {:induction false} ZerosValue(k: nat)
    ensures AllDigits(Zeros(k)) && DecimalValue(Zeros(k)) == 0
  {
    if k > 0 {
      assert Zeros(k)[..k - 1] == Zeros(k - 1) by {
        assert Zeros(k) == Zeros(k - 1) + "0" by { ZerosSnoc(k - 1); }
      }
      ZerosValue(k - 1);
    }
  }

  lemma {:induction false} ZerosSnoc(k: nat)
    ensures Zeros(k + 1) == Zeros(k) + "0"
  {
    if k > 0 {
      ZerosSnoc(k - 1);
    }
  }

  /** `f"{n:0{w}d}"` for a natural number: at least `w` digits, zero-padded on the left. */
  function ZeroPad(n: nat, w: nat): (r: string)
    ensures AllDigits(r) && |r| >= w && |r| >= 1
  {
    var d := NatToDecimal(n);
    PadLeftIsZeros(d, w);
    LeadingZerosValue(if |d| >= w then 0 else w - |d|, d);
    PadLeft(d, w)
  }

  /** `d` with zeros put in front until it is `w` long. */
  function PadLeft(d: string, w: nat): string
  {
    if |d| >= w then d else "0" + PadLeft(d, w - 1)
  }

  lemma {:induction false} PadLeftIsZeros(d: string, w: nat)
    ensures PadLeft(d, w) == if |d| >= w then d else Zeros(w - |d|) + d
  {
    if |d| < w {
      PadLeftIsZeros(d, w - 1);
      if |d| == w - 1 {
        assert Zeros(1) == "0";
      }
    }
  }

  /** ZeroPad spelled out: the decimal digits, behind as many zeros as the width lacks. */
  lemma ZeroPadIsZeros(n: nat, w: nat)
    ensures var d := NatToDecimal(n);
      ZeroPad(n, w) == if |d| >= w then d else Zeros(w - |d|) + d
  {
    PadLeftIsZeros(NatToDecimal(n), w);
  }

  /** Zero padding keeps the value: reading the digits back gives `n`. */
  lemma ZeroPadValue(n: nat, w: nat)
    ensures DecimalValue(ZeroPad(n, w)) == n
  {
    DecimalRoundTrip(n);
    ZeroPadIsZeros(n, w);
    var d := NatToDecimal(n);
    if |d| < w {
      LeadingZerosValue(w - |d|, d);
    }
  }

  /** Two-digit padding of a number below 100 is its tens digit and its units digit. */
  lemma ZeroPadTwoDigits(n: nat)
    requires n < 100
    ensures ZeroPad(n, 2) == [DigitChar(n / 10), DigitChar(n % 10)]
  {
    ZeroPadIsZeros(n, 2);
    if n < 10 {
      assert NatToDecimal(n) == [DigitChar(n)];
      assert Zeros(1) == "0";
      assert DigitChar(0) == '0';
    } else {
      assert NatToDecimal(n / 10) == [DigitChar(n / 10)];
      assert NatToDecimal(n) == [DigitChar(n / 10), DigitChar(n % 10)];
    }
  }

  /** A number with at most `w` digits is padded to exactly `w` characters. */
  lemma ZeroPadWidth(n: nat, w: nat)
    requires 1 <= w && n < Pow10(w)
    ensures |ZeroPad(n, w)| == w
  {
    ZeroPadIsZeros(n, w);
    NatToDecimalLength(n, w);
  }

  /**
   * `f"{n:0{w}d}"` for any integer: Python puts the sign first and counts it
   * in the width, so -5 with width 2 is "-5" and with width 3 is "-05".
   */
  function FormatInt(n: int, w: nat): string
  {
    if n >= 0 then ZeroPad(n, w) else "-" + ZeroPad(-n, if w > 0 then w - 1 else 0)
  }
}
