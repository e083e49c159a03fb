/** Decimal digit strings, the numbers they denote and powers of ten. */
module DigitStrings {
  import opened Orders

  predicate IsAsciiDigit(c: char) { '0' <= c <= '9' }

  /** The zeros of the non-ASCII runs of ten decimal digits in Unicode's category Nd (version 15). */
  predicate StartsDigitRun(z: int) {
    || z == 0x0660 || z == 0x06F0 || z == 0x07C0 || z == 0x0966 || z == 0x09E6 || z == 0x0A66 || z == 0x0AE6
    || z == 0x0B66 || z == 0x0BE6 || z == 0x0C66 || z == 0x0CE6 || z == 0x0D66 || z == 0x0DE6 || z == 0x0E50
    || z == 0x0ED0 || z == 0x0F20 || z == 0x1040 || z == 0x1090 || z == 0x17E0 || z == 0x1810 || z == 0x1946
    || z == 0x19D0 || z == 0x1A80 || z == 0x1A90 || z == 0x1B50 || z == 0x1BB0 || z == 0x1C40 || z == 0x1C50
    || z == 0xA620 || z == 0xA8D0 || z == 0xA900 || z == 0xA9D0 || z == 0xA9F0 || z == 0xAA50 || z == 0xABF0
    || z == 0xFF10 || z == 0x104A0 || z == 0x10D30 || z == 0x11066 || z == 0x110F0 || z == 0x11136 || z == 0x111D0
    || z == 0x112F0 || z == 0x11450 || z == 0x114D0 || z == 0x11650 || z == 0x116C0 || z == 0x11730 || z == 0x118E0
    || z == 0x11950 || z == 0x11C50 || z == 0x11D50 || z == 0x11DA0 || z == 0x11F50 || z == 0x16A60 || z == 0x16AC0
    || z == 0x16B50 || z == 0x1D7CE || z == 0x1D7D8 || z == 0x1D7E2 || z == 0x1D7EC || z == 0x1D7F6 || z == 0x1E140
    || z == 0x1E2F0 || z == 0x1E4F0 || z == 0x1E950 || z == 0x1FBF0
  }

  /** How far a code point lies above the zero of its digit run; 10 when it is in none. */
  function RunOffset(code: int, k: nat): (offset: nat)
    requires k <= 10
    ensures offset <= 10
    decreases 10 - k
  {
    if k == 10 || StartsDigitRun(code - k) then k else RunOffset(code, k + 1)
  }

  /** What `\d` matches in a Python text pattern: the ASCII digits and every other decimal digit. */
  predicate IsDigit(c: char) {
    IsAsciiDigit(c) || (c as int >= 0x0660 && RunOffset(c as int, 0) < 10)
  }

  function DigitValue(c: char): (v: nat)
    ensures v < 10
  {
    if IsAsciiDigit(c) then c as int - '0' as int
    else if IsDigit(c) then RunOffset(c as int, 0)
    else 0
  }

  predicate AllDigits(s: string) { forall i :: 0 <= i < |s| ==> IsDigit(s[i]) }

  predicate AllAscii(s: string) { forall i :: 0 <= i < |s| ==> IsAsciiDigit(s[i]) }

  /** The number a digit string denotes. */
  function Number(s: string): nat {
    if s == "" then 0 else Number(s[..|s| - 1]) * 10 + DigitValue(s[|s| - 1])
  }

  function Pow10(n: nat): nat {
    if n == 0 then 1 else 10 * Pow10(n - 1)
  }

  function Zeros(n: nat): string { seq(n, _ => '0') }

  predicate NoLeadingZero(s: string) { s != "" && (s[0] == '0' ==> |s| == 1) }

  /** `str` of a nonnegative integer. */
  function Render(n: nat): string {
    if n < 10 then [DigitChar(n)] else Render(n / 10) + [DigitChar(n % 10)]
  }

  function DigitChar(d: nat): char
    requires d < 10
  {
    ('0' as int + d) as char
  }

  /** `lstrip("0")`. */
  function StripLeading(s: string): string {
    if s != "" && s[0] == '0' then StripLeading(s[1..]) else s
  }

  function OrZero(s: string): string { if s == "" then "0" else s }

  // ---- facts ----

  lemma {:induction false} Pow10Positive(n: nat)
    ensures Pow10(n) > 0
  {
    if n == 0 {
    } else {
      Pow10Positive(n - 1);
    }
  }

  lemma {:induction false} Pow10Add(a: nat, b: nat)
    ensures Pow10(a + b) == Pow10(a) * Pow10(b)
  {
    if a == 0 {
    } else {
      Pow10Add(a - 1, b);
      assert Pow10(a + b) == 10 * (Pow10(a - 1) * Pow10(b));
    }
  }

  lemma {:induction false} Pow10Grows(a: nat, b: nat)
    requires a <= b
    ensures Pow10(a) <= Pow10(b)
  {
    if a == b {
    } else {
      Pow10Grows(a, b - 1);
      Pow10Positive(b - 1);
    }
  }

  lemma TimesTen(x: nat, p: nat)
    ensures x * (10 * p) == (x * p) * 10
  {
  }

  lemma {:induction false} NumberPrepend(c: char, s: string)
    ensures Number([c] + s) == DigitValue(c) * Pow10(|s|) + Number(s)
  {
    hide DigitValue;
    if s == "" {
      assert [c] + s == [c];
      assert [c][..0] == "";
    } else {
      var n := |s| - 1;
      NumberPrepend(c, s[..n]);
      assert ([c] + s)[..|s|] == [c] + s[..n];
      TimesTen(DigitValue(c), Pow10(n));
    }
  }

  lemma {:induction false} StripLeadingKeepsNumber(s: string)
    ensures Number(StripLeading(s)) == Number(s) && |StripLeading(s)| <= |s|
    ensures StripLeading(s) != "" ==> StripLeading(s)[0] != '0'
  {
    hide Number;
    if s != "" && s[0] == '0' {
      StripLeadingKeepsNumber(s[1..]);
      NumberPrepend('0', s[1..]);
      assert s == ['0'] + s[1..];
    }
  }

  lemma {:induction false} StripLeadingKeeps(s: string)
    ensures Number(StripLeading(s)) == Number(s) && |StripLeading(s)| <= |s|
    ensures StripLeading(s) != "" ==> StripLeading(s)[0] != '0'
    ensures AllDigits(s) ==> AllDigits(StripLeading(s))
    ensures AllAscii(s) ==> AllAscii(StripLeading(s))
    ensures AllAscii(StripLeading(s)) ==> AllAscii(s)
  {
    hide Number;
    StripLeadingKeepsNumber(s);
    if s != "" && s[0] == '0' {
      StripLeadingKeeps(s[1..]);
      assert s == ['0'] + s[1..];
    }
  }

  lemma {:induction false} NumberBound(s: string)
    ensures Number(s) < Pow10(|s|)
  {
    if s == "" {
    } else {
      NumberBound(s[..|s| - 1]);
    }
  }

  lemma {:induction false} NumberAtLeast(s: string)
    requires s != "" && DigitValue(s[0]) != 0
    ensures Number(s) >= Pow10(|s| - 1)
  {
    if |s| > 1 {
      NumberAtLeast(s[..|s| - 1]);
    } else {
      assert s[..0] == "" && Pow10(0) == 1;
    }
  }

  /** Without leading zeros the length tells the size: at most p digits exactly when below 10^p. */
  lemma LengthIsSize(s: string, p: nat)
    requires s != "" && DigitValue(s[0]) != 0
    ensures |s| <= p <==> Number(s) < Pow10(p)
  {
    NumberBound(s);
    NumberAtLeast(s);
    if |s| <= p { Pow10Grows(|s|, p); } else { Pow10Grows(p, |s| - 1); }
  }

  lemma AsciiAreDigits(s: string)
    requires AllAscii(s)
    ensures AllDigits(s)
  {
  }

  lemma {:induction false} NumberAppend(s: string, t: string)
    ensures Number(s + t) == Number(s) * Pow10(|t|) + Number(t)
  {
    hide DigitValue;
    if t == "" {
      assert s + t == s;
    } else {
      var n := |t| - 1;
      NumberAppend(s, t[..n]);
      assert (s + t)[..|s + t| - 1] == s + t[..n];
      TimesTen(Number(s), Pow10(n));
    }
  }

  lemma {:induction false} ZerosNumber(n: nat)
    ensures Number(Zeros(n)) == 0
  {
    if n == 0 {
    } else {
      assert Zeros(n)[..n - 1] == Zeros(n - 1);
      ZerosNumber(n - 1);
    }
  }

  lemma AppendZeros(s: string, n: nat)
    ensures Number(s + Zeros(n)) == Number(s) * Pow10(n)
  {
    NumberAppend(s, Zeros(n));
    ZerosNumber(n);
  }

  /** A digit string without leading zeros is the only one denoting its number. */
  lemma {:induction false} RenderingUnique(a: string, b: string)
    requires AllAscii(a) && AllAscii(b) && NoLeadingZero(a) && NoLeadingZero(b)
    requires Number(a) == Number(b)
    ensures a == b
  {
    var m, n := |a| - 1, |b| - 1;
    var x, y := Number(a[..m]), Number(b[..n]);
    assert x * 10 + DigitValue(a[m]) == y * 10 + DigitValue(b[n]);
    assert x == y && a[m] == b[n];
    assert a == a[..m] + [a[m]] && b == b[..n] + [b[n]];
    if m > 0 && n > 0 {
      RenderingUnique(a[..m], b[..n]);
    } else {
      assert a[..0] == "" && b[..0] == "";
      if m > 0 { NumberAtLeast(a[..m]); Pow10Positive(m - 1); }
      if n > 0 { NumberAtLeast(b[..n]); Pow10Positive(n - 1); }
    }
  }

  lemma {:induction false} RenderDenotes(n: nat)
    ensures Number(Render(n)) == n && AllAscii(Render(n)) && NoLeadingZero(Render(n))
    ensures n > 0 ==> Render(n)[0] != '0'
  {
    if n < 10 {
      assert Render(n)[..0] == "";
    } else {
      RenderDenotes(n / 10);
      var s := Render(n);
      assert s[..|s| - 1] == Render(n / 10);
    }
  }

  // ---- comparing digit strings as Python does ----

  lemma {:induction false} LexSnoc(a: string, b: string, x: char, y: char)
    requires |a| == |b|
    ensures LexLe(CharLe(), a + [x], b + [y]) <==> (a != b && LexLe(CharLe(), a, b)) || (a == b && x <= y)
  {
    if a == "" {
      assert a + [x] == [x] && b + [y] == [y];
    } else {
      assert (a + [x])[1..] == a[1..] + [x] && (b + [y])[1..] == b[1..] + [y];
      assert a == [a[0]] + a[1..] && b == [b[0]] + b[1..];
      LexSnoc(a[1..], b[1..], x, y);
    }
  }

  lemma SmallerDigit(x: char, y: char)
    requires IsDigit(x) && IsAsciiDigit(y)
    ensures x < y ==> DigitValue(x) < DigitValue(y)
  {
  }

  /** Against ASCII digits, a text that compares below denotes a smaller number, whatever its own digits are. */
  lemma {:induction false} LexBelowIsLess(a: string, b: string)
    requires AllDigits(a) && AllAscii(b) && |a| == |b| && LexLe(CharLe(), a, b) && a != b
    ensures Number(a) < Number(b)
  {
    hide DigitValue, IsDigit;
    var n := |a| - 1;
    assert a == a[..n] + [a[n]] && b == b[..n] + [b[n]];
    LexSnoc(a[..n], b[..n], a[n], b[n]);
    if a[..n] != b[..n] { LexBelowIsLess(a[..n], b[..n]); } else { SmallerDigit(a[n], b[n]); }
  }

  lemma LexTotal(a: string, b: string)
    requires |a| == |b|
    ensures LexLe(CharLe(), a, b) || LexLe(CharLe(), b, a)
  {
    if a != "" {
      assert a == [a[0]] + a[1..] && b == [b[0]] + b[1..];
      LexTotal(a[1..], b[1..]);
    }
  }

  /** `len(d) > len(limit) or (len(d) == len(limit) and d > limit)`. */
  predicate LongerOrGreater(d: string, limit: string) {
    |d| > |limit| || (|d| == |limit| && !LexLe(CharLe(), d, limit))
  }

  /** A text that passes is no longer than the limit and, at equal length, compares at most equal. */
  lemma PassedIsAtMost(d: string, limit: nat)
    requires AllDigits(d) && d != "" && !LongerOrGreater(d, Render(limit))
    ensures Number(d) <= limit
  {
    var l := Render(limit);
    RenderDenotes(limit);
    if |d| == |l| {
      if d != l { LexBelowIsLess(d, l); }
    } else {
      NumberBound(d);
      ValueOfFirst(l);
      NumberAtLeast(l);
      Pow10Grows(|d|, |l| - 1);
    }
  }

  lemma ValueOfFirst(s: string)
    requires AllAscii(s) && s != "" && s[0] != '0'
    ensures DigitValue(s[0]) != 0
  {
  }

  lemma AtMostPasses(d: string, limit: nat)
    requires AllAscii(d) && NoLeadingZero(d) && Number(d) <= limit
    ensures !LongerOrGreater(d, Render(limit))
  {
    var l := Render(limit);
    RenderDenotes(limit);
    AsciiAreDigits(l);
    NumberBound(l);
    if |d| > 1 { ValueOfFirst(d); LengthIsSize(d, |l|); }
    if |d| == |l| && !LexLe(CharLe(), d, l) {
      LexTotal(d, l);
      LexBelowIsLess(l, d);
    }
  }

  /** Its own number is the limit on which a text with a non-ASCII digit fails. */
  lemma NonAsciiFails(d: string)
    requires AllDigits(d) && d != "" && !AllAscii(d)
    ensures LongerOrGreater(d, Render(Number(d)))
  {
    var l := Render(Number(d));
    RenderDenotes(Number(d));
    NumberBound(d);
    if |d| < |l| {
      ValueOfFirst(l);
      NumberAtLeast(l);
      Pow10Grows(|d|, |l| - 1);
    } else if |d| == |l| && LexLe(CharLe(), d, l) {
      LexBelowIsLess(d, l);
    }
  }

  /** On this limit the test, made after the leading zeros are gone, is the numeric comparison. */
  ghost predicate TestedAsNumber(d: string, limit: nat) {
    LongerOrGreater(OrZero(StripLeading(d)), Render(limit)) <==> Number(d) > limit
  }

  /**
   * Comparing length and then text never lets a larger number pass, and is the numeric comparison, for every limit,
   * exactly when the digits are ASCII.
   */
  lemma LengthThenTextIsNumeric(d: string)
    requires AllDigits(d)
    ensures forall limit: nat :: !LongerOrGreater(OrZero(StripLeading(d)), Render(limit)) ==> Number(d) <= limit
    ensures (forall limit: nat :: TestedAsNumber(d, limit)) <==> AllAscii(d)
  {
    hide LongerOrGreater, IsDigit, IsAsciiDigit, Number, StripLeading;
    var e := OrZero(StripLeading(d));
    StripLeadingKeeps(d);
    ZeroIsZero();
    forall limit: nat | !LongerOrGreater(e, Render(limit)) ensures Number(d) <= limit { PassedIsAtMost(e, limit); }
    if AllAscii(d) {
      forall limit: nat ensures TestedAsNumber(d, limit) { if Number(d) <= limit { AtMostPasses(e, limit); } }
    } else {
      NonAsciiFails(e);
      assert !TestedAsNumber(d, Number(d));
    }
  }

  lemma ZeroIsZero()
    ensures Number("0") == 0 && Number("") == 0 && AllAscii("0") && AllDigits("0")
  {
    assert "0"[..0] == "";
  }
}
