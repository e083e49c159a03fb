/** Python strings as code points, with the two encodings the canonicalizer uses. */
module UnicodeText {
  import opened Orders

  type CodePoint = c: int | 0 <= c <= 0x10FFFF

  /** A Python `str`: it may hold lone surrogates. */
  type Text = seq<CodePoint>

  predicate IsScalar(c: CodePoint) { !(0xD800 <= c <= 0xDFFF) }

  /** The text survives `encode`: it holds no surrogate. */
  predicate Encodable(t: Text) { forall i :: 0 <= i < |t| ==> IsScalar(t[i]) }

  // ---- UTF-16, big endian ----

  function Units(c: CodePoint): seq<int> {
    if c < 0x10000 then [c] else [0xD800 + (c - 0x10000) / 1024, 0xDC00 + (c - 0x10000) % 1024]
  }

  function Utf16Units(t: Text): seq<int> {
    if t == [] then [] else Units(t[0]) + Utf16Units(t[1..])
  }

  function BigEndian(units: seq<int>): seq<int> {
    if units == [] then [] else [units[0] / 256, units[0] % 256] + BigEndian(units[1..])
  }

  function Utf16(t: Text): seq<int> { BigEndian(Utf16Units(t)) }

  lemma LexPair(x: int, y: int, s: seq<int>, u: int, v: int, t: seq<int>)
    ensures LexLe(IntLe(), [x, y] + s, [u, v] + t) <==>
      x < u || (x == u && (y < v || (y == v && LexLe(IntLe(), s, t))))
  {
    assert ([x, y] + s)[1..] == [y] + s && ([u, v] + t)[1..] == [v] + t;
    assert ([y] + s)[1..] == s && ([v] + t)[1..] == t;
  }

  lemma LexFirst(a: seq<int>, b: seq<int>)
    requires a != [] && b != []
    ensures LexLe(IntLe(), a, b) <==> a[0] < b[0] || (a[0] == b[0] && LexLe(IntLe(), a[1..], b[1..]))
  {
  }

  lemma HighLow(m: int, n: int)
    ensures m < n <==> m / 256 < n / 256 || (m / 256 == n / 256 && m % 256 < n % 256)
    ensures m == n <==> m / 256 == n / 256 && m % 256 == n % 256
  {
  }

  /** Comparing the big-endian bytes is comparing the code units, as RFC 8785 section 3.2.3 asks. */
  lemma {:induction false} ByteOrderIsUnitOrder(a: seq<int>, b: seq<int>)
    ensures LexLe(IntLe(), BigEndian(a), BigEndian(b)) <==> LexLe(IntLe(), a, b)
    ensures BigEndian(a) == BigEndian(b) <==> a == b
  {
    if a != [] && b != [] {
      ByteOrderIsUnitOrder(a[1..], b[1..]);
      hide LexLe;
      LexFirst(a, b);
      LexPair(a[0] / 256, a[0] % 256, BigEndian(a[1..]), b[0] / 256, b[0] % 256, BigEndian(b[1..]));
      HighLow(a[0], b[0]);
      assert BigEndian(a)[0] == a[0] / 256 && BigEndian(a)[1] == a[0] % 256 && BigEndian(a)[2..] == BigEndian(a[1..]);
      assert BigEndian(b)[0] == b[0] / 256 && BigEndian(b)[1] == b[0] % 256 && BigEndian(b)[2..] == BigEndian(b[1..]);
      assert a == [a[0]] + a[1..] && b == [b[0]] + b[1..];
    }
  }

  lemma {:induction false} Utf16UnitsInjective(a: Text, b: Text)
    requires Encodable(a) && Encodable(b) && Utf16Units(a) == Utf16Units(b)
    ensures a == b
  {
    if a == [] || b == [] {
    } else {
      var u := Utf16Units(a);
      assert u[0] == Units(a[0])[0] == Units(b[0])[0];
      assert IsScalar(a[0]) && IsScalar(b[0]);
      assert |Units(a[0])| == |Units(b[0])|;
      assert u[..|Units(a[0])|] == Units(a[0]) == Units(b[0]);
      assert a[0] == b[0];
      assert u[|Units(a[0])|..] == Utf16Units(a[1..]) == Utf16Units(b[1..]);
      Utf16UnitsInjective(a[1..], b[1..]);
      assert a == [a[0]] + a[1..] && b == [b[0]] + b[1..];
    }
  }

  /** Distinct names have distinct sort keys. */
  lemma Utf16Injective(a: Text, b: Text)
    requires Encodable(a) && Encodable(b) && Utf16(a) == Utf16(b)
    ensures a == b
  {
    ByteOrderIsUnitOrder(Utf16Units(a), Utf16Units(b));
    Utf16UnitsInjective(a, b);
  }

  // ---- UTF-8 ----

  function Utf8Char(c: CodePoint): seq<int> {
    if c < 0x80 then [c]
    else if c < 0x800 then [0xC0 + c / 64, 0x80 + c % 64]
    else if c < 0x10000 then [0xE0 + c / 4096, 0x80 + c / 64 % 64, 0x80 + c % 64]
    else [0xF0 + c / 262144, 0x80 + c / 4096 % 64, 0x80 + c / 64 % 64, 0x80 + c % 64]
  }

  function Utf8(t: Text): seq<int> {
    if t == [] then [] else Utf8Char(t[0]) + Utf8(t[1..])
  }

  lemma Utf8CharLength(c: CodePoint)
    ensures var b := Utf8Char(c)[0];
      |Utf8Char(c)| == if b < 0x80 then 1 else if b < 0xE0 then 2 else if b < 0xF0 then 3 else 4
  {
  }

  function Utf8Code(u: seq<int>): int {
    if |u| == 1 then u[0]
    else if |u| == 2 then (u[0] - 0xC0) * 64 + (u[1] - 0x80)
    else if |u| == 3 then (u[0] - 0xE0) * 4096 + (u[1] - 0x80) * 64 + (u[2] - 0x80)
    else if |u| == 4 then (u[0] - 0xF0) * 262144 + (u[1] - 0x80) * 4096 + (u[2] - 0x80) * 64 + (u[3] - 0x80)
    else 0
  }

  lemma SplitBySixBits(c: nat)
    ensures c == c / 64 * 64 + c % 64
    ensures c / 64 == c / 4096 * 64 + c / 64 % 64
    ensures c / 4096 == c / 262144 * 64 + c / 4096 % 64
  {
    assert c / 4096 == c / 64 / 64;
    assert c / 262144 == c / 4096 / 64;
  }

  lemma Utf8CharDecodes(c: CodePoint)
    ensures Utf8Code(Utf8Char(c)) == c
  {
    SplitBySixBits(c);
  }

  lemma Utf8CharInjective(a: CodePoint, b: CodePoint)
    requires Utf8Char(a) == Utf8Char(b)
    ensures a == b
  {
    Utf8CharDecodes(a);
    Utf8CharDecodes(b);
  }

  /** Equal bytes are equal texts. */
  lemma {:induction false} Utf8Injective(a: Text, b: Text)
    requires Utf8(a) == Utf8(b)
    ensures a == b
  {
    if a == [] || b == [] {
    } else {
      var u := Utf8(a);
      assert u[0] == Utf8Char(a[0])[0] == Utf8Char(b[0])[0];
      Utf8CharLength(a[0]);
      Utf8CharLength(b[0]);
      var n := |Utf8Char(a[0])|;
      assert u[..n] == Utf8Char(a[0]) == Utf8Char(b[0]);
      assert u[n..] == Utf8(a[1..]) == Utf8(b[1..]);
      Utf8CharInjective(a[0], b[0]);
      Utf8Injective(a[1..], b[1..]);
      assert a == [a[0]] + a[1..] && b == [b[0]] + b[1..];
    }
  }

  /** A character beyond the basic plane is its surrogate pair, any other one unit. */
  lemma UnitsAre(c: CodePoint)
    ensures c < 0x10000 ==> Units(c) == [c]
    ensures c >= 0x10000 ==>
              |Units(c)| == 2 && 0xD800 <= Units(c)[0] <= 0xDBFF && 0xDC00 <= Units(c)[1] <= 0xDFFF &&
              c == 0x10000 + (Units(c)[0] - 0xD800) * 0x400 + (Units(c)[1] - 0xDC00)
  {
  }

  /** The encoding is the shortest form of RFC 3629 section 3: a lead byte and continuation bytes of six bits. */
  lemma Utf8CharIs(c: CodePoint)
    ensures var u := Utf8Char(c);
            (forall i :: 1 <= i < |u| ==> 0x80 <= u[i] <= 0xBF) &&
            (c <= 0x7F ==> u == [c]) &&
            (0x80 <= c <= 0x7FF ==> |u| == 2 && 0xC2 <= u[0] <= 0xDF && c == (u[0] - 0xC0) * 0x40 + (u[1] - 0x80)) &&
            (0x800 <= c <= 0xFFFF ==>
               |u| == 3 && 0xE0 <= u[0] <= 0xEF &&
               c == (u[0] - 0xE0) * 0x1000 + (u[1] - 0x80) * 0x40 + (u[2] - 0x80)) &&
            (0x10000 <= c ==>
               |u| == 4 && 0xF0 <= u[0] <= 0xF4 &&
               c == (u[0] - 0xF0) * 0x40000 + (u[1] - 0x80) * 0x1000 + (u[2] - 0x80) * 0x40 + (u[3] - 0x80))
  {
    SplitBySixBits(c);
  }
}
