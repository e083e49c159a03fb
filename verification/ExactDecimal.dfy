/** scripts/gate3_reference_semantics.py: exact decimal normalization on digit strings. */
module ExactDecimal {
  import opened Wrappers
  import opened DigitStrings
  import opened DecimalSyntax

  datatype Profile = Profile(maxPrecision: int, maxScale: int, maxAbsExponent: int, maxInputCharacters: int,
                             fixedScale: Option<int>)

  datatype Reason =
    | LimitsNotExplicit
    | InputBoundNotPositive
    | InputTooLong
    | FixedScaleOutOfBounds
    | InvalidSyntax
    | ExponentOutOfBounds
    | RoundingProhibited
    | ScaleOutOfBounds
    | PrecisionOutOfBounds

  /** The normalized coefficient text and nonnegative scale. */
  datatype Decimal = Decimal(coefficient: string, scale: nat)

  /** A coefficient still to be padded with `expansion` zeros. */
  datatype Shaped = Shaped(digits: string, expansion: nat, scale: nat)
  {
    function Magnitude(): string { digits + Zeros(expansion) }
  }

  function Max(a: int, b: int): int { if a > b then a else b }

  /** `(exponent or "0").lstrip("0") or "0"`. */
  function ExponentDigits(p: Parts): string { OrZero(StripLeading(p.exponent)) }

  function Exponent(p: Parts): int {
    var n: int := Number(ExponentDigits(p));
    if p.exponentNegative then -n else n
  }

  function Significand(p: Parts): string { p.integer + p.fraction }

  function EndsInZeros(s: string, k: nat): bool { |s| >= k && s[|s| - k..] == Zeros(k) }

  function StripTrailing(digits: string, scale: int): (string, int) {
    if digits != "0" && EndsInZeros(digits, 1) then StripTrailing(digits[..|digits| - 1], scale - 1)
    else (digits, scale)
  }

  function Shape(pr: Profile, digits: string, scale: int): Result<Shaped, Reason>
    requires pr.fixedScale.Some? ==> pr.fixedScale.value >= 0
  {
    if digits == "0" then Ok(Shaped("0", 0, if pr.fixedScale.Some? then pr.fixedScale.value else 0))
    else if pr.fixedScale.None? then
      var (d, s) := StripTrailing(digits, scale);
      Ok(Shaped(d, Max(-s, 0), Max(s, 0)))
    else
      var shift := pr.fixedScale.value - scale;
      if shift >= 0 then Ok(Shaped(digits, shift, pr.fixedScale.value))
      else if !EndsInZeros(digits, -shift) then Err(RoundingProhibited)
      else Ok(Shaped(OrZero(digits[..|digits| + shift]), 0, pr.fixedScale.value))
  }

  function CoefficientText(negative: bool, padded: string): string {
    if padded == "0" then "0" else if negative then "-" + padded else padded
  }

  function Finish(pr: Profile, negative: bool, s: Shaped): Result<Decimal, Reason> {
    if s.scale > pr.maxScale then Err(ScaleOutOfBounds)
    else if (if s.digits == "0" then 1 else |s.digits| + s.expansion) > pr.maxPrecision then Err(PrecisionOutOfBounds)
    else
      var padded := s.Magnitude();
      Ok(Decimal(CoefficientText(negative, padded), s.scale))
  }

  predicate LimitsExplicit(pr: Profile) {
    pr.maxPrecision > 0 && pr.maxScale >= 0 && pr.maxAbsExponent >= 0
  }

  predicate FixedScaleFits(pr: Profile) {
    pr.fixedScale.Some? ==> 0 <= pr.fixedScale.value <= pr.maxScale
  }

  function Normalize(pr: Profile, value: string): Result<Decimal, Reason> {
    if !LimitsExplicit(pr) then Err(LimitsNotExplicit)
    else if pr.maxInputCharacters <= 0 then Err(InputBoundNotPositive)
    else if |value| > pr.maxInputCharacters then Err(InputTooLong)
    else if !FixedScaleFits(pr) then Err(FixedScaleOutOfBounds)
    else
      match Parse(value)
      case None => Err(InvalidSyntax)
      case Some(p) =>
        if LongerOrGreater(ExponentDigits(p), Render(pr.maxAbsExponent)) then Err(ExponentOutOfBounds)
        else Settle(pr, p)
  }

  /** Everything after the lexical bounds. */
  function Settle(pr: Profile, p: Parts): Result<Decimal, Reason>
    requires FixedScaleFits(pr)
  {
    match Shape(pr, OrZero(StripLeading(Significand(p))), |p.fraction| - Exponent(p))
    case Err(e) => Err(e)
    case Ok(shaped) => Finish(pr, p.negative, shaped)
  }

  /** Everything up to the exponent test is in order. */
  predicate TestsExponent(pr: Profile, value: string) {
    && LimitsExplicit(pr) && 0 < pr.maxInputCharacters && |value| <= pr.maxInputCharacters && FixedScaleFits(pr)
    && Parse(value).Some?
  }

  /**
   * The procedure itself. `longest` is the length of the longest digit string it ever builds, whatever the exponent
   * says: never more than the input, the permitted precision and the text of the exponent bound; and no more than the
   * input and the precision exactly when that text is not. Before the exponent test it builds none.
   */
  method NormalizeExactDecimal(pr: Profile, value: string) returns (r: Result<Decimal, Reason>, ghost longest: nat)
    ensures r == Normalize(pr, value)
    ensures !TestsExponent(pr, value) ==> longest == 0
    ensures TestsExponent(pr, value) ==>
      var limit := |Render(pr.maxAbsExponent)|;
      && longest <= Max(Max(|value|, pr.maxPrecision), limit)
      && (longest <= Max(|value|, pr.maxPrecision) <==> limit <= Max(|value|, pr.maxPrecision))
  {
    hide Render, LongerOrGreater, Parse, Settle;
    longest := 0;
    if pr.maxPrecision < 0 || pr.maxScale < 0 || pr.maxAbsExponent < 0 || pr.maxPrecision == 0 {
      return Err(LimitsNotExplicit), longest;
    }
    if pr.maxInputCharacters <= 0 { return Err(InputBoundNotPositive), longest; }
    if |value| > pr.maxInputCharacters { return Err(InputTooLong), longest; }
    if pr.fixedScale.Some? && (pr.fixedScale.value < 0 || pr.fixedScale.value > pr.maxScale) {
      return Err(FixedScaleOutOfBounds), longest;
    }
    var parsed := Parse(value);
    if parsed.None? { return Err(InvalidSyntax), longest; }
    var p := parsed.value;
    PartsFitInput(value);
    StripLeadingKeeps(p.exponent);
    var exponentDigits := OrZero(StripLeading(p.exponent));
    var exponentLimit := Render(pr.maxAbsExponent);
    longest := Max(|exponentDigits|, |exponentLimit|);
    if LongerOrGreater(exponentDigits, exponentLimit) { return Err(ExponentOutOfBounds), longest; }
    ghost var built;
    r, built := SettleParts(pr, p);
    longest := Max(longest, built);
  }

  /** The text of the exponent bound can be the longest: "1" with one permitted digit and the exponent bound 100. */
  lemma LimitTextMayBeLongest(pr: Profile)
    requires pr == Profile(1, 0, 100, 1, None)
    ensures TestsExponent(pr, "1") && |Render(pr.maxAbsExponent)| == 3 > Max(|"1"|, pr.maxPrecision)
  {
    hide Parse, IsDigit;
    var p := Parts(false, "1", "", false, "");
    AsciiAreDigits("1");
    ParseSpelling(p, 'e', false);
    assert Spelling(p, 'e', false) == "1";
    assert |Render(1)| == 1 && |Render(10)| == 2;
  }

  method SettleParts(pr: Profile, p: Parts) returns (r: Result<Decimal, Reason>, ghost longest: nat)
    requires FixedScaleFits(pr) && pr.maxPrecision > 0
    ensures r == Settle(pr, p)
    ensures longest <= Max(Max(|Significand(p)|, 1), pr.maxPrecision)
  {
    hide Shape, Number, IsDigit, Finish;
    StripLeadingKeeps(Significand(p));
    var exponent: int := Number(ExponentDigits(p));
    if p.exponentNegative { exponent := -exponent; }
    var digits := OrZero(StripLeading(p.integer + p.fraction));
    var scale := |p.fraction| - exponent;
    var shaped;
    shaped, longest := ShapeCoefficient(pr, digits, scale);
    longest := Max(longest, |Significand(p)|);
    if shaped.Err? { return Err(shaped.error), longest; }
    ghost var built;
    r, built := FinishCoefficient(pr, p.negative, shaped.value);
    longest := Max(longest, built);
  }

  method FinishCoefficient(pr: Profile, negative: bool, s: Shaped) returns (r: Result<Decimal, Reason>,
      ghost longest: nat)
    requires pr.maxPrecision > 0 && (s.digits == "0" ==> s.expansion == 0)
    ensures r == Finish(pr, negative, s)
    ensures longest <= pr.maxPrecision
  {
    longest := 0;
    if s.scale > pr.maxScale { return Err(ScaleOutOfBounds), longest; }
    var precision := if s.digits == "0" then 1 else |s.digits| + s.expansion;
    if precision > pr.maxPrecision { return Err(PrecisionOutOfBounds), longest; }
    var padded := s.digits;
    if s.expansion > 0 { padded := padded + Zeros(s.expansion); }
    assert padded == s.Magnitude();
    longest := |padded|;
    r := Ok(Decimal(CoefficientText(negative, padded), s.scale));
  }

  method ShapeCoefficient(pr: Profile, digits: string, scale: int) returns (r: Result<Shaped, Reason>,
      ghost longest: nat)
    requires FixedScaleFits(pr) && digits != "" && (digits[0] == '0' ==> digits == "0")
    ensures r == Shape(pr, digits, scale)
    ensures longest <= |digits|
    ensures r.Ok? && r.value.digits == "0" ==> r.value.expansion == 0
  {
    longest := |digits|;
    if digits == "0" {
      return Ok(Shaped("0", 0, if pr.fixedScale.Some? then pr.fixedScale.value else 0)), longest;
    }
    var d, s := digits, scale;
    if pr.fixedScale.None? {
      while d != "0" && EndsInZeros(d, 1)
        invariant 0 < |d| <= |digits| && d[0] == digits[0]
        invariant StripTrailing(d, s) == StripTrailing(digits, scale)
        decreases |d|
      {
        d := d[..|d| - 1];
        s := s - 1;
      }
      return Ok(Shaped(d, Max(-s, 0), Max(s, 0))), longest;
    }
    var shift := pr.fixedScale.value - scale;
    if shift >= 0 { return Ok(Shaped(digits, shift, pr.fixedScale.value)), longest; }
    if |digits| < -shift || !EndsInZeros(digits, -shift) { return Err(RoundingProhibited), longest; }
    return Ok(Shaped(OrZero(digits[..|digits| + shift]), 0, pr.fixedScale.value)), longest;
  }

  lemma PartsFitInput(value: string)
    requires Parse(value).Some?
    ensures var p := Parse(value).value; p.WellFormed() && 0 < |Significand(p)| <= |value| && |p.exponent| <= |value|
  {
    var mark, plus := ParseSound(value);
    hide Parse;
  }

  // ---- the numbers behind the texts ----

  /** Ten to an integer power. */
  ghost function TenTo(k: int): real
    decreases if k < 0 then -k else k
  {
    if k == 0 then 1.0 else if k > 0 then 10.0 * TenTo(k - 1) else TenTo(k + 1) / 10.0
  }

  /** The number n * 10^e. */
  ghost function Scaled(n: int, e: int): real { n as real * TenTo(e) }

  ghost function Signed(negative: bool, n: nat): int { if negative then 0 - n else n }

  /** The number a decimal text denotes. */
  ghost function ValueOf(p: Parts): real {
    Scaled(Signed(p.negative, Number(Significand(p))), Exponent(p) - |p.fraction|)
  }

  ghost function CoefficientValue(s: string): int {
    if s != "" && s[0] == '-' then Signed(true, Number(s[1..])) else Number(s)
  }

  ghost function DecimalValue(d: Decimal): real {
    Scaled(CoefficientValue(d.coefficient), 0 - d.scale)
  }

  lemma TenToStep(k: int)
    ensures TenTo(k + 1) == 10.0 * TenTo(k)
  {
  }

  lemma {:induction false} TenToPositive(k: int)
    ensures TenTo(k) > 0.0
    decreases if k < 0 then -k else k
  {
    if k > 0 { TenToPositive(k - 1); } else if k < 0 { TenToPositive(k + 1); }
  }

  lemma TenfoldReal(x: real, t: real)
    ensures (10.0 * x) * t == x * (10.0 * t)
  {
  }

  lemma ScaledStep(n: int, e: int)
    ensures Scaled(10 * n, e) == Scaled(n, e + 1)
  {
    TenToStep(e);
    assert (10 * n) as real == 10.0 * (n as real);
    hide TenTo;
    TenfoldReal(n as real, TenTo(e));
  }

  lemma ScaledZero(e: int)
    ensures Scaled(0, e) == 0.0
  {
  }

  lemma CancelReal(x: real, y: real, t: real)
    requires t > 0.0 && x * t == y * t
    ensures x == y
  {
  }

  lemma ScaledInjective(m: int, n: int, e: int)
    requires Scaled(m, e) == Scaled(n, e)
    ensures m == n
  {
    TenToPositive(e);
    hide TenTo;
    CancelReal(m as real, n as real, TenTo(e));
  }

  lemma TenTimes(n: int, p: nat)
    ensures n * (10 * p) == 10 * (n * p)
  {
  }

  /** Moving k powers of ten between the integer and the exponent keeps the number. */
  lemma {:induction false} Rescale(n: int, k: nat, e: int)
    ensures Scaled(n * Pow10(k), e) == Scaled(n, e + k)
  {
    hide Scaled;
    if k == 0 {
    } else {
      TenTimes(n, Pow10(k - 1));
      ScaledStep(n * Pow10(k - 1), e);
      Rescale(n, k - 1, e + 1);
    }
  }

  /** Equal numbers at different scales differ by a power of ten in the integer. */
  lemma SameNumber(m: int, a: int, n: int, b: int)
    requires a <= b && Scaled(m, a) == Scaled(n, b)
    ensures m == n * Pow10(b - a)
  {
    hide Scaled;
    Rescale(n, b - a, a);
    ScaledInjective(m, n * Pow10(b - a), a);
  }

  lemma {:induction false} StripTrailingKeeps(digits: string, scale: int) returns (k: nat)
    requires digits != "" && (digits[0] == '0' ==> digits == "0")
    ensures var (d, s) := StripTrailing(digits, scale);
      && s == scale - k && digits == d + Zeros(k) && d != "" && d[0] == digits[0]
      && (d != "0" ==> d[|d| - 1] != '0')
  {
    if digits != "0" && EndsInZeros(digits, 1) {
      var n := |digits| - 1;
      assert digits[n..] == Zeros(1);
      assert digits == digits[..n] + Zeros(1);
      k := StripTrailingKeeps(digits[..n], scale - 1);
      assert Zeros(k) + Zeros(1) == Zeros(k + 1);
      k := k + 1;
    } else {
      k := 0;
      assert digits == digits + Zeros(0);
      assert digits[|digits| - 1..] == [digits[|digits| - 1]] && Zeros(1) == ['0'];
    }
  }

  /** What the leading-zero strip hands on. */
  ghost predicate Trimmed(digits: string) { digits != "" && (digits[0] == '0' ==> digits == "0") }

  /** The coefficient shaping leaves, against the one it was given: padded or cut by k zeros. */
  lemma ShapeDigits(pr: Profile, digits: string, scale: int) returns (k: nat)
    requires FixedScaleFits(pr) && Trimmed(digits) && Shape(pr, digits, scale).Ok?
    ensures var s := Shape(pr, digits, scale).value;
      && Trimmed(s.digits) && (s.digits == "0" <==> digits == "0") && (s.digits == "0" ==> s.expansion == 0)
      && digits == s.digits + Zeros(k)
      && (digits != "0" ==> s.scale == scale - k + s.expansion)
      && (digits == "0" ==> k == 0)
  {
    var s := Shape(pr, digits, scale).value;
    k := 0;
    assert Zeros(0) == "" && digits + "" == digits;
    if digits != "0" {
      if pr.fixedScale.None? {
        k := StripTrailingKeeps(digits, scale);
      } else if pr.fixedScale.value - scale < 0 {
        k := scale - pr.fixedScale.value;
        assert digits == digits[..|digits| - k] + Zeros(k);
      }
    }
  }

  /** Shaping keeps the magnitude exactly. */
  lemma ShapeExact(pr: Profile, digits: string, scale: int)
    requires FixedScaleFits(pr) && Trimmed(digits) && Shape(pr, digits, scale).Ok?
    ensures var s := Shape(pr, digits, scale).value;
      Scaled(Number(s.Magnitude()), 0 - s.scale) == Scaled(Number(digits), -scale)
  {
    hide Shape, Number, Scaled;
    var s := Shape(pr, digits, scale).value;
    var k := ShapeDigits(pr, digits, scale);
    ZeroIsZero();
    AppendZeros(s.digits, s.expansion);
    AppendZeros(s.digits, k);
    Rescale(Number(s.digits), s.expansion, 0 - s.scale);
    Rescale(Number(s.digits), k, -scale);
    if digits == "0" {
      ScaledZero(0 - s.scale);
      ScaledZero(-scale);
    }
  }

  lemma AppendZerosAlphabet(digits: string, n: nat)
    ensures AllDigits(digits) <==> AllDigits(digits + Zeros(n))
    ensures AllAscii(digits) <==> AllAscii(digits + Zeros(n))
  {
    forall i | 0 <= i < |digits| ensures digits[i] == (digits + Zeros(n))[i] {}
  }

  /** Shaping changes neither the alphabet nor the leading digit. */
  lemma ShapeAlphabet(pr: Profile, digits: string, scale: int)
    requires FixedScaleFits(pr) && Trimmed(digits) && Shape(pr, digits, scale).Ok?
    ensures var s := Shape(pr, digits, scale).value;
      && (AllDigits(digits) <==> AllDigits(s.Magnitude()))
      && (AllAscii(digits) <==> AllAscii(s.Magnitude()))
      && s.Magnitude() != "" && (s.Magnitude() == "0" <==> digits == "0") && Trimmed(s.Magnitude())
  {
    hide Shape, IsDigit, AllDigits, AllAscii;
    var s := Shape(pr, digits, scale).value;
    var k := ShapeDigits(pr, digits, scale);
    AppendZerosAlphabet(s.digits, s.expansion);
    AppendZerosAlphabet(s.digits, k);
  }

  lemma SignificandIsDigits(p: Parts)
    requires p.WellFormed()
    ensures AllDigits(Significand(p))
  {
  }

  lemma TrimmedSignificand(p: Parts)
    requires p.WellFormed()
    ensures var digits := OrZero(StripLeading(Significand(p)));
      && Trimmed(digits) && Number(digits) == Number(Significand(p)) && AllDigits(digits)
      && (AllAscii(digits) <==> AllAscii(Significand(p)))
  {
    hide IsDigit, DigitValue, Number, StripLeading, IsAsciiDigit, Significand;
    SignificandIsDigits(p);
    StripLeadingKeeps(Significand(p));
    ZeroIsZero();
  }

  lemma ScaledNegate(n: int, e: int)
    ensures Scaled(0 - n, e) == -Scaled(n, e)
  {
  }

  lemma CoefficientShape(negative: bool, padded: string)
    requires AllDigits(padded) && Trimmed(padded)
    ensures var c := CoefficientText(negative, padded);
      && CoefficientValue(c) == Signed(negative, Number(padded))
      && CoefficientDigits(c) == padded && c != "-0" && c != "" && c[|c| - 1] == padded[|padded| - 1] &&
      NoLeadingZero(padded)
  {
    PunctuationIsNoDigit('-');
    ZeroIsZero();
    hide IsDigit, Number;
    assert ("-" + padded)[1..] == padded;
  }

  lemma SignedScales(negative: bool, m: nat, e: int, n: nat, f: int)
    requires Scaled(m, e) == Scaled(n, f)
    ensures Scaled(Signed(negative, m), e) == Scaled(Signed(negative, n), f)
  {
    ScaledNegate(m, e);
    ScaledNegate(n, f);
  }

  lemma FinishText(pr: Profile, negative: bool, s: Shaped)
    requires Finish(pr, negative, s).Ok?
    ensures Finish(pr, negative, s).value == Decimal(CoefficientText(negative, s.Magnitude()), s.scale)
    ensures s.scale <= pr.maxScale && (s.digits != "0" ==> |s.Magnitude()| <= pr.maxPrecision)
  {
  }

  /** Shaping and finishing together, on trimmed digits. */
  lemma FinishFacts(pr: Profile, negative: bool, digits: string, scale: int) returns (padded: string)
    requires FixedScaleFits(pr) && Trimmed(digits) && AllDigits(digits)
    requires Shape(pr, digits, scale).Ok? && Finish(pr, negative, Shape(pr, digits, scale).value).Ok?
    ensures var d := Finish(pr, negative, Shape(pr, digits, scale).value).value;
      && d.coefficient == CoefficientText(negative, padded)
      && AllDigits(padded) && Trimmed(padded) && (AllAscii(padded) <==> AllAscii(digits))
      && Scaled(Number(padded), 0 - d.scale) == Scaled(Number(digits), -scale)
      && (pr.fixedScale.Some? ==> d.scale == pr.fixedScale.value)
      && (pr.fixedScale.None? ==> d.scale == 0 || padded[|padded| - 1] != '0')
      && d.scale <= pr.maxScale && (padded != "0" ==> |padded| <= pr.maxPrecision)
  {
    hide IsDigit, AllDigits, AllAscii, Number, Scaled, Shape, Finish;
    var s := Shape(pr, digits, scale).value;
    ShapeExact(pr, digits, scale);
    ShapeAlphabet(pr, digits, scale);
    ShapeCanonical(pr, digits, scale);
    FinishText(pr, negative, s);
    padded := s.Magnitude();
    assert s.expansion == 0 ==> padded == s.digits;
  }

  lemma SettleIsFinish(pr: Profile, p: Parts)
    requires FixedScaleFits(pr)
    ensures var shaped := Shape(pr, OrZero(StripLeading(Significand(p))), |p.fraction| - Exponent(p));
      Settle(pr, p) == if shaped.Err? then Err(shaped.error) else Finish(pr, p.negative, shaped.value)
  {
  }

  /** What an accepted input's coefficient digits and scale are, seen from the input. */
  lemma SettleFacts(pr: Profile, p: Parts) returns (padded: string)
    requires FixedScaleFits(pr) && p.WellFormed() && Settle(pr, p).Ok?
    ensures var d := Settle(pr, p).value;
      && d.coefficient == CoefficientText(p.negative, padded)
      && AllDigits(padded) && Trimmed(padded) && (AllAscii(padded) <==> AllAscii(Significand(p)))
      && Scaled(Number(padded), 0 - d.scale) == Scaled(Number(Significand(p)), Exponent(p) - |p.fraction|)
      && (pr.fixedScale.Some? ==> d.scale == pr.fixedScale.value)
      && (pr.fixedScale.None? ==> d.scale == 0 || padded[|padded| - 1] != '0')
      && d.scale <= pr.maxScale && (padded != "0" ==> |padded| <= pr.maxPrecision)
  {
    hide IsDigit, AllDigits, AllAscii, Number, Scaled, Shape, Finish, Settle, StripLeading, OrZero, Exponent,
      CoefficientText;
    TrimmedSignificand(p);
    SettleIsFinish(pr, p);
    padded := FinishFacts(pr, p.negative, OrZero(StripLeading(Significand(p))), |p.fraction| - Exponent(p));
  }

  /** No rounding: the accepted coefficient and scale denote exactly the input's number. */
  lemma SettleExact(pr: Profile, p: Parts)
    requires FixedScaleFits(pr) && p.WellFormed() && Settle(pr, p).Ok?
    ensures DecimalValue(Settle(pr, p).value) == ValueOf(p)
  {
    hide Settle, Scaled, Number, CoefficientValue, CoefficientText, Exponent, IsDigit, Significand;
    var padded := SettleFacts(pr, p);
    CoefficientShape(p.negative, padded);
    var d := Settle(pr, p).value;
    SignedScales(p.negative, Number(padded), 0 - d.scale, Number(Significand(p)), Exponent(p) - |p.fraction|);
  }

  // ---- the canonical form ----

  function CoefficientDigits(c: string): string { if c != "" && c[0] == '-' then c[1..] else c }

  /** A coefficient as Python prints an integer: ASCII digits, no leading zero, no negative zero. */
  ghost predicate Plain(c: string) {
    AllAscii(CoefficientDigits(c)) && NoLeadingZero(CoefficientDigits(c)) && c != "-0"
  }

  ghost predicate Canonical(pr: Profile, d: Decimal) {
    && Plain(d.coefficient)
    && (pr.fixedScale.Some? ==> d.scale == pr.fixedScale.value)
    && (pr.fixedScale.None? ==> d.scale == 0 || d.coefficient[|d.coefficient| - 1] != '0')
  }

  lemma LastOfTen(x: nat, d: nat)
    requires d < 10
    ensures (x * 10 + d) % 10 == d
  {
  }

  lemma NumberSnoc(s: string)
    requires s != ""
    ensures Number(s) == Number(s[..|s| - 1]) * 10 + DigitValue(s[|s| - 1])
  {
    hide DigitValue;
  }

  lemma PlainUnique(a: string, b: string)
    requires Plain(a) && Plain(b) && CoefficientValue(a) == CoefficientValue(b)
    ensures a == b
  {
    var da, db := CoefficientDigits(a), CoefficientDigits(b);
    assert "0"[..0] == "" && Number("0") == 0;
    if da != "0" { NumberAtLeast(da); Pow10Positive(|da| - 1); }
    if db != "0" { NumberAtLeast(db); Pow10Positive(|db| - 1); }
    hide Number;
    RenderingUnique(da, db);
    assert a == "-" + da || a == da;
    assert b == "-" + db || b == db;
  }

  lemma TrailingZeroFromScale(c: string, m: int, k: nat)
    requires Plain(c) && k > 0 && CoefficientValue(c) == m * Pow10(k)
    ensures c[|c| - 1] == '0'
  {
    var d := CoefficientDigits(c);
    var x := m * Pow10(k - 1);
    TenTimes(m, Pow10(k - 1));
    LastDigit(d);
    hide Number;
    assert Number(d) == 10 * x || Number(d) == 10 * (0 - x);
    assert c[|c| - 1] == d[|d| - 1];
  }

  /** Canonical forms are unique: equal numbers have equal coefficient and scale. */
  lemma CanonicalUnique(pr: Profile, a: Decimal, b: Decimal)
    requires Canonical(pr, a) && Canonical(pr, b) && DecimalValue(a) == DecimalValue(b)
    ensures a == b
  {
    var m, n := CoefficientValue(a.coefficient), CoefficientValue(b.coefficient);
    hide Scaled, CoefficientValue, Plain;
    if a.scale == b.scale {
      ScaledInjective(m, n, 0 - a.scale);
      PlainUnique(a.coefficient, b.coefficient);
    } else if a.scale < b.scale {
      SameNumber(n, 0 - b.scale, m, 0 - a.scale);
      TrailingZeroFromScale(b.coefficient, m, b.scale - a.scale);
    } else {
      SameNumber(m, 0 - a.scale, n, 0 - b.scale);
      TrailingZeroFromScale(a.coefficient, n, a.scale - b.scale);
    }
  }

  lemma ShapeCanonical(pr: Profile, digits: string, scale: int)
    requires FixedScaleFits(pr) && Trimmed(digits) && Shape(pr, digits, scale).Ok?
    ensures var s := Shape(pr, digits, scale).value;
      && s.digits != ""
      && (pr.fixedScale.Some? ==> s.scale == pr.fixedScale.value)
      && (pr.fixedScale.None? ==> s.scale == 0 || (s.expansion == 0 && s.digits[|s.digits| - 1] != '0'))
  {
    var j := ShapeDigits(pr, digits, scale);
    if digits != "0" && pr.fixedScale.None? {
      var k := StripTrailingKeeps(digits, scale);
    }
  }

  /**
   * The pattern's `\d` also accepts non-ASCII digits, which the zero strips do not recognise. An accepted input is
   * brought to canonical form exactly when its significand is written in ASCII digits.
   */
  lemma CanonicalIffAscii(pr: Profile, p: Parts)
    requires FixedScaleFits(pr) && p.WellFormed() && Settle(pr, p).Ok?
    ensures Canonical(pr, Settle(pr, p).value) <==> AllAscii(Significand(p))
  {
    hide Settle, Scaled, Number, CoefficientValue, CoefficientText, CoefficientDigits, IsDigit, AllAscii,
      NoLeadingZero;
    var padded := SettleFacts(pr, p);
    CoefficientShape(p.negative, padded);
  }

  /** Forms determine the number; from ASCII digits, exactly the ASCII spellings of the same number share the form. */
  lemma EqualFormsIffEqualNumbers(pr: Profile, p: Parts, q: Parts)
    requires FixedScaleFits(pr) && p.WellFormed() && q.WellFormed()
    requires Settle(pr, p).Ok? && Settle(pr, q).Ok?
    ensures Settle(pr, p) == Settle(pr, q) ==> ValueOf(p) == ValueOf(q)
    ensures AllAscii(Significand(p)) ==>
      (Settle(pr, p) == Settle(pr, q) <==> ValueOf(p) == ValueOf(q) && AllAscii(Significand(q)))
  {
    SettleExact(pr, p);
    SettleExact(pr, q);
    CanonicalIffAscii(pr, p);
    CanonicalIffAscii(pr, q);
    hide Settle, ValueOf, DecimalValue, Canonical;
    if AllAscii(Significand(p)) && AllAscii(Significand(q)) && ValueOf(p) == ValueOf(q) {
      CanonicalUnique(pr, Settle(pr, p).value, Settle(pr, q).value);
    }
  }

  // ---- the core of a significand ----

  /**
   * The digits left once ASCII zeros are stripped at both ends ("0" when none is left) and the scale of the last
   * one.
   */
  function CoreOf(p: Parts): (string, int) {
    StripTrailing(OrZero(StripLeading(Significand(p))), |p.fraction| - Exponent(p))
  }

  lemma CoreFacts(p: Parts)
    requires p.WellFormed()
    ensures var (d, t) := CoreOf(p);
      && Trimmed(d) && (d != "0" ==> d[|d| - 1] != '0')
      && ValueOf(p) == Scaled(Signed(p.negative, Number(d)), -t)
  {
    hide Number, Scaled, IsDigit, StripLeading, OrZero, Exponent, Significand, StripTrailing, Signed;
    var digits, scale := OrZero(StripLeading(Significand(p))), |p.fraction| - Exponent(p);
    TrimmedSignificand(p);
    var k := StripTrailingKeeps(digits, scale);
    var (d, t) := CoreOf(p);
    AppendZeros(d, k);
    Rescale(Number(d), k, -scale);
    SignedScales(p.negative, Number(d), -t, Number(digits), -scale);
  }

  /** The scale at which a form whose last core digit has scale t is written. */
  function TargetScale(pr: Profile, t: int): nat
    requires FixedScaleFits(pr)
  {
    if pr.fixedScale.Some? then pr.fixedScale.value else Max(t, 0)
  }

  lemma ZerosAfterCore(d: string, k: nat, m: nat)
    requires d != "" && d[|d| - 1] != '0'
    ensures EndsInZeros(d + Zeros(k), m) <==> m <= k
  {
    var s := d + Zeros(k);
    if m <= k {
      assert s[|s| - m..] == Zeros(m);
    } else if m <= |s| {
      assert s[|s| - m..][m - k - 1] == d[|d| - 1];
    }
  }

  lemma CutZeros(d: string, k: nat, m: nat)
    requires m <= k
    ensures (d + Zeros(k))[..|d + Zeros(k)| - m] == d + Zeros(k - m)
  {
  }

  lemma PadZeros(d: string, k: nat, m: nat)
    ensures d + Zeros(k) + Zeros(m) == d + Zeros(k + m)
  {
  }

  /** Shaping in closed form: it succeeds unless core digits lie beyond the target scale, and pads the core up to it. */
  lemma ShapeByCore(pr: Profile, digits: string, scale: int)
    requires FixedScaleFits(pr) && Trimmed(digits) && digits != "0"
    ensures var (d, t) := StripTrailing(digits, scale);
      Shape(pr, digits, scale).Ok? <==> t <= TargetScale(pr, t)
    ensures Shape(pr, digits, scale).Err? ==> Shape(pr, digits, scale).error == RoundingProhibited
    ensures var (d, t) := StripTrailing(digits, scale);
      Shape(pr, digits, scale).Ok? ==>
        var s := Shape(pr, digits, scale).value;
        s.scale == TargetScale(pr, t) && s.digits != "0" && s.Magnitude() == d + Zeros(s.scale - t)
  {
    var k := StripTrailingKeeps(digits, scale);
    var (d, t) := StripTrailing(digits, scale);
    if pr.fixedScale.Some? {
      var shift := pr.fixedScale.value - scale;
      if shift >= 0 {
        PadZeros(d, k, shift);
      } else {
        ZerosAfterCore(d, k, -shift);
        if -shift <= k { CutZeros(d, k, -shift); PadZeros(d, k + shift, 0); }
      }
    }
  }

  lemma FinishIs(pr: Profile, negative: bool, s: Shaped)
    requires s.digits != "0"
    ensures Finish(pr, negative, s).Ok? <==> s.scale <= pr.maxScale && |s.Magnitude()| <= pr.maxPrecision
    ensures Finish(pr, negative, s).Err? ==>
      Finish(pr, negative, s).error == if s.scale > pr.maxScale then ScaleOutOfBounds else PrecisionOutOfBounds
    ensures Finish(pr, negative, s).Ok? ==>
      Finish(pr, negative, s).value == Decimal(CoefficientText(negative, s.Magnitude()), s.scale)
  {
  }

  lemma ZeroSettles(pr: Profile, negative: bool, scale: int)
    requires LimitsExplicit(pr) && FixedScaleFits(pr)
    ensures Shape(pr, "0", scale).Ok?
    ensures Finish(pr, negative, Shape(pr, "0", scale).value) == Ok(Decimal("0", TargetScale(pr, 0)))
  {
  }

  /** Whether a core is accepted, and as what: its length once padded to the target scale decides. */
  lemma SettleByCore(pr: Profile, p: Parts)
    requires LimitsExplicit(pr) && FixedScaleFits(pr) && p.WellFormed()
    ensures CoreOf(p).0 == "0" ==> Settle(pr, p) == Ok(Decimal("0", TargetScale(pr, 0)))
    ensures var (d, t) := CoreOf(p); var g := TargetScale(pr, t);
      d != "0" ==> (Settle(pr, p).Ok? <==> t <= g <= pr.maxScale && |d| + (g - t) <= pr.maxPrecision)
    ensures var (d, t) := CoreOf(p); var g := TargetScale(pr, t);
      d != "0" && Settle(pr, p).Ok? ==>
        t <= g && Settle(pr, p).value == Decimal(CoefficientText(p.negative, d + Zeros(g - t)), g)
    ensures var (d, t) := CoreOf(p); var g := TargetScale(pr, t);
      Settle(pr, p).Err? ==>
        Settle(pr, p).error == if t > g then RoundingProhibited else if g > pr.maxScale then ScaleOutOfBounds
          else PrecisionOutOfBounds
  {
    hide Settle, Shape, Finish, Number, StripLeading, OrZero, Exponent, Significand, IsDigit, CoefficientText,
      LimitsExplicit;
    var digits, scale := OrZero(StripLeading(Significand(p))), |p.fraction| - Exponent(p);
    TrimmedSignificand(p);
    SettleIsFinish(pr, p);
    var k := StripTrailingKeeps(digits, scale);
    if digits == "0" {
      ZeroSettles(pr, p.negative, scale);
    } else {
      ShapeByCore(pr, digits, scale);
      if Shape(pr, digits, scale).Ok? { FinishIs(pr, p.negative, Shape(pr, digits, scale).value); }
    }
  }

  /** The outcome for an input past the lexical bounds, read off its stripped significand and scale. */
  ghost predicate SettlesAs(pr: Profile, p: Parts, r: Result<Decimal, Reason>)
    requires pr.fixedScale.Some? ==> pr.fixedScale.value >= 0
  {
    var (d, t) := CoreOf(p);
    var g: nat := if pr.fixedScale.Some? then pr.fixedScale.value else if t > 0 then t else 0;
    r == if d == "0" then Ok(Decimal("0", if pr.fixedScale.Some? then g else 0))
         else if t > g then Err(RoundingProhibited)
         else if g > pr.maxScale then Err(ScaleOutOfBounds)
         else if |d| + (g - t) > pr.maxPrecision then Err(PrecisionOutOfBounds)
         else Ok(Decimal((if p.negative then "-" else "") + (d + Zeros(g - t)), g))
  }

  lemma SettledAs(pr: Profile, p: Parts)
    requires LimitsExplicit(pr) && FixedScaleFits(pr) && p.WellFormed()
    ensures SettlesAs(pr, p, Settle(pr, p)) && Settle(pr, p) != Err(ExponentOutOfBounds)
  {
    hide Settle, CoreOf;
    SettleByCore(pr, p);
    var (d, t) := CoreOf(p);
    if d != "0" && Settle(pr, p).Ok? {
      var padded := d + Zeros(TargetScale(pr, t) - t);
      PaddedIsNotZero(p, TargetScale(pr, t) - t);
      assert "" + padded == padded;
    } else if d == "0" {
      ZeroFits(pr);
    }
  }

  lemma ZeroFits(pr: Profile)
    requires FixedScaleFits(pr)
    ensures TargetScale(pr, 0) == if pr.fixedScale.Some? then pr.fixedScale.value else 0
  {
  }

  lemma PaddedIsNotZero(p: Parts, k: nat)
    requires p.WellFormed() && CoreOf(p).0 != "0"
    ensures CoreOf(p).0 + Zeros(k) != "0"
  {
    hide CoreOf;
    CoreTextIsNotZero(p, k);
  }

  /** Every outcome of the normalization in the order of its checks, each refusal with its reason. */
  lemma OutcomeIs(pr: Profile, value: string)
    ensures var r := Normalize(pr, value);
      if pr.maxPrecision <= 0 || pr.maxScale < 0 || pr.maxAbsExponent < 0 then r == Err(LimitsNotExplicit)
      else if pr.maxInputCharacters <= 0 then r == Err(InputBoundNotPositive)
      else if |value| > pr.maxInputCharacters then r == Err(InputTooLong)
      else if pr.fixedScale.Some? && !(0 <= pr.fixedScale.value <= pr.maxScale) then r == Err(FixedScaleOutOfBounds)
      else if !exists p: Parts :: IsSpelled(value, p) then r == Err(InvalidSyntax)
      else forall p :: IsSpelled(value, p) ==>
        (r == Err(ExponentOutOfBounds) || SettlesAs(pr, p, r)) &&
        (AllAscii(p.exponent) ==> (r == Err(ExponentOutOfBounds) <==> Number(p.exponent) > pr.maxAbsExponent))
  {
    hide Parse, Settle, SettlesAs, Spells, LongerOrGreater, Render, Number, IsAsciiDigit, StripLeading, OrZero;
    forall p { ParseIsGrammar(value, p); }
    if Parse(value).Some? { assert IsSpelled(value, Parse(value).value); }
    forall p: Parts | IsSpelled(value, p) && TestsExponent(pr, value)
      ensures SettlesAs(pr, p, Settle(pr, p)) && Settle(pr, p) != Err(ExponentOutOfBounds)
      ensures AllAscii(p.exponent) ==>
        (LongerOrGreater(ExponentDigits(p), Render(pr.maxAbsExponent)) <==> Number(p.exponent) > pr.maxAbsExponent)
    {
      ExponentTestIsNumeric(p);
      assert AllAscii(p.exponent) ==> TestedAsNumber(p.exponent, pr.maxAbsExponent);
      SettledAs(pr, p);
    }
  }

  ghost predicate IsSpelled(value: string, p: Parts) { p.WellFormed() && Spells(value, p) }

  ghost predicate SameCore(p: Parts, q: Parts) {
    CoreOf(p).0 == CoreOf(q).0 && (CoreOf(p).0 != "0" ==> p.negative == q.negative && CoreOf(p).1 == CoreOf(q).1)
  }

  lemma TextDetermines(a: bool, x: string, b: bool, y: string)
    requires AllDigits(x) && AllDigits(y) && Trimmed(x) && Trimmed(y) && x != "0"
    ensures CoefficientText(a, x) == CoefficientText(b, y) <==> x == y && a == b
  {
    PunctuationIsNoDigit('-');
    hide IsDigit;
    assert ("-" + x)[1..] == x && ("-" + y)[1..] == y && ("-" + x)[0] == '-' && ("-" + y)[0] == '-';
    assert x[0] != '-' && y[0] != '-';
  }

  lemma PaddedDetermines(d: string, k: nat, e: string, m: nat)
    requires d != "" && e != "" && d[|d| - 1] != '0' && e[|e| - 1] != '0' && d + Zeros(k) == e + Zeros(m)
    ensures d == e && k == m
  {
    var s := d + Zeros(k);
    assert s == e + Zeros(m) && s[|d| - 1] == d[|d| - 1] && s[|e| - 1] == e[|e| - 1];
    assert forall i :: |d| <= i < |s| ==> s[i] == '0';
    assert forall i :: |e| <= i < |s| ==> s[i] == '0';
    assert |d| == |e|;
    assert d == s[..|d|] && e == s[..|e|];
  }

  lemma CoreIsDigits(p: Parts)
    requires p.WellFormed()
    ensures AllDigits(CoreOf(p).0) && (AllAscii(CoreOf(p).0) <==> AllAscii(Significand(p)))
  {
    hide Number, IsDigit, IsAsciiDigit, StripLeading, OrZero, Exponent, Significand, AllDigits, AllAscii,
      StripTrailing;
    var digits, scale := OrZero(StripLeading(Significand(p))), |p.fraction| - Exponent(p);
    TrimmedSignificand(p);
    var k := StripTrailingKeeps(digits, scale);
    AppendZerosAlphabet(CoreOf(p).0, k);
  }

  lemma PaddedCore(p: Parts, n: nat)
    requires p.WellFormed() && CoreOf(p).0 != "0"
    ensures var x := CoreOf(p).0 + Zeros(n); AllDigits(x) && Trimmed(x) && x != "0"
  {
    hide Number, Scaled, IsDigit, CoreOf, AllDigits, AllAscii;
    CoreFacts(p);
    CoreIsDigits(p);
    AppendZerosAlphabet(CoreOf(p).0, n);
  }

  lemma CoreTextsAgree(p: Parts, k: nat, q: Parts, m: nat)
    requires p.WellFormed() && q.WellFormed() && CoreOf(p).0 != "0" && CoreOf(q).0 != "0"
    ensures CoefficientText(p.negative, CoreOf(p).0 + Zeros(k)) ==
              CoefficientText(q.negative, CoreOf(q).0 + Zeros(m)) <==>
      p.negative == q.negative && CoreOf(p).0 == CoreOf(q).0 && k == m
  {
    hide CoreOf, CoefficientText, AllDigits, Scaled, Number;
    CoreFacts(p);
    CoreFacts(q);
    PaddedCore(p, k);
    PaddedCore(q, m);
    TextDetermines(p.negative, CoreOf(p).0 + Zeros(k), q.negative, CoreOf(q).0 + Zeros(m));
    if CoreOf(p).0 + Zeros(k) == CoreOf(q).0 + Zeros(m) { PaddedDetermines(CoreOf(p).0, k, CoreOf(q).0, m); }
  }

  lemma CoreTextIsNotZero(p: Parts, k: nat)
    requires p.WellFormed() && CoreOf(p).0 != "0"
    ensures CoefficientText(p.negative, CoreOf(p).0 + Zeros(k)) != "0"
  {
    hide CoreOf, AllDigits;
    PaddedCore(p, k);
  }

  /** Accepted inputs, whatever their digits, get one form exactly when their cores agree in digits, sign and scale. */
  lemma EqualFormsIffSameCore(pr: Profile, p: Parts, q: Parts)
    requires LimitsExplicit(pr) && FixedScaleFits(pr) && p.WellFormed() && q.WellFormed()
    requires Settle(pr, p).Ok? && Settle(pr, q).Ok?
    ensures Settle(pr, p) == Settle(pr, q) <==> SameCore(p, q)
  {
    hide Settle, CoreOf, CoefficientText, LimitsExplicit;
    SettleByCore(pr, p);
    SettleByCore(pr, q);
    var (d, t) := CoreOf(p);
    var (e, u) := CoreOf(q);
    var g, h := TargetScale(pr, t), TargetScale(pr, u);
    if d != "0" && e != "0" {
      CoreTextsAgree(p, g - t, q, h - u);
    } else if d != "0" {
      CoreTextIsNotZero(p, g - t);
    } else if e != "0" {
      CoreTextIsNotZero(q, h - u);
    }
  }

  // ---- which inputs are accepted ----

  ghost function Abs(n: int): nat { if n < 0 then 0 - n else n }

  lemma ScaledAbs(n: int, e: int)
    ensures Scaled(Abs(n), e) == if Scaled(n, e) < 0.0 then -Scaled(n, e) else Scaled(n, e)
  {
    TenToPositive(e);
    SignOfProduct(n as real, TenTo(e));
    ScaledNegate(n, e);
  }

  lemma SignOfProduct(x: real, t: real)
    requires t > 0.0
    ensures x * t < 0.0 <==> x < 0.0
  {
  }

  lemma SignedAbs(negative: bool, n: nat)
    ensures Abs(Signed(negative, n)) == n
  {
  }

  /** c * 10^-s is the number v, within the profile's precision and scale. */
  ghost predicate Represents(pr: Profile, v: real, c: int, s: nat) {
    && s <= pr.maxScale && (pr.fixedScale.Some? ==> s == pr.fixedScale.value)
    && pr.maxPrecision >= 0 && Abs(c) < Pow10(pr.maxPrecision)
    && Scaled(c, 0 - s) == v
  }

  ghost predicate Representable(pr: Profile, v: real) { exists c: int, s: nat :: Represents(pr, v, c, s) }

  /**
   * The digits at the ends of the core are worth something; the last one need not be where it stands before the
   * decimal point. Only a zero that is not the ASCII one can fail this.
   */
  ghost predicate EndsCount(p: Parts) {
    var (d, t) := CoreOf(p);
    d == "0" || (d != "" && DigitValue(d[0]) != 0 && (t <= 0 || DigitValue(d[|d| - 1]) != 0))
  }

  lemma LastDigit(s: string)
    requires s != ""
    ensures Number(s) % 10 == 0 <==> DigitValue(s[|s| - 1]) == 0
  {
    hide Number, DigitValue;
    NumberSnoc(s);
    LastOfTen(Number(s[..|s| - 1]), DigitValue(s[|s| - 1]));
  }

  /** Digits that end in a worthwhile one have the least scale of all ways to write their number. */
  lemma LeastScale(d: string, t: int, c: nat, s: nat)
    requires d != "" && Scaled(c, 0 - s) == Scaled(Number(d), -t)
    requires t <= 0 || DigitValue(d[|d| - 1]) != 0
    ensures t <= s && c == Number(d) * Pow10(s - t)
  {
    hide Number, Scaled, DigitValue;
    if t > s {
      SameNumber(Number(d), -t, c, 0 - s);
      TenTimes(c, Pow10(t - s - 1));
      LastDigit(d);
      assert false;
    }
    SameNumber(c, 0 - s, Number(d), -t);
  }

  /** The padded core is no longer than any integer that represents its number. */
  lemma PaddedFits(pr: Profile, d: string, n: nat, m: nat)
    requires pr.maxPrecision > 0 && d != "" && DigitValue(d[0]) != 0 && n <= m &&
             Number(d) * Pow10(m) < Pow10(pr.maxPrecision)
    ensures |d| + n <= pr.maxPrecision
  {
    hide Number, DigitValue;
    AppendZeros(d, m);
    LengthIsSize(d + Zeros(m), pr.maxPrecision);
  }

  /** What can be represented is accepted. */
  lemma RepresentableIsAccepted(pr: Profile, p: Parts, c: int, s: nat)
    requires LimitsExplicit(pr) && FixedScaleFits(pr) && p.WellFormed() && EndsCount(p)
    requires Represents(pr, ValueOf(p), c, s)
    ensures Settle(pr, p).Ok?
  {
    hide Settle, Number, Scaled, CoreOf, Abs, Signed, Exponent, DigitValue, Significand;
    var (d, t) := CoreOf(p);
    CoreFacts(p);
    SettleByCore(pr, p);
    if d != "0" {
      ScaledAbs(c, 0 - s);
      ScaledAbs(Signed(p.negative, Number(d)), -t);
      SignedAbs(p.negative, Number(d));
      LeastScale(d, t, Abs(c), s);
      PaddedFits(pr, d, TargetScale(pr, t) - t, s - t);
    }
  }

  /** What is accepted is represented by its own coefficient and scale, whatever digits it is written in. */
  lemma SettledIsRepresented(pr: Profile, p: Parts)
    requires LimitsExplicit(pr) && FixedScaleFits(pr) && p.WellFormed() && Settle(pr, p).Ok?
    ensures var d := Settle(pr, p).value; Represents(pr, ValueOf(p), CoefficientValue(d.coefficient), d.scale)
  {
    hide Settle, Number, Scaled, CoefficientText, CoefficientValue, Signed, IsDigit, Exponent, Significand;
    var padded := SettleFacts(pr, p);
    CoefficientShape(p.negative, padded);
    SettleExact(pr, p);
    SignedAbs(p.negative, Number(padded));
    if padded == "0" {
      ZeroIsZero();
      Pow10Positive(pr.maxPrecision);
    } else {
      NumberBound(padded);
      Pow10Grows(|padded|, pr.maxPrecision);
    }
  }

  // A zero that the strips do not know costs an input a profile that could represent it.

  lemma LeadingZeroBound(d: string, n: nat)
    requires d != "" && DigitValue(d[0]) == 0
    ensures Number(d) * Pow10(n) < Pow10(|d| - 1 + n)
  {
    hide Number, DigitValue;
    var rest := d[1..];
    assert d == [d[0]] + rest;
    NumberPrepend(d[0], rest);
    AppendZeros(rest, n);
    NumberBound(rest + Zeros(n));
  }

  lemma SignedRescale(negative: bool, n: nat, k: nat, e: int)
    ensures Scaled(Signed(negative, n * Pow10(k)), e) == Scaled(Signed(negative, n), e + k)
  {
    hide Scaled;
    Rescale(n, k, e);
    SignedScales(negative, n * Pow10(k), e, n, e + k);
  }

  /** The first core digit is worth nothing: the form is one digit longer than its number. */
  lemma LeadingZeroMisjudged(p: Parts, bound: nat, length: nat) returns (pr: Profile, c: int, s: nat)
    requires p.WellFormed() && CoreOf(p).0 != "0" && CoreOf(p).0 != "" && DigitValue(CoreOf(p).0[0]) == 0
    ensures LimitsExplicit(pr) && FixedScaleFits(pr) && pr.maxAbsExponent == bound && pr.maxInputCharacters == length
    ensures Represents(pr, ValueOf(p), c, s) && Settle(pr, p).Err?
  {
    hide Settle, Number, Scaled, CoreOf, Abs, Signed, DigitValue, Exponent, Significand;
    var (d, t) := CoreOf(p);
    CoreFacts(p);
    s := Max(t, 0) + 1;
    pr := Profile(|d| - 1 + (s - t), s, bound, length, Some(s));
    c := Signed(p.negative, Number(d) * Pow10(s - t));
    SettleByCore(pr, p);
    LeadingZeroBound(d, s - t);
    SignedAbs(p.negative, Number(d) * Pow10(s - t));
    SignedRescale(p.negative, Number(d), s - t, 0 - s);
  }

  /** The last core digit is worth nothing and stands behind the point: cutting it off is refused as rounding. */
  lemma TrailingZeroMisjudged(p: Parts, bound: nat, length: nat) returns (pr: Profile, c: int, s: nat)
    requires p.WellFormed() && CoreOf(p).0 != "0" && CoreOf(p).0 != "" &&
             DigitValue(CoreOf(p).0[|CoreOf(p).0| - 1]) == 0
    requires CoreOf(p).1 > 0
    ensures LimitsExplicit(pr) && FixedScaleFits(pr) && pr.maxAbsExponent == bound && pr.maxInputCharacters == length
    ensures Represents(pr, ValueOf(p), c, s) && Settle(pr, p).Err?
  {
    hide Settle, Number, Scaled, CoreOf, Abs, Signed, DigitValue, Exponent, Significand;
    var (d, t) := CoreOf(p);
    CoreFacts(p);
    s := t - 1;
    pr := Profile(|d|, s, bound, length, Some(s));
    var n := Number(d[..|d| - 1]);
    c := Signed(p.negative, n);
    SettleByCore(pr, p);
    NumberSnoc(d);
    NumberBound(d[..|d| - 1]);
    Pow10Grows(|d| - 1, |d|);
    SignedAbs(p.negative, n);
    assert Pow10(1) == 10 by { assert Pow10(0) == 1; }
    SignedRescale(p.negative, n, 1, -t);
  }

  /** The checks made on the spelling alone, before the number is looked at. */
  ghost predicate LexicallyBounded(pr: Profile, value: string) {
    TestsExponent(pr, value) && Number(Parse(value).value.exponent) <= pr.maxAbsExponent
  }

  /**
   * The text comparison of exponent digits never lets an exponent above the bound pass, and rejects exactly those, for
   * every bound, exactly when the exponent is written in ASCII digits.
   */
  lemma ExponentTestIsNumeric(p: Parts)
    requires p.WellFormed()
    ensures forall bound: nat :: !LongerOrGreater(ExponentDigits(p), Render(bound)) ==> Number(p.exponent) <= bound
    ensures (forall bound: nat :: TestedAsNumber(p.exponent, bound)) <==> AllAscii(p.exponent)
    ensures Abs(Exponent(p)) == Number(p.exponent)
  {
    hide Number, Render, IsAsciiDigit, IsDigit, StripLeading, LongerOrGreater;
    LengthThenTextIsNumeric(p.exponent);
    StripLeadingKeeps(p.exponent);
    ZeroIsZero();
  }

  /** The number of a text, from its groups alone: all digits, times ten to the signed exponent less the fraction. */
  lemma ValueIs(p: Parts)
    requires p.WellFormed()
    ensures ValueOf(p) ==
      var digits: int := Number(p.integer + p.fraction);
      (if p.negative then 0 - digits else digits) as real *
      TenTo((if p.exponentNegative then 0 - Number(p.exponent) else Number(p.exponent)) - |p.fraction|)
  {
    hide Number, TenTo;
    StripLeadingKeeps(p.exponent);
    ZeroIsZero();
  }

  lemma NormalizeIs(pr: Profile, value: string)
    requires TestsExponent(pr, value)
    ensures Normalize(pr, value) ==
      if LongerOrGreater(ExponentDigits(Parse(value).value), Render(pr.maxAbsExponent)) then Err(ExponentOutOfBounds)
      else Settle(pr, Parse(value).value)
  {
    hide Parse, Settle, LongerOrGreater, ExponentDigits, Render;
  }

  /** Every accepted input passes the lexical bounds numerically and is represented by its own form. */
  lemma AcceptedIsRepresentable(pr: Profile, value: string)
    requires Normalize(pr, value).Ok?
    ensures LexicallyBounded(pr, value)
    ensures var d := Normalize(pr, value).value;
      Represents(pr, ValueOf(Parse(value).value), CoefficientValue(d.coefficient), d.scale)
  {
    hide Settle, Parse, Number, Render, StripLeading, Represents, ValueOf, ExponentDigits, LongerOrGreater,
      TestedAsNumber;
    var p := Parse(value).value;
    var mark, plus := ParseSound(value);
    ExponentTestIsNumeric(p);
    SettledIsRepresented(pr, p);
  }

  /** Under this profile the input's fate is that of its number. */
  ghost predicate JudgedByNumber(pr: Profile, value: string) {
    Normalize(pr, value).Ok? <==> LexicallyBounded(pr, value) && Representable(pr, ValueOf(Parse(value).value))
  }

  /** What the text comparisons need: an ASCII exponent and a significand whose ends count. */
  ghost predicate PlainlyWritten(p: Parts) { EndsCount(p) && AllAscii(p.exponent) }

  lemma PlainIsJudgedByNumber(pr: Profile, value: string)
    requires Parse(value).Some? ==> PlainlyWritten(Parse(value).value)
    ensures JudgedByNumber(pr, value)
  {
    hide Settle, Parse, Number, Render, Represents, ValueOf, AllAscii, LongerOrGreater, EndsCount, StripLeading;
    if Normalize(pr, value).Ok? {
      AcceptedIsRepresentable(pr, value);
    } else if LexicallyBounded(pr, value) && Representable(pr, ValueOf(Parse(value).value)) {
      var p := Parse(value).value;
      var c: int, s: nat :| Represents(pr, ValueOf(p), c, s);
      var mark, plus := ParseSound(value);
      ExponentTestIsNumeric(p);
      assert TestedAsNumber(p.exponent, pr.maxAbsExponent);
      RepresentableIsAccepted(pr, p, c, s);
      NormalizeIs(pr, value);
    }
  }

  /** A wide enough profile represents any number. */
  lemma WideProfile(p: Parts, bound: nat, length: nat) returns (pr: Profile, c: int, s: nat)
    requires p.WellFormed()
    ensures LimitsExplicit(pr) && FixedScaleFits(pr) && pr.maxAbsExponent == bound && pr.maxInputCharacters == length
    ensures Represents(pr, ValueOf(p), c, s)
  {
    hide Number, Scaled, CoreOf, Abs, Signed;
    var (d, t) := CoreOf(p);
    CoreFacts(p);
    s := Max(t, 0);
    pr := Profile(|d| + (s - t), s, bound, length, None);
    c := Signed(p.negative, Number(d) * Pow10(s - t));
    AppendZeros(d, s - t);
    NumberBound(d + Zeros(s - t));
    SignedAbs(p.negative, Number(d) * Pow10(s - t));
    SignedRescale(p.negative, Number(d), s - t, 0 - s);
  }

  /** An input that is not plainly written is rejected by some profile that could represent it. */
  lemma NotPlainIsMisjudged(value: string) returns (pr: Profile)
    requires Parse(value).Some? && !PlainlyWritten(Parse(value).value)
    ensures LexicallyBounded(pr, value) && Representable(pr, ValueOf(Parse(value).value)) && Normalize(pr, value).Err?
  {
    hide Settle, Parse, Number, Render, Represents, ValueOf, AllAscii, IsDigit, ExponentDigits, LongerOrGreater,
      CoreOf, DigitValue, StripLeading;
    var p := Parse(value).value;
    var bound, length := Number(p.exponent), |value|;
    var mark, plus := ParseSound(value);
    ParsedIsNotEmpty(value);
    var c: int, s: nat;
    if !AllAscii(p.exponent) {
      pr, c, s := WideProfile(p, bound, length);
      OwnExponentFails(p);
    } else {
      CoreIsNotEmpty(p);
      if DigitValue(CoreOf(p).0[0]) == 0 {
        pr, c, s := LeadingZeroMisjudged(p, bound, length);
      } else {
        pr, c, s := TrailingZeroMisjudged(p, bound, length);
      }
    }
    NormalizeIs(pr, value);
  }

  lemma ParsedIsNotEmpty(value: string)
    requires Parse(value).Some?
    ensures value != ""
  {
    PartsFitInput(value);
  }

  lemma CoreIsNotEmpty(p: Parts)
    requires p.WellFormed()
    ensures CoreOf(p).0 != ""
  {
    hide Number, Scaled, CoreOf;
    CoreFacts(p);
  }

  /** The bound at which a non-ASCII exponent is taken for a larger one is its own number. */
  lemma OwnExponentFails(p: Parts)
    requires p.WellFormed() && !AllAscii(p.exponent)
    ensures LongerOrGreater(ExponentDigits(p), Render(Number(p.exponent)))
  {
    hide Number, Render, IsAsciiDigit, IsDigit, LongerOrGreater, StripLeading;
    StripLeadingKeeps(p.exponent);
    ZeroIsZero();
    NonAsciiFails(ExponentDigits(p));
  }

  /**
   * Acceptance is a property of the number, under every profile, exactly for the inputs that are plainly written: then
   * an input is accepted when it passes the lexical bounds and some integer of at most max_precision digits over ten
   * to a permitted scale equals its number. Any other input is rejected by some profile that could represent it.
   */
  lemma AcceptanceIsRepresentability(value: string)
    ensures (forall pr :: JudgedByNumber(pr, value)) <==> (Parse(value).Some? ==> PlainlyWritten(Parse(value).value))
  {
    hide Parse, JudgedByNumber, PlainlyWritten;
    if Parse(value).Some? && !PlainlyWritten(Parse(value).value) {
      var pr := NotPlainIsMisjudged(value);
      assert !JudgedByNumber(pr, value) by { Misjudged(pr, value); }
    } else {
      forall pr ensures JudgedByNumber(pr, value) { PlainIsJudgedByNumber(pr, value); }
    }
  }

  lemma Misjudged(pr: Profile, value: string)
    requires LexicallyBounded(pr, value) && Representable(pr, ValueOf(Parse(value).value)) && Normalize(pr, value).Err?
    ensures !JudgedByNumber(pr, value)
  {
    hide LexicallyBounded, Representable, Normalize, Parse, ValueOf;
  }

  /** Everything written in ASCII digits is plainly written. */
  lemma AsciiIsPlain(p: Parts)
    requires p.WellFormed() && AllAscii(Significand(p)) && AllAscii(p.exponent)
    ensures PlainlyWritten(p)
  {
    hide Number, Scaled, CoreOf, Significand;
    CoreFacts(p);
    CoreIsDigits(p);
  }

  /** A core whose ends count denotes zero only when it is "0". */
  lemma CoreIsPositive(d: string)
    requires d != "" && DigitValue(d[0]) != 0
    ensures Number(d) > 0
  {
    NumberAtLeast(d);
    Pow10Positive(|d| - 1);
  }

  lemma SignedReal(a: bool, m: nat, t: int, b: bool, u: int)
    requires m > 0 && Scaled(Signed(a, m), -t) == Scaled(Signed(b, m), -u)
    ensures a == b && t == u
  {
    hide Scaled;
    var x, y := Signed(a, m), Signed(b, m);
    if t <= u {
      SameNumber(y, -u, x, -t);
      PowerOne(y, x, u - t);
    } else {
      SameNumber(x, -t, y, -u);
      PowerOne(x, y, t - u);
    }
  }

  lemma PowerOne(x: int, y: int, k: nat)
    requires x != 0 && (x == y || x == 0 - y) && x == y * Pow10(k)
    ensures k == 0 && x == y
  {
    if k > 0 { Pow10Positive(k - 1); MulLarge(y, Pow10(k)); }
  }

  lemma MulLarge(y: int, p: nat)
    requires p >= 2 && y != 0
    ensures y * p != y && y * p != 0 - y
  {
    if y > 0 { assert y * p >= y * 2; } else { assert (0 - y) * p >= (0 - y) * 2; }
  }

  lemma SameDigitsSameCore(p: Parts, q: Parts)
    requires p.WellFormed() && q.WellFormed() && EndsCount(p) && ValueOf(p) == ValueOf(q)
    ensures CoreOf(p).0 == CoreOf(q).0 ==> SameCore(p, q)
  {
    hide Number, Scaled, CoreOf, DigitValue, Signed;
    CoreFacts(p);
    CoreFacts(q);
    var (d, t) := CoreOf(p);
    if d != "0" && d == CoreOf(q).0 {
      CoreIsPositive(d);
      SignedReal(p.negative, Number(d), t, q.negative, CoreOf(q).1);
    }
  }

  lemma SameNumberSettles(pr: Profile, p: Parts, q: Parts)
    requires LimitsExplicit(pr) && FixedScaleFits(pr) && p.WellFormed() && q.WellFormed()
    requires Settle(pr, p).Ok? && Settle(pr, q).Ok? && EndsCount(p) && ValueOf(p) == ValueOf(q)
    ensures Settle(pr, p) == Settle(pr, q) <==> CoreOf(p).0 == CoreOf(q).0
    ensures AllAscii(Significand(p)) && AllAscii(Significand(q)) ==> Settle(pr, p) == Settle(pr, q)
  {
    EqualFormsIffSameCore(pr, p, q);
    EqualFormsIffEqualNumbers(pr, p, q);
    SameDigitsSameCore(p, q);
  }

  lemma AcceptedIsSettled(pr: Profile, value: string)
    requires Normalize(pr, value).Ok?
    ensures Parse(value).Some? && LimitsExplicit(pr) && FixedScaleFits(pr) && Parse(value).value.WellFormed()
    ensures Normalize(pr, value) == Settle(pr, Parse(value).value)
  {
    hide Parse, Settle, LongerOrGreater, ExponentDigits, Render;
    var mark, plus := ParseSound(value);
  }

  /**
   * Two plainly written spellings of one number that pass the lexical bounds are both accepted or both rejected; the
   * forms agree exactly when the core digits do, as they always do in ASCII.
   */
  lemma SpellingDoesNotMatter(pr: Profile, v: string, w: string)
    requires LexicallyBounded(pr, v) && LexicallyBounded(pr, w)
    requires PlainlyWritten(Parse(v).value) && PlainlyWritten(Parse(w).value)
    requires ValueOf(Parse(v).value) == ValueOf(Parse(w).value)
    ensures Normalize(pr, v).Ok? <==> Normalize(pr, w).Ok?
    ensures Normalize(pr, v).Ok? ==> var p, q := Parse(v).value, Parse(w).value;
      && (Normalize(pr, v) == Normalize(pr, w) <==> CoreOf(p).0 == CoreOf(q).0)
      && (AllAscii(Significand(p)) && AllAscii(Significand(q)) ==> Normalize(pr, v) == Normalize(pr, w))
  {
    hide Settle, Parse, Normalize, Representable, ValueOf, AllAscii, CoreOf, Significand;
    PlainIsJudgedByNumber(pr, v);
    PlainIsJudgedByNumber(pr, w);
    if Normalize(pr, v).Ok? {
      AcceptedIsSettled(pr, v);
      AcceptedIsSettled(pr, w);
      SameNumberSettles(pr, Parse(v).value, Parse(w).value);
    }
  }

  // ---- inputs on which the spelling matters ----

  lemma ArabicIndic()
    ensures DigitValue('\U{0660}') == 0 && IsDigit('\U{0660}') && !IsAsciiDigit('\U{0660}')
    ensures DigitValue('\U{0663}') == 3 && IsDigit('\U{0663}') && !IsAsciiDigit('\U{0663}')
  {
    assert StartsDigitRun(0x0660);
    assert RunOffset(0x0663, 3) == 3;
    assert !StartsDigitRun(0x0663) && !StartsDigitRun(0x0662) && !StartsDigitRun(0x0661);
    assert RunOffset(0x0663, 2) == 3 && RunOffset(0x0663, 1) == 3;
  }

  lemma OneWithFraction(zero: char)
    requires DigitValue(zero) == 0
    ensures Number(['1', zero]) == 10 && Number("1") == 1 && Pow10(1) == 10
  {
    assert ['1', zero][..1] == "1" && "1"[..0] == "" && Pow10(0) == 1;
    NumberSnoc(['1', zero]);
    NumberSnoc("1");
  }

  /** A one with an optional fraction, under a free scale: its form is read off the digits. */
  lemma NormalizeOne(pr: Profile, v: string, p: Parts)
    requires pr == Profile(10, pr.maxScale, 4, 16, None) && pr.maxScale >= 0 && |v| <= 16 && Parse(v) == Some(p)
    requires p.integer == "1" && |p.fraction| <= 1 && p.exponent == "" && !p.negative
    requires Significand(p)[|Significand(p)| - 1] != '0'
    ensures Normalize(pr, v) ==
      if |p.fraction| <= pr.maxScale then Ok(Decimal(Significand(p), |p.fraction|)) else Err(ScaleOutOfBounds)
    ensures LexicallyBounded(pr, v)
  {
    hide Parse, IsDigit;
    var sig := Significand(p);
    assert sig[|sig| - 1..] == [sig[|sig| - 1]] && Zeros(1) == ['0'];
    RenderDenotes(4);
    assert StripLeading("") == "" && StripLeading(sig) == sig && Render(4) == "4";
    ZeroIsZero();
    assert ExponentDigits(p) == "0" && !LongerOrGreater("0", "4");
    assert StripTrailing(sig, |p.fraction|) == (sig, |p.fraction|);
    assert sig + Zeros(0) == sig;
  }

  /** "1." with an Arabic-Indic zero behind the point, and "1". */
  lemma SpellingsOfOne() returns (p: Parts, q: Parts)
    ensures Parse("1.\U{0660}") == Some(p) && p == Parts(false, "1", "\U{0660}", false, "")
    ensures Parse("1") == Some(q) && q == Parts(false, "1", "", false, "")
    ensures ValueOf(p) == ValueOf(q) && Significand(p) == ['1', '\U{0660}'] && Significand(q) == "1"
  {
    hide Parse, DigitValue, IsDigit, Number, Scaled;
    p, q := Parts(false, "1", "\U{0660}", false, ""), Parts(false, "1", "", false, "");
    ArabicIndic();
    AsciiAreDigits("1");
    ParseSpelling(p, 'e', false);
    ParseSpelling(q, 'e', false);
    assert Spelling(p, 'e', false) == "1.\U{0660}" && Spelling(q, 'e', false) == "1";
    OneWithFraction('\U{0660}');
    ZeroIsZero();
    assert Exponent(p) == Exponent(q) == 0 by { assert StripLeading("") == ""; }
    assert Significand(p) == ['1', '\U{0660}'] && Significand(q) == "1";
    assert ValueOf(p) == Scaled(10, -1) && ValueOf(q) == Scaled(1, 0);
    Rescale(1, 1, -1);
  }

  /** Where ASCII fails: "1.0" with an Arabic-Indic zero is accepted, denotes 1, and is not the form of "1". */
  lemma NonAsciiZeroBreaksCanonicity(pr: Profile) returns (v: string, w: string)
    requires pr == Profile(10, 4, 4, 16, None)
    ensures LexicallyBounded(pr, v) && LexicallyBounded(pr, w)
    ensures ValueOf(Parse(v).value) == ValueOf(Parse(w).value)
    ensures Normalize(pr, v).Ok? && Normalize(pr, w).Ok? && Normalize(pr, v) != Normalize(pr, w)
  {
    hide Parse, Normalize, LexicallyBounded, ValueOf;
    v, w := "1.\U{0660}", "1";
    var p, q := SpellingsOfOne();
    NormalizeOne(pr, v, p);
    NormalizeOne(pr, w, q);
  }

  /** The same pair, told apart by acceptance: with max_scale 0 only "1" is accepted. */
  lemma NonAsciiZeroIsRejected(pr: Profile) returns (v: string, w: string)
    requires pr == Profile(10, 0, 4, 16, None)
    ensures v == "1.\U{0660}" && w == "1" && LexicallyBounded(pr, v) && LexicallyBounded(pr, w)
    ensures ValueOf(Parse(v).value) == ValueOf(Parse(w).value)
    ensures Normalize(pr, v) == Err(ScaleOutOfBounds) && Normalize(pr, w).Ok?
  {
    hide Parse, Normalize, LexicallyBounded, ValueOf;
    v, w := "1.\U{0660}", "1";
    var p, q := SpellingsOfOne();
    NormalizeOne(pr, v, p);
    NormalizeOne(pr, w, q);
  }

  lemma ThreeDigit(three: char)
    requires DigitValue(three) == 3
    ensures Number([three]) == 3
  {
    assert [three][..0] == "";
    NumberSnoc([three]);
  }

  /** A one with the exponent 3, whose digit decides alone whether the bound 4 lets it pass. */
  lemma NormalizeThousand(pr: Profile, three: char) returns (p: Parts)
    requires pr == Profile(10, 4, 4, 16, None) && DigitValue(three) == 3 && IsDigit(three) && three != '0'
    ensures Parse("1e" + [three]) == Some(p) && p == Parts(false, "1", "", false, [three])
    ensures Normalize(pr, "1e" + [three]) == (if three <= '4' then Ok(Decimal("1000", 0)) else Err(ExponentOutOfBounds))
    ensures LexicallyBounded(pr, "1e" + [three]) && Exponent(p) == 3
  {
    hide Parse, IsDigit, DigitValue, Number;
    var v := "1e" + [three];
    p := Parts(false, "1", "", false, [three]);
    AsciiAreDigits("1");
    ParseSpelling(p, 'e', false);
    assert Spelling(p, 'e', false) == v;
    ThreeDigit(three);
    RenderDenotes(4);
    assert Render(4) == "4" && StripLeading([three]) == [three] && ExponentDigits(p) == [three];
    assert LongerOrGreater([three], "4") <==> three > '4' by { assert [three][1..] == "" && "4"[1..] == ""; }
    if three <= '4' { SettleThousand(pr, p); }
  }

  lemma SettleThousand(pr: Profile, p: Parts)
    requires pr == Profile(10, 4, 4, 16, None) && p == Parts(false, "1", "", false, p.exponent) && Exponent(p) == 3
    requires p.WellFormed()
    ensures Settle(pr, p) == Ok(Decimal("1000", 0))
  {
    hide Exponent, Settle, Number, Finish, Shape, IsDigit, DigitValue;
    assert Significand(p) == "1" && StripLeading("1") == "1";
    assert !EndsInZeros("1", 1) by { assert "1"[0..] == "1" && Zeros(1) == "0"; }
    assert StripTrailing("1", -3) == ("1", -3);
    assert "1" + Zeros(3) == "1000";
    SettleByCore(pr, p);
  }

  /** An exponent in an Arabic-Indic digit is taken for a larger one: under the bound 4 only "1e3" is accepted. */
  lemma NonAsciiExponentIsRejected(pr: Profile) returns (v: string, w: string)
    requires pr == Profile(10, 4, 4, 16, None)
    ensures v == "1e\U{0663}" && w == "1e3" && LexicallyBounded(pr, v) && LexicallyBounded(pr, w)
    ensures ValueOf(Parse(v).value) == ValueOf(Parse(w).value)
    ensures Normalize(pr, v) == Err(ExponentOutOfBounds) && Normalize(pr, w).Ok?
  {
    hide Parse, Normalize, LexicallyBounded, DigitValue, IsDigit, Number, Scaled, Exponent;
    ArabicIndic();
    AsciiThree();
    v, w := "1e" + ['\U{0663}'], "1e" + ['3'];
    var p := NormalizeThousand(pr, '\U{0663}');
    var q := NormalizeThousand(pr, '3');
  }

  lemma AsciiThree()
    ensures DigitValue('3') == 3 && IsDigit('3')
  {
  }

  /**
   * A non-ASCII zero before the decimal point does no harm: "1" followed by an Arabic-Indic zero is judged as
   * ten is.
   */
  lemma NonAsciiZeroBeforePoint(pr: Profile) returns (p: Parts)
    ensures Parse("1\U{0660}") == Some(p) && !AllAscii(Significand(p))
    ensures CoreOf(p) == (['1', '\U{0660}'], 0) && DigitValue('\U{0660}') == 0
    ensures JudgedByNumber(pr, "1\U{0660}")
  {
    hide Parse, DigitValue, IsDigit, Number, JudgedByNumber;
    p := Parts(false, "1\U{0660}", "", false, "");
    ArabicIndic();
    AsciiOne();
    ParseSpelling(p, 'e', false);
    assert Spelling(p, 'e', false) == "1\U{0660}";
    var sig := Significand(p);
    assert sig == ['1', '\U{0660}'] && sig[1] == '\U{0660}' && StripLeading(sig) == sig && StripLeading("") == "";
    ZeroIsZero();
    assert Exponent(p) == 0 && !EndsInZeros(sig, 1) by { assert sig[1..] == ['\U{0660}'] && Zeros(1) == ['0']; }
    assert CoreOf(p) == (sig, 0);
    PlainIsJudgedByNumber(pr, "1\U{0660}");
  }

  lemma AsciiOne()
    ensures DigitValue('1') == 1 && IsDigit('1')
  {
  }
}
