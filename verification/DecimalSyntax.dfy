/** scripts/gate3_reference_semantics.py: the exact decimal pattern, read unambiguously. */
module DecimalSyntax {
  import opened Wrappers
  import opened DigitStrings

  // ---- syntax ----

  /** The named groups of the decimal pattern; an absent fraction or exponent is the empty string. */
  datatype Parts = Parts(negative: bool, integer: string, fraction: string, exponentNegative: bool, exponent: string)
  {
    ghost predicate WellFormed() {
      && AllDigits(integer) && AllDigits(fraction) && AllDigits(exponent)
      && integer != "" && IsAsciiDigit(integer[0]) && (integer[0] == '0' ==> |integer| == 1)
      && (exponent == "" ==> !exponentNegative)
    }
  }

  predicate IsExponentMark(c: char) { c == 'e' || c == 'E' }

  /** The spellings the pattern accepts for the given groups. */
  ghost predicate Spells(value: string, p: Parts) {
    exists mark: char, plus: bool :: IsExponentMark(mark) && value == Spelling(p, mark, plus)
  }

  function Spelling(p: Parts, mark: char, plus: bool): string {
    if p.negative then "-" + Unsigned(p, mark, plus) else Unsigned(p, mark, plus)
  }

  function Unsigned(p: Parts, mark: char, plus: bool): string {
    p.integer + (FractionText(p) + ExponentText(p, mark, plus))
  }

  function FractionText(p: Parts): string {
    if p.fraction == "" then "" else "." + p.fraction
  }

  function ExponentText(p: Parts, mark: char, plus: bool): string {
    if p.exponent == "" then ""
    else [mark] + (if p.exponentNegative then "-" else if plus then "+" else "") + p.exponent
  }

  /** How many digits a text starts with. */
  function Span(s: string): (n: nat)
    ensures n <= |s| && AllDigits(s[..n]) && (n < |s| ==> !IsDigit(s[n]))
  {
    if s != "" && IsDigit(s[0]) then 1 + Span(s[1..]) else 0
  }

  function IntegerSpan(s: string): (n: nat)
    ensures n <= |s| && AllDigits(s[..n])
  {
    if s == "" || !IsAsciiDigit(s[0]) then 0 else if s[0] == '0' then 1 else Span(s)
  }

  /** Everything after the integer group. */
  function ParseTail(negative: bool, integer: string, t: string): Option<Parts> {
    if t != "" && t[0] == '.' then
      var m := Span(t[1..]);
      if m == 0 then None else ParseExponent(negative, integer, t[1..][..m], t[1..][m..])
    else ParseExponent(negative, integer, "", t)
  }

  function ParseExponent(negative: bool, integer: string, fraction: string, t: string): Option<Parts> {
    if t == "" then Some(Parts(negative, integer, fraction, false, ""))
    else if !IsExponentMark(t[0]) then None
    else
      var signed := |t| > 1 && (t[1] == '+' || t[1] == '-');
      var digits := if signed then t[2..] else t[1..];
      if digits == "" || Span(digits) < |digits| then None
      else Some(Parts(negative, integer, fraction, signed && t[1] == '-', digits))
  }

  function ParseUnsigned(negative: bool, s: string): Option<Parts> {
    var n := IntegerSpan(s);
    if n == 0 then None else ParseTail(negative, s[..n], s[n..])
  }

  function Parse(value: string): Option<Parts> {
    if value != "" && value[0] == '-' then ParseUnsigned(true, value[1..]) else ParseUnsigned(false, value)
  }

  lemma {:induction false} SpanOf(digits: string, rest: string)
    requires AllDigits(digits) && (rest != "" ==> !IsDigit(rest[0]))
    ensures Span(digits + rest) == |digits|
  {
    if digits == "" {
      assert digits + rest == rest;
    } else {
      assert (digits + rest)[1..] == digits[1..] + rest;
      SpanOf(digits[1..], rest);
    }
  }

  lemma SpanAll(digits: string)
    requires AllDigits(digits)
    ensures Span(digits) == |digits|
  {
    SpanOf(digits, "");
    assert digits + "" == digits;
  }

  lemma PunctuationIsNoDigit(c: char)
    requires c in "+-.eE"
    ensures !IsDigit(c)
  {
  }

  lemma ParseExponentComplete(p: Parts, mark: char, plus: bool)
    requires p.WellFormed() && IsExponentMark(mark)
    ensures ParseExponent(p.negative, p.integer, p.fraction, ExponentText(p, mark, plus)) == Some(p)
  {
    var t := ExponentText(p, mark, plus);
    if p.exponent != "" {
      SpanAll(p.exponent);
      PunctuationIsNoDigit('+');
      PunctuationIsNoDigit('-');
      hide IsDigit;
      assert p.exponentNegative || plus ==> t[2..] == p.exponent;
      assert !(p.exponentNegative || plus) ==> t[1..] == p.exponent && t[1] == p.exponent[0];
    }
  }

  lemma ExponentTextStart(p: Parts, mark: char, plus: bool)
    requires IsExponentMark(mark)
    ensures var x := ExponentText(p, mark, plus); x == "" || (x[0] != '.' && !IsDigit(x[0]))
  {
    PunctuationIsNoDigit(mark);
  }

  lemma ParseTailComplete(p: Parts, mark: char, plus: bool)
    requires p.WellFormed() && IsExponentMark(mark)
    ensures ParseTail(p.negative, p.integer, FractionText(p) + ExponentText(p, mark, plus)) == Some(p)
  {
    hide IsDigit, ParseExponent, ExponentText, Span;
    var x := ExponentText(p, mark, plus);
    ParseExponentComplete(p, mark, plus);
    ExponentTextStart(p, mark, plus);
    if p.fraction == "" {
      assert FractionText(p) + x == x;
    } else {
      var t := "." + p.fraction + x;
      assert t[1..] == p.fraction + x;
      SpanOf(p.fraction, x);
      assert t[1..][..|p.fraction|] == p.fraction && t[1..][|p.fraction|..] == x;
      assert FractionText(p) + x == t;
    }
  }

  lemma TailIsNoDigit(p: Parts, mark: char, plus: bool)
    requires IsExponentMark(mark)
    ensures var t := FractionText(p) + ExponentText(p, mark, plus); t == "" || !IsDigit(t[0])
  {
    ExponentTextStart(p, mark, plus);
    PunctuationIsNoDigit('.');
  }

  lemma IntegerSpanOf(integer: string, t: string)
    requires AllDigits(integer) && integer != "" && IsAsciiDigit(integer[0]) && (integer[0] == '0' ==> |integer| == 1)
    requires t == "" || !IsDigit(t[0])
    ensures IntegerSpan(integer + t) == |integer|
  {
    SpanOf(integer, t);
  }

  lemma ParseUnsignedComplete(p: Parts, mark: char, plus: bool)
    requires p.WellFormed() && IsExponentMark(mark)
    ensures ParseUnsigned(p.negative, Unsigned(p, mark, plus)) == Some(p)
  {
    var t := FractionText(p) + ExponentText(p, mark, plus);
    ParseTailComplete(p, mark, plus);
    TailIsNoDigit(p, mark, plus);
    IntegerSpanOf(p.integer, t);
    hide IsDigit, ParseTail, FractionText, ExponentText, IntegerSpan;
    var s := p.integer + t;
    assert s[..|p.integer|] == p.integer && s[|p.integer|..] == t;
  }

  lemma ParseSpelling(p: Parts, mark: char, plus: bool)
    requires p.WellFormed() && IsExponentMark(mark)
    ensures Parse(Spelling(p, mark, plus)) == Some(p)
  {
    ParseUnsignedComplete(p, mark, plus);
    var s := Unsigned(p, mark, plus);
    assert s[0] == p.integer[0];
    hide IsDigit, ParseUnsigned, Unsigned;
    assert ("-" + s)[1..] == s;
  }

  lemma ParseExponentSound(negative: bool, integer: string, fraction: string, t: string) returns (mark: char,
      plus: bool)
    requires ParseExponent(negative, integer, fraction, t).Some?
    ensures var p := ParseExponent(negative, integer, fraction, t).value;
      && p.negative == negative && p.integer == integer && p.fraction == fraction && AllDigits(p.exponent)
      && (p.exponent == "" ==> !p.exponentNegative)
      && IsExponentMark(mark) && t == ExponentText(p, mark, plus)
  {
    hide IsDigit;
    mark, plus := 'e', false;
    if t != "" {
      var p := ParseExponent(negative, integer, fraction, t).value;
      mark, plus := t[0], |t| > 1 && t[1] == '+';
      assert p.exponent[..|p.exponent|] == p.exponent;
      if |t| > 1 && (t[1] == '+' || t[1] == '-') {
        assert t == [t[0]] + [t[1]] + t[2..];
      } else {
        assert t == [t[0]] + t[1..];
      }
    }
  }

  lemma ParseTailSound(negative: bool, integer: string, t: string) returns (mark: char, plus: bool)
    requires ParseTail(negative, integer, t).Some?
    ensures var p := ParseTail(negative, integer, t).value;
      && p.negative == negative && p.integer == integer && AllDigits(p.fraction) && AllDigits(p.exponent)
      && (p.exponent == "" ==> !p.exponentNegative)
      && IsExponentMark(mark) && t == FractionText(p) + ExponentText(p, mark, plus)
  {
    hide IsDigit, ParseExponent;
    if t != "" && t[0] == '.' {
      var m := Span(t[1..]);
      mark, plus := ParseExponentSound(negative, integer, t[1..][..m], t[1..][m..]);
      assert t == "." + t[1..][..m] + t[1..][m..];
    } else {
      mark, plus := ParseExponentSound(negative, integer, "", t);
      assert "" + t == t;
    }
  }

  lemma IntegerSpanForm(s: string)
    requires IntegerSpan(s) > 0
    ensures var n := IntegerSpan(s);
            IsAsciiDigit(s[0]) && (s[0] == '0' ==> n == 1) && AllDigits(s[..n]) && s == s[..n] + s[n..]
  {
    hide IsDigit;
  }

  lemma ParseUnsignedSound(negative: bool, s: string) returns (mark: char, plus: bool)
    requires ParseUnsigned(negative, s).Some?
    ensures ParseUnsigned(negative, s).value.WellFormed() && ParseUnsigned(negative, s).value.negative == negative
    ensures IsExponentMark(mark) && s == Unsigned(ParseUnsigned(negative, s).value, mark, plus)
  {
    hide IsDigit, FractionText, ExponentText, ParseTail, Span, IntegerSpan;
    var n := IntegerSpan(s);
    IntegerSpanForm(s);
    mark, plus := ParseTailSound(negative, s[..n], s[n..]);
  }

  lemma ParseSound(value: string) returns (mark: char, plus: bool)
    requires Parse(value).Some?
    ensures Parse(value).value.WellFormed()
    ensures IsExponentMark(mark) && value == Spelling(Parse(value).value, mark, plus)
  {
    hide Unsigned, ParseUnsigned;
    if value != "" && value[0] == '-' {
      mark, plus := ParseUnsignedSound(true, value[1..]);
      assert value == "-" + value[1..];
    } else {
      mark, plus := ParseUnsignedSound(false, value);
    }
  }

  /** The pattern is unambiguous: a text parses to exactly the groups it spells. */
  lemma ParseIsGrammar(value: string, p: Parts)
    ensures Parse(value) == Some(p) <==> p.WellFormed() && Spells(value, p)
  {
    hide Parse, Spelling;
    if Parse(value) == Some(p) {
      var mark, plus := ParseSound(value);
    }
    if p.WellFormed() && Spells(value, p) {
      var mark: char, plus: bool :| IsExponentMark(mark) && value == Spelling(p, mark, plus);
      ParseSpelling(p, mark, plus);
    }
  }

}
