/**
 * `parse_number`: the one normalisation every amount goes through before
 * it is summed or compared. Null, blank and unparsable values become 0;
 * numbers pass through; text is trimmed and read as a decimal literal.
 */
module Numbers {
  import opened Records

  /** Python's `str.isspace`: the characters `str.strip()` removes. */
  predicate IsSpace(c: char)
  {
    c == ' ' || '\t' <= c <= '\r' || '\U{1c}' <= c <= '\U{1f}'
    || c == '\U{85}' || c == '\U{a0}' || c == '\U{1680}'
    || '\U{2000}' <= c <= '\U{200a}' || c == '\U{2028}' || c == '\U{2029}'
    || c == '\U{202f}' || c == '\U{205f}' || c == '\U{3000}'
  }

  predicate AllSpace(s: string)
  {
    forall i :: 0 <= i < |s| ==> IsSpace(s[i])
  }

  /** `s.strip()`: the text without its leading and trailing whitespace. */
  function Strip(s: string): (r: string)
    ensures |r| <= |s|
    ensures r == [] || (!IsSpace(r[0]) && !IsSpace(r[|r| - 1]))
    ensures r == [] <==> AllSpace(s)
  {
    if s == [] then []
    else if IsSpace(s[0]) then
      var r := Strip(s[1..]);
      assert AllSpace(s[1..]) ==> AllSpace(s) by {
        if AllSpace(s[1..]) {
          forall i | 0 < i < |s| ensures IsSpace(s[i]) { assert s[i] == s[1..][i - 1]; }
        }
      }
      r
    else if IsSpace(Last(s)) then
      var r := Strip(s[..|s| - 1]);
      assert !AllSpace(s[..|s| - 1]) by { assert s[..|s| - 1][0] == s[0]; }
      r
    else s
  }

  /** Leading whitespace in front of a text that does not start with
      whitespace is stripped. */
  lemma {:induction false} StripLeadingSpace(pre: string, r: string)
    requires AllSpace(pre) && r != [] && !IsSpace(r[0])
    ensures Strip(pre + r) == Strip(r)
    decreases |pre|
  {
    if pre != [] {
      var s := pre + r;
      assert s[0] == pre[0];
      assert s[1..] == pre[1..] + r;
      StripLeadingSpace(pre[1..], r);
    } else {
      assert pre + r == r;
    }
  }

  /** Trailing whitespace after a text whose ends are not whitespace is
      stripped. */
  lemma {:induction false} StripTrailingSpace(t: string, post: string)
    requires AllSpace(post) && t != [] && !IsSpace(t[0]) && !IsSpace(t[|t| - 1])
    ensures Strip(t + post) == t
    decreases |post|
  {
    var s := t + post;
    assert s[0] == t[0];
    if post != [] {
      assert s[|s| - 1] == post[|post| - 1];
      assert s[..|s| - 1] == t + post[..|post| - 1];
      StripTrailingSpace(t, post[..|post| - 1]);
    } else {
      assert s == t;
    }
  }

  /** Text made only of whitespace strips to nothing. */
  lemma StripBlank(pre: string, post: string)
    requires AllSpace(pre) && AllSpace(post)
    ensures Strip(pre + post) == []
  {
    var s := pre + post;
    forall i | 0 <= i < |s| ensures IsSpace(s[i]) {
      if i < |pre| { assert s[i] == pre[i]; } else { assert s[i] == post[i - |pre|]; }
    }
  }

  /** Whitespace on both sides of a non-empty text whose ends are not
      whitespace is stripped. */
  lemma StripAround(pre: string, t: string, post: string)
    requires AllSpace(pre) && AllSpace(post)
    requires t != [] && !IsSpace(t[0]) && !IsSpace(t[|t| - 1])
    ensures Strip(pre + (t + post)) == t
  {
    assert (t + post)[0] == t[0];
    StripTrailingSpace(t, post);
    StripLeadingSpace(pre, t + post);
  }

  /** Whitespace around a text whose ends are not whitespace is exactly
      what `Strip` removes. */
  lemma StripPadding(pre: string, t: string, post: string)
    requires AllSpace(pre) && AllSpace(post)
    requires t == [] || (!IsSpace(t[0]) && !IsSpace(t[|t| - 1]))
    ensures Strip(pre + t + post) == t
  {
    if t == [] {
      assert pre + t + post == pre + post;
      StripBlank(pre, post);
    } else {
      assert pre + t + post == pre + (t + post);
      StripAround(pre, t, post);
    }
  }

  predicate IsDigit(c: char)
  {
    '0' <= c <= '9'
  }

  predicate AllDigits(s: string)
  {
    forall i :: 0 <= i < |s| ==> IsDigit(s[i])
  }

  function DigitValue(c: char): nat
    requires IsDigit(c)
  {
    c as int - '0' as int
  }

  function DigitChar(d: nat): char
    requires d < 10
  {
    ('0' as int + d) as char
  }

  /** The value of a run of decimal digits, most significant first. */
  function DigitsValue(s: string): nat
    requires AllDigits(s)
  {
    if s == [] then 0 else DigitsValue(s[..|s| - 1]) * 10 + DigitValue(Last(s))
  }

  function Pow10(n: nat): (r: nat)
    ensures r >= 1
  {
    if n == 0 then 1 else 10 * Pow10(n - 1)
  }

  /** Index of the first '.' in `s`, or `|s|` when there is none. */
  function DotIndex(s: string): (k: nat)
    ensures k <= |s|
    ensures k < |s| ==> s[k] == '.'
    ensures forall i :: 0 <= i < k ==> s[i] != '.'
  {
    if s == [] then 0
    else if s[0] == '.' then 0
    else 1 + DotIndex(s[1..])
  }

  /** An unsigned decimal literal: digits, optionally a '.' and more digits,
      with at least one digit in all (so "5", "5.", ".5" but not "."). */
  function ParseUnsigned(s: string): Option<real>
  {
    var k := DotIndex(s);
    var whole := s[..k];
    var frac := if k < |s| then s[k + 1..] else [];
    if AllDigits(whole) && AllDigits(frac) && |whole| + |frac| > 0 then
      Some(DigitsValue(whole) as real + DigitsValue(frac) as real / Pow10(|frac|) as real)
    else None
  }

  /** `float(text)` on the decimal literals the model covers: an optional
      sign followed by an unsigned literal. */
  function ParseDecimal(s: string): Option<real>
  {
    if s != [] && (s[0] == '+' || s[0] == '-') then
      match ParseUnsigned(s[1..])
      case None => None
      case Some(x) => Some(if s[0] == '-' then -x else x)
    else ParseUnsigned(s)
  }

  /** `parse_number(value)`. */
  function ParseNumber(v: Amount): real
  {
    match v
    case Null => 0.0
    case Num(x) => x
    case Flag(b) => if b then 1.0 else 0.0
    case Str(s) =>
      var t := Strip(s);
      if t == [] then 0.0
      else (match ParseDecimal(t) case Some(x) => x case None => 0.0)
    case Other => 0.0
  }

  /** The normalisation policy: null, blank, unparsable and non-numeric
      values read as 0, numbers pass through unchanged, and text is read
      after trimming. */
  lemma ParseNumberPolicy(v: Amount)
    ensures v.Null? || v.Other? ==> ParseNumber(v) == 0.0
    ensures v.Num? ==> ParseNumber(v) == v.x
    ensures v.Flag? ==> ParseNumber(v) == if v.b then 1.0 else 0.0
    ensures v.Str? && AllSpace(v.s) ==> ParseNumber(v) == 0.0
    ensures v.Str? && ParseDecimal(Strip(v.s)).None? ==> ParseNumber(v) == 0.0
    ensures v.Str? && ParseDecimal(Strip(v.s)).Some? ==> ParseNumber(v) == ParseDecimal(Strip(v.s)).value
  {
  }

  /** Decimal text of a natural number, most significant digit first. */
  function NatText(n: nat): (t: string)
    ensures t != [] && AllDigits(t)
  {
    if n < 10 then [DigitChar(n)] else NatText(n / 10) + [DigitChar(n % 10)]
  }

  /** Decimal text of an integer, with a '-' when negative. */
  function IntText(n: int): string
  {
    if n < 0 then "-" + NatText(-n) else NatText(n)
  }

  lemma {:induction false} NatTextValue(n: nat)
    ensures DigitsValue(NatText(n)) == n
  {
    var t := NatText(n);
    if n >= 10 {
      NatTextValue(n / 10);
      assert t[..|t| - 1] == NatText(n / 10);
      assert DigitValue(Last(t)) == n % 10;
    }
  }

  lemma AllDigitsNoDot(s: string)
    requires AllDigits(s)
    ensures DotIndex(s) == |s|
  {
    if DotIndex(s) < |s| {
      assert IsDigit(s[DotIndex(s)]);
    }
  }

  /** Reading back the text of a whole number gives that number. */
  lemma {:induction false} ParseUnsignedNat(n: nat)
    ensures ParseUnsigned(NatText(n)) == Some(n as real)
  {
    var t := NatText(n);
    AllDigitsNoDot(t);
    assert t[..|t|] == t;
    NatTextValue(n);
  }

  /** Reading back "whole.frac" gives the whole part plus the fraction
      scaled by the number of fraction digits. */
  lemma {:induction false} ParseUnsignedFraction(whole: nat, frac: string)
    requires AllDigits(frac)
    ensures ParseUnsigned(NatText(whole) + "." + frac)
         == Some(whole as real + DigitsValue(frac) as real / Pow10(|frac|) as real)
  {
    var w := NatText(whole);
    var s := w + "." + frac;
    AllDigitsNoDot(w);
    assert DotIndex(s) == |w| by {
      assert s == w + ("." + frac);
      DotIndexPrefix(w, "." + frac);
    }
    assert s[..|w|] == w;
    assert s[|w| + 1..] == frac;
    NatTextValue(whole);
  }

  lemma {:induction false} DotIndexPrefix(w: string, rest: string)
    requires DotIndex(w) == |w|
    requires rest != [] && rest[0] == '.'
    ensures DotIndex(w + rest) == |w|
    decreases |w|
  {
    if w != [] {
      assert (w + rest)[1..] == w[1..] + rest;
      assert w[0] != '.';
      DotIndexPrefix(w[1..], rest);
    } else {
      assert w + rest == rest;
    }
  }

  /** Round trip: the text of any integer, padded with any whitespace,
      normalises back to that integer. */
  lemma {:induction false} ParseNumberIntText(pre: string, n: int, post: string)
    requires AllSpace(pre) && AllSpace(post)
    ensures ParseNumber(Str(pre + IntText(n) + post)) == n as real
  {
    var t := IntText(n);
    var m: nat := if n < 0 then -n else n;
    ParseUnsignedNat(m);
    var digits := NatText(m);
    assert t[|t| - 1] == digits[|digits| - 1];
    assert IsDigit(t[|t| - 1]);
    if n < 0 {
      assert t[0] == '-' && t[1..] == digits;
      assert ParseDecimal(t) == Some(n as real);
    } else {
      assert t == digits && IsDigit(t[0]);
      ParseDecimalUnsigned(t);
    }
    ParseNumberPadded(pre, t, post, n as real);
  }

  /** The text "whole.frac" of a fixed-point amount, as the service
      writes `contractSum` ("1500.00"). */
  function FractionText(whole: nat, frac: string): string
  {
    NatText(whole) + "." + frac
  }

  /** Round trip for text with a fraction, padded with any whitespace. */
  lemma {:induction false} ParseNumberFractionText(pre: string, whole: nat, frac: string, post: string)
    requires AllSpace(pre) && AllSpace(post) && AllDigits(frac) && frac != []
    ensures ParseNumber(Str(pre + FractionText(whole, frac) + post))
         == whole as real + DigitsValue(frac) as real / Pow10(|frac|) as real
  {
    var t := FractionText(whole, frac);
    FractionTextDigitEnds(whole, frac);
    ParseDecimalFraction(whole, frac);
    ParseNumberPadded(pre, t, post, whole as real + DigitsValue(frac) as real / Pow10(|frac|) as real);
  }

  lemma FractionTextDigitEnds(whole: nat, frac: string)
    requires AllDigits(frac) && frac != []
    ensures var t := FractionText(whole, frac);
      t != [] && IsDigit(t[0]) && IsDigit(t[|t| - 1]) && !IsSpace(t[0]) && !IsSpace(t[|t| - 1])
  {
    var t := FractionText(whole, frac);
    assert t[0] == NatText(whole)[0];
    assert t[|t| - 1] == frac[|frac| - 1];
  }

  /** "whole.frac" reads as the whole part plus the scaled fraction. */
  lemma ParseDecimalFraction(whole: nat, frac: string)
    requires AllDigits(frac) && frac != []
    ensures ParseDecimal(FractionText(whole, frac))
         == Some(whole as real + DigitsValue(frac) as real / Pow10(|frac|) as real)
  {
    FractionTextDigitEnds(whole, frac);
    ParseDecimalUnsigned(FractionText(whole, frac));
    ParseUnsignedFraction(whole, frac);
  }

  /** `parse_number` on text that reads as `x` once the whitespace around
      it is stripped. */
  lemma ParseNumberPadded(pre: string, t: string, post: string, x: real)
    requires AllSpace(pre) && AllSpace(post)
    requires t != [] && !IsSpace(t[0]) && !IsSpace(t[|t| - 1])
    requires ParseDecimal(t) == Some(x)
    ensures ParseNumber(Str(pre + t + post)) == x
  {
    StripPadding(pre, t, post);
  }

  /** Text starting with a digit has no sign to read. */
  lemma ParseDecimalUnsigned(t: string)
    requires t != [] && IsDigit(t[0])
    ensures ParseDecimal(t) == ParseUnsigned(t)
  {
  }
}
