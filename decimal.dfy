/**
 * The numeric literals of an instruction ("0.5", "200", "4.1"): unsigned
 * base-10 numbers with an optional fractional part, read exactly as reals.
 */
module Decimal {
  import opened Wrappers

  predicate IsDigit(c: char) {
    '0' <= c <= '9'
  }

  function DigitValue(c: char): (d: nat)
    requires IsDigit(c)
    ensures d < 10
  {
    c as int - '0' as int
  }

  function DigitChar(d: nat): (c: char)
    requires d < 10
    ensures IsDigit(c) && DigitValue(c) == d
  {
    ('0' as int + d) as char
  }

  predicate AllDigits(s: string) {
    forall i :: 0 <= i < |s| ==> IsDigit(s[i])
  }

  /** The value of a string of digits, most significant first. */
  function DigitsValue(s: string): nat
    requires AllDigits(s)
  {
    if s == [] then 0 else DigitsValue(s[..|s| - 1]) * 10 + DigitValue(s[|s| - 1])
  }

  function Pow10(k: nat): (p: nat)
    ensures p >= 1
  {
    if k == 0 then 1 else 10 * Pow10(k - 1)
  }

  /** Index of the first '.' in `s`, or `|s|` when there is none. */
  function DotIndex(s: string): (k: nat)
    ensures k <= |s|
    ensures k < |s| ==> s[k] == '.'
    ensures forall i :: 0 <= i < k ==> s[i] != '.'
  {
    if s == [] || s[0] == '.' then 0 else 1 + DotIndex(s[1..])
  }

  /**
   * The literals accepted, described character by character: non-empty,
   * only digits and at most one point, and at least one digit.
   */
  predicate IsLiteral(s: string) {
    && (forall i :: 0 <= i < |s| ==> IsDigit(s[i]) || s[i] == '.')
    && (forall i, j :: 0 <= i < j < |s| && s[i] == '.' ==> s[j] != '.')
    && (exists i :: 0 <= i < |s| && IsDigit(s[i]))
  }

  /** The number `whole.frac`: the digits before the point plus those after it scaled by a power of ten. */
  function PointValue(whole: string, frac: string): (x: real)
    requires AllDigits(whole) && AllDigits(frac)
    ensures x >= DigitsValue(whole) as real
  {
    DigitsValue(whole) as real + DigitsValue(frac) as real / Pow10(|frac|) as real
  }

  /**
   * Reads a literal as `float()` reads an unsigned decimal of digits and
   * at most one point; signs, exponents and `_` digit separators are not
   * literals here.
   */
  function Parse(s: string): (r: Option<real>)
    ensures r.Some? <==> IsLiteral(s)
    ensures r.Some? ==> r.value >= 0.0
  {
    var k := DotIndex(s);
    var whole := s[..k];
    var frac := if k < |s| then s[k + 1..] else "";
    LiteralParts(s);
    if AllDigits(whole) && AllDigits(frac) && |whole| + |frac| > 0 then
      Some(PointValue(whole, frac))
    else
      None
  }

  /** The split at the first point describes exactly the literals `IsLiteral` admits. */
  lemma LiteralParts(s: string)
    ensures var k := DotIndex(s);
            var whole := s[..k];
            var frac := if k < |s| then s[k + 1..] else "";
            (AllDigits(whole) && AllDigits(frac) && |whole| + |frac| > 0) <==> IsLiteral(s)
  {
    var k := DotIndex(s);
    var whole := s[..k];
    var frac := if k < |s| then s[k + 1..] else "";
    if AllDigits(whole) && AllDigits(frac) && |whole| + |frac| > 0 {
      PartsMakeLiteral(s);
    }
    if IsLiteral(s) {
      LiteralMakesParts(s);
    }
  }

  lemma PartsMakeLiteral(s: string)
    requires var k := DotIndex(s);
             var frac := if k < |s| then s[k + 1..] else "";
             AllDigits(s[..k]) && AllDigits(frac) && k + |frac| > 0
    ensures IsLiteral(s)
  {
    var k := DotIndex(s);
    var whole := s[..k];
    var frac := if k < |s| then s[k + 1..] else "";
    forall i | 0 <= i < |s| ensures IsDigit(s[i]) || s[i] == '.' {
      if i < k { assert s[i] == whole[i]; }
      else if i > k { assert s[i] == frac[i - k - 1]; }
    }
    if |whole| > 0 { assert IsDigit(s[0]); } else { assert IsDigit(s[k + 1]) by { assert s[k + 1] == frac[0]; } }
  }

  lemma LiteralMakesParts(s: string)
    requires IsLiteral(s)
    ensures var k := DotIndex(s);
            var frac := if k < |s| then s[k + 1..] else "";
            AllDigits(s[..k]) && AllDigits(frac) && k + |frac| > 0
  {
    var k := DotIndex(s);
    var whole := s[..k];
    var frac := if k < |s| then s[k + 1..] else "";
    forall i | 0 <= i < |whole| ensures IsDigit(whole[i]) { assert whole[i] == s[i]; }
    forall i | 0 <= i < |frac| ensures IsDigit(frac[i]) { assert frac[i] == s[k + 1 + i]; }
    var j :| 0 <= j < |s| && IsDigit(s[j]);
    if j < k { assert |whole| > 0; } else { assert j > k; assert |frac| > 0; }
  }

  /** The decimal spelling of a natural number, as Python's `str()` of an int writes it. */
  function ShowNat(n: nat): (s: string)
    ensures |s| > 0 && AllDigits(s)
  {
    if n < 10 then [DigitChar(n)] else ShowNat(n / 10) + [DigitChar(n % 10)]
  }

  lemma {:induction false} DigitsValueShowNat(n: nat)
    ensures DigitsValue(ShowNat(n)) == n
  {
    if n >= 10 {
      var s := ShowNat(n);
      assert s[..|s| - 1] == ShowNat(n / 10);
      DigitsValueShowNat(n / 10);
    }
  }

  /** Every natural number written in decimal reads back as itself. */
  lemma ParseShowNat(n: nat)
    ensures Parse(ShowNat(n)) == Some(n as real)
  {
    ParseWhole(ShowNat(n));
    DigitsValueShowNat(n);
  }

  /** A run of digits reads as the number it spells. */
  lemma ParseWhole(w: string)
    requires |w| > 0 && AllDigits(w)
    ensures Parse(w) == Some(DigitsValue(w) as real)
  {
    assert PointValue(w, "") == DigitsValue(w) as real;
    assert forall i :: 0 <= i < |w| ==> w[i] != '.' by {
      forall i | 0 <= i < |w| ensures w[i] != '.' { assert IsDigit(w[i]); }
    }
    assert DotIndex(w) == |w|;
    assert w[..|w|] == w;
  }

  /** `w.f` reads as the whole part `w` plus `f` tenths, hundredths, ... */
  lemma ParsePointed(w: string, f: string)
    requires AllDigits(w) && AllDigits(f) && |w| + |f| > 0
    ensures Parse(w + "." + f) == Some(PointValue(w, f))
  {
    var s := w + "." + f;
    assert forall i :: 0 <= i < |w| ==> s[i] != '.' by {
      forall i | 0 <= i < |w| ensures s[i] != '.' { assert s[i] == w[i] && IsDigit(w[i]); }
    }
    assert s[|w|] == '.';
    assert DotIndex(s) == |w|;
    assert s[..|w|] == w && s[|w| + 1..] == f;
  }

  /** A literal is a single word: it holds no space and is not a keyword of the grammar. */
  lemma LiteralIsNotKeyword(s: string)
    requires IsLiteral(s)
    ensures |s| > 0 && s != "for" && s != "until" && s != "at"
    ensures forall i :: 0 <= i < |s| ==> s[i] != ' ' && s[i] != '\t' && s[i] != '\n' && s[i] != '\r'
  {
    var j :| 0 <= j < |s| && IsDigit(s[j]);
    assert IsDigit(s[0]) || s[0] == '.';
  }
}
