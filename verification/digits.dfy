/** Small shared vocabulary: an optional value, decimal digit characters and
    the input normalisation that strips every character that is not 0-9. */
module Optional {

  /** A value that may be missing; stands for a PHP `null` argument or a
      table lookup that found nothing. */
  datatype Option<+T> = None | Some(value: T)
}

module Digits {

  /** One of the ASCII characters '0'..'9' (the `[0-9]` class of the source). */
  predicate IsDigit(c: char) {
    '0' <= c <= '9'
  }

  /** Every character of `s` is a decimal digit (the empty string included). */
  predicate AllDigits(s: string) {
    forall k :: 0 <= k < |s| ==> IsDigit(s[k])
  }

  /** The value of one character under a PHP `(int)` cast: the digit's value
      for '0'..'9', and 0 for any other character. */
  function DigitValue(c: char): (d: nat)
    ensures d <= 9
    ensures IsDigit(c) ==> d as int == c as int - '0' as int
    ensures !IsDigit(c) ==> d == 0
  {
    if IsDigit(c) then c as int - '0' as int else 0
  }

  /** The character that displays digit `d`. */
  function DigitChar(d: nat): (c: char)
    requires d <= 9
    ensures IsDigit(c) && DigitValue(c) == d
  {
    ('0' as int + d) as char
  }

  /** The decimal value of a digit string read left to right. */
  function NumberValue(s: string): (v: nat)
  {
    if |s| == 0 then 0 else NumberValue(s[..|s| - 1]) * 10 + DigitValue(s[|s| - 1])
  }

  /** Leading zeros do not change the value, so PHP's numeric comparison of
      "09" and "9" sees equal numbers. */
  lemma {:induction false} LeadingZeroValue(s: string)
    ensures NumberValue(['0'] + s) == NumberValue(s)
    decreases |s|
  {
    if |s| > 0 {
      assert (['0'] + s)[..|s|] == ['0'] + s[..|s| - 1];
      LeadingZeroValue(s[..|s| - 1]);
    } else {
      assert (['0'] + s)[..0] == [];
    }
  }

  /** Removes every character that is not '0'..'9', keeping the digits in
      their original order (`preg_replace('/[^0-9]/', '', $number)`). */
  function Normalize(s: string): (r: string)
    ensures AllDigits(r)
    ensures |r| <= |s|
    ensures AllDigits(s) ==> r == s
    ensures forall c :: IsDigit(c) ==> multiset(r)[c] == multiset(s)[c]
    ensures forall c :: !IsDigit(c) ==> c !in r
  {
    if |s| == 0 then []
    else
      var rest := Normalize(s[1..]);
      assert s == [s[0]] + s[1..];
      if IsDigit(s[0]) then [s[0]] + rest else rest
  }

  /** Normalisation distributes over concatenation: the digits of `a + b` are
      the digits of `a` followed by the digits of `b`. Together with the
      single-character cases this pins down the output, order included. */
  lemma {:induction false} NormalizeConcat(a: string, b: string)
    ensures Normalize(a + b) == Normalize(a) + Normalize(b)
  {
    if |a| == 0 {
      assert a + b == b;
    } else {
      assert (a + b)[1..] == a[1..] + b;
      NormalizeConcat(a[1..], b);
    }
  }

  /** Normalising twice gives the same string as normalising once. */
  lemma NormalizeIdempotent(s: string)
    ensures Normalize(Normalize(s)) == Normalize(s)
    ensures AllDigits(Normalize(s))
  {
  }

  /** A digit string normalises to itself and one without digits to the
      empty string. */
  lemma NormalizeFixedPoints(s: string)
    ensures AllDigits(s) ==> Normalize(s) == s
    ensures (forall k :: 0 <= k < |s| ==> !IsDigit(s[k])) ==> Normalize(s) == []
  {
  }
}
