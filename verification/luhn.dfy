/** The mod-10 check-digit algorithm of ISO/IEC 7812-1 (Annex B), as the
    source computes it: two 1-indexed stride-2 passes whose starting position
    depends on the parity of the length, proved equal to the usual
    right-to-left definition. */
module Luhn {
  import opened Digits

  /** The contribution of a digit that is doubled: 2d, or 2d - 9 when 2d is
      ten or more (the sum of the digits of 2d). */
  function Doubled(d: nat): (r: nat)
    requires d <= 9
    ensures r <= 9
  {
    if 2 * d < 10 then 2 * d else 2 * d - 9
  }

  /** Right-to-left Luhn sum of `s` when its rightmost character is added
      as-is and the characters leftwards alternate doubled, undoubled, ... */
  function LuhnSum(s: string): (sum: nat)
  {
    if |s| == 0 then 0 else DigitValue(s[|s| - 1]) + LuhnSumShifted(s[..|s| - 1])
  }

  /** The same sum when the rightmost character is the doubled one. */
  function LuhnSumShifted(s: string): (sum: nat)
  {
    if |s| == 0 then 0 else Doubled(DigitValue(s[|s| - 1])) + LuhnSum(s[..|s| - 1])
  }

  /** A number passes the Luhn check when its Luhn sum is a multiple of 10. */
  predicate LuhnValid(s: string) {
    LuhnSum(s) % 10 == 0
  }

  /** Sum of the characters among the first `k` of `s` that the first pass
      of the source adds as-is: those at an even distance from the end. */
  ghost function UndoubledPrefix(s: string, k: nat): (sum: nat)
    requires k <= |s|
  {
    if k == 0 then 0
    else UndoubledPrefix(s, k - 1) + (if (|s| - k) % 2 == 0 then DigitValue(s[k - 1]) else 0)
  }

  /** Sum of the characters among the first `k` of `s` that the second pass
      of the source doubles: those at an odd distance from the end. */
  ghost function DoubledPrefix(s: string, k: nat): (sum: nat)
    requires k <= |s|
  {
    if k == 0 then 0
    else DoubledPrefix(s, k - 1) + (if (|s| - k) % 2 == 1 then Doubled(DigitValue(s[k - 1])) else 0)
  }

  /** The two left-to-right partial sums over a prefix add up to the
      right-to-left sum of that prefix, whose rightmost character is doubled
      or not according to its distance from the end of the whole string. */
  lemma {:induction false} PrefixSumsAgree(s: string, k: nat)
    requires k <= |s|
    ensures UndoubledPrefix(s, k) + DoubledPrefix(s, k)
         == if (|s| - k) % 2 == 0 then LuhnSum(s[..k]) else LuhnSumShifted(s[..k])
  {
    if k > 0 {
      PrefixSumsAgree(s, k - 1);
      assert s[..k][..k - 1] == s[..k - 1];
      assert s[..k][k - 1] == s[k - 1];
    }
  }

  function Min(a: int, b: int): (m: int) {
    if a <= b then a else b
  }

  /** One step of the first pass: position `i` (1-indexed) is added as-is and
      position `i + 1`, when it exists, belongs to the second pass. */
  lemma UndoubledStep(s: string, i: nat)
    requires 1 <= i <= |s| && (|s| - i) % 2 == 0
    ensures UndoubledPrefix(s, Min(i + 1, |s|)) == UndoubledPrefix(s, i - 1) + DigitValue(s[i - 1])
  {
    if i < |s| {
      assert UndoubledPrefix(s, i + 1) == UndoubledPrefix(s, i);
    }
  }

  /** One step of the second pass: position `i` is doubled and position
      `i + 1` belongs to the first pass. */
  lemma DoubledStep(s: string, i: nat)
    requires 1 <= i < |s| && (|s| - i) % 2 == 1
    ensures DoubledPrefix(s, i + 1) == DoubledPrefix(s, i - 1) + Doubled(DigitValue(s[i - 1]))
  {
    assert DoubledPrefix(s, i + 1) == DoubledPrefix(s, i);
  }

  /** The first loop of `checkLuhn`: adds, unchanged, the characters at
      1-indexed positions 2 - (n mod 2), 4 - (n mod 2), ..., that is those
      at an even distance from the end. */
  method UndoubledPass(number: string) returns (checksum: nat)
    ensures checksum == UndoubledPrefix(number, |number|)
  {
    var n := |number|;
    checksum := 0;
    var i := 2 - n % 2;
    while i <= n
      invariant 1 <= i <= n + 2
      invariant (n - i) % 2 == 0
      invariant checksum == UndoubledPrefix(number, Min(i - 1, n))
    {
      UndoubledStep(number, i);
      checksum := checksum + DigitValue(number[i - 1]);
      i := i + 2;
    }
  }

  /** The second loop of `checkLuhn`: continues from `start` by adding the
      characters at positions (n mod 2) + 1, (n mod 2) + 3, ..., those at an
      odd distance from the end, doubled (2d, or 2d - 9 from ten on). */
  method DoubledPass(number: string, start: nat) returns (checksum: nat)
    ensures checksum == start + DoubledPrefix(number, |number|)
  {
    var n := |number|;
    checksum := start;
    var i := n % 2 + 1;
    while i < n
      invariant 1 <= i <= n + 1
      invariant (n - i) % 2 == 1
      invariant checksum == start + DoubledPrefix(number, i - 1)
    {
      DoubledStep(number, i);
      var digit := DigitValue(number[i - 1]) * 2;
      if digit < 10 {
        checksum := checksum + digit;
      } else {
        checksum := checksum + (digit - 9);
      }
      assert checksum == start + DoubledPrefix(number, i + 1);
      i := i + 2;
    }
  }

  /** `checkLuhn`: the two passes accumulate one checksum, accepted when it
      is a multiple of 10. The result is exactly the right-to-left Luhn
      check, whatever the parity of the length. */
  method CheckLuhn(number: string) returns (ok: bool)
    ensures ok <==> LuhnValid(number)
    ensures ok <==> LuhnSum(number) % 10 == 0
  {
    var checksum := UndoubledPass(number);
    checksum := DoubledPass(number, checksum);
    PrefixSumsAgree(number, |number|);
    assert number[..|number|] == number;
    ok := checksum % 10 == 0;
  }

  /** A leading zero changes neither sum: the check gives the same verdict
      for odd and even lengths once zero-padded on the left. */
  lemma {:induction false} LeadingZeroNeutral(s: string)
    ensures LuhnSum(['0'] + s) == LuhnSum(s)
    ensures LuhnSumShifted(['0'] + s) == LuhnSumShifted(s)
    ensures LuhnValid(['0'] + s) <==> LuhnValid(s)
  {
    if |s| > 0 {
      var t := ['0'] + s;
      assert t[..|t| - 1] == ['0'] + s[..|s| - 1];
      assert t[|t| - 1] == s[|s| - 1];
      LeadingZeroNeutral(s[..|s| - 1]);
    } else {
      assert ['0'] + s == ['0'];
      assert ['0'][..0] == [];
    }
  }

  /** Appending a character adds its value, undoubled, to the doubled-from-
      the-right sum of everything before it, and doubled to the other sum. */
  lemma AppendDigit(p: string, c: char)
    ensures LuhnSum(p + [c]) == DigitValue(c) + LuhnSumShifted(p)
    ensures LuhnSumShifted(p + [c]) == Doubled(DigitValue(c)) + LuhnSum(p)
  {
    assert (p + [c])[..|p|] == p;
  }

  /** Adding a digit value `a` to `v` gives a multiple of 10 exactly when
      `a` is the complement of `v` modulo 10. */
  lemma ComplementDigit(v: nat, a: nat)
    requires a <= 9
    ensures (a + v) % 10 == 0 <==> a == (10 - v % 10) % 10
  {
    var q, r := v / 10, v % 10;
    assert v == 10 * q + r;
    assert a + v == 10 * q + (a + r);
  }

  /** The check digit that completes `p`. */
  function CheckDigit(p: string): (c: char)
    ensures IsDigit(c) && LuhnValid(p + [c])
    ensures forall d :: IsDigit(d) && LuhnValid(p + [d]) ==> d == c
  {
    var v := LuhnSumShifted(p);
    var c := DigitChar((10 - v % 10) % 10);
    AppendDigit(p, c);
    ComplementDigit(v, DigitValue(c));
    forall d | IsDigit(d) && LuhnValid(p + [d])
      ensures d == c
    {
      AppendDigit(p, d);
      ComplementDigit(v, DigitValue(d));
    }
    c
  }

  /** For any prefix exactly one digit '0'..'9' makes the whole string pass,
      because the last character is always added undoubled. */
  lemma UniqueCheckDigit(p: string)
    ensures exists c :: IsDigit(c) && LuhnValid(p + [c])
    ensures forall c, d :: IsDigit(c) && IsDigit(d) && LuhnValid(p + [c]) && LuhnValid(p + [d]) ==> c == d
  {
    var c := CheckDigit(p);
  }

  /** `prefix` padded with zeros to one short of `len` and completed with
      its check digit. */
  function Completed(prefix: string, len: nat): (s: string)
    requires AllDigits(prefix) && |prefix| < len
    ensures |s| == len && AllDigits(s) && s[..|prefix|] == prefix && LuhnValid(s)
  {
    var body := prefix + seq(len - 1 - |prefix|, _ => '0');
    assert body[..|prefix|] == prefix;
    body + [CheckDigit(body)]
  }

  /** Whether `p` spells the first 15 digits of the reference vector. */
  predicate IsReferencePrefix(p: string) {
    |p| == 15 && p[0] == '4' && p[1] == '5' && p[2] == '3' && p[3] == '2' && p[4] == '0' && p[5] == '1' && p[6] == '5' && p[7] == '1' && p[8] == '1' && p[9] == '2' && p[10] == '8' && p[11] == '3' && p[12] == '0' && p[13] == '3' && p[14] == '6'
  }

  /** Extending a prefix of `p` by one character, in the terms of
      `AppendDigit`. */
  lemma PrefixStep(p: string, k: nat)
    requires k < |p|
    ensures LuhnSum(p[..k + 1]) == DigitValue(p[k]) + LuhnSumShifted(p[..k])
    ensures LuhnSumShifted(p[..k + 1]) == Doubled(DigitValue(p[k])) + LuhnSum(p[..k])
  {
    assert p[..k] + [p[k]] == p[..k + 1];
    AppendDigit(p[..k], p[k]);
  }

  /** Both Luhn sums of the first five digits of the reference vector,
      worked out one appended digit at a time. */
  lemma ReferenceSums5(p: string)
    requires IsReferencePrefix(p)
    ensures LuhnSum(p[..5]) == 12 && LuhnSumShifted(p[..5]) == 21
  {
    assert p[..0] == [];
    PrefixStep(p, 0);
    assert LuhnSum(p[..1]) == 4 && LuhnSumShifted(p[..1]) == 8;
    PrefixStep(p, 1);
    assert LuhnSum(p[..2]) == 13 && LuhnSumShifted(p[..2]) == 5;
    PrefixStep(p, 2);
    assert LuhnSum(p[..3]) == 8 && LuhnSumShifted(p[..3]) == 19;
    PrefixStep(p, 3);
    assert LuhnSum(p[..4]) == 21 && LuhnSumShifted(p[..4]) == 12;
    PrefixStep(p, 4);
    assert LuhnSum(p[..5]) == 12 && LuhnSumShifted(p[..5]) == 21;
  }

  /** The same for the first ten digits. */
  lemma ReferenceSums10(p: string)
    requires IsReferencePrefix(p)
    ensures LuhnSum(p[..10]) == 28 && LuhnSumShifted(p[..10]) == 26
  {
    ReferenceSums5(p);
    PrefixStep(p, 5);
    assert LuhnSum(p[..6]) == 22 && LuhnSumShifted(p[..6]) == 14;
    PrefixStep(p, 6);
    assert LuhnSum(p[..7]) == 19 && LuhnSumShifted(p[..7]) == 23;
    PrefixStep(p, 7);
    assert LuhnSum(p[..8]) == 24 && LuhnSumShifted(p[..8]) == 21;
    PrefixStep(p, 8);
    assert LuhnSum(p[..9]) == 22 && LuhnSumShifted(p[..9]) == 26;
    PrefixStep(p, 9);
    assert LuhnSum(p[..10]) == 28 && LuhnSumShifted(p[..10]) == 26;
  }

  /** The Luhn sum, doubled from the right, of the first 15 digits of the
      reference vector. */
  lemma ReferencePrefixSum(p: string)
    requires IsReferencePrefix(p)
    ensures LuhnSumShifted(p) == 44
  {
    ReferenceSums10(p);
    PrefixStep(p, 10);
    assert LuhnSum(p[..11]) == 34 && LuhnSumShifted(p[..11]) == 35;
    PrefixStep(p, 11);
    assert LuhnSum(p[..12]) == 38 && LuhnSumShifted(p[..12]) == 40;
    PrefixStep(p, 12);
    assert LuhnSum(p[..13]) == 40 && LuhnSumShifted(p[..13]) == 38;
    PrefixStep(p, 13);
    assert LuhnSum(p[..14]) == 41 && LuhnSumShifted(p[..14]) == 46;
    PrefixStep(p, 14);
    assert LuhnSum(p[..15]) == 52 && LuhnSumShifted(p[..15]) == 44;
    assert p[..15] == p;
  }

  /** The reference vector: a 16-digit Visa number that passes and the same
      number with its last digit changed, which fails. */
  lemma KnownVectors()
    ensures LuhnValid("4532015112830366")
    ensures !LuhnValid("4532015112830367")
  {
    var p := "453201511283036";
    ReferencePrefixSum(p);
    AppendDigit(p, '6');
    AppendDigit(p, '7');
    assert p + ['6'] == "4532015112830366";
    assert p + ['7'] == "4532015112830367";
  }
}
