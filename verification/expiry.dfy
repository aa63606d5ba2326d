/** `isValidDate`: the expiry check on a year and a month given as text,
    against a current year and month supplied by the caller in place of
    the wall clock. */
module Expiry {
  import opened Digits

  /** `str_pad($s, $width, $pad, STR_PAD_LEFT)`: `pad` characters are put
      in front of `s` until it is `width` long; a longer `s` is unchanged. */
  function PadLeft(s: string, width: nat, pad: char): (r: string)
    ensures |s| >= width ==> r == s
    ensures |s| < width ==> |r| == width
    ensures |r| >= |s| && r[|r| - |s|..] == s
    ensures forall k :: 0 <= k < |r| - |s| ==> r[k] == pad
    decreases width - |s|
  {
    if |s| >= width then s else PadLeft([pad] + s, width, pad)
  }

  /** The year pattern `20\d\d`: four characters, "20" and two digits. */
  predicate IsExpiryYear(y: string) {
    |y| == 4 && y[0] == '2' && y[1] == '0' && IsDigit(y[2]) && IsDigit(y[3])
  }

  /** The month pattern `0[1-9]|1[0-2]`, matched against the whole text. */
  predicate IsExpiryMonth(m: string) {
    && |m| == 2
    && ((m[0] == '0' && '1' <= m[1] <= '9') || (m[0] == '1' && '0' <= m[1] <= '2'))
  }

  /** Months counted from year 0: orders (year, month) pairs as the
      calendar does when the month lies in 1..12. */
  function MonthIndex(year: int, month: int): (n: int) {
    year * 12 + month - 1
  }

  /** `isValidDate`: after padding the month to two characters, the year
      must be 20dd, the month 01..12, and the pair must not lie before the
      current year and month. The source compares the digit strings with
      PHP's numeric comparison, which is the comparison of their values. */
  function IsValidDate(year: string, month: string, curYear: int, curMonth: int): (ok: bool)
    requires 1 <= curMonth <= 12
    ensures ok ==> IsExpiryYear(year) && 2000 <= NumberValue(year) <= 2099
    ensures ok ==> var m := PadLeft(month, 2, '0');
                   IsExpiryMonth(m) && 1 <= NumberValue(m) <= 12
                   && MonthIndex(NumberValue(year), NumberValue(m)) >= MonthIndex(curYear, curMonth)
    ensures var m := PadLeft(month, 2, '0');
            (IsExpiryYear(year) && IsExpiryMonth(m)
             && MonthIndex(NumberValue(year), NumberValue(m)) >= MonthIndex(curYear, curMonth)) ==> ok
  {
    var m := PadLeft(month, 2, '0');
    ExpiryFieldValues(year, m);
    if !IsExpiryYear(year) then false
    else if !IsExpiryMonth(m) then false
    else if NumberValue(year) < curYear || (NumberValue(year) == curYear && NumberValue(m) < curMonth) then false
    else true
  }

  /** The value of a two-character digit string. */
  lemma TwoDigitValue(s: string)
    requires |s| == 2
    ensures NumberValue(s) == DigitValue(s[0]) * 10 + DigitValue(s[1])
  {
    assert NumberValue(s[..1]) == DigitValue(s[0]) by {
      assert s[..1][..0] == [];
    }
  }

  /** The value of a four-character digit string. */
  lemma FourDigitValue(s: string)
    requires |s| == 4
    ensures NumberValue(s) == DigitValue(s[0]) * 1000 + DigitValue(s[1]) * 100 + DigitValue(s[2]) * 10 + DigitValue(s[3])
  {
    TwoDigitValue(s[..2]);
    assert s[..3][..2] == s[..2];
    assert NumberValue(s[..3]) == NumberValue(s[..2]) * 10 + DigitValue(s[2]);
  }

  /** Text accepted by the two patterns denotes a year of this century and
      a calendar month. */
  lemma ExpiryFieldValues(year: string, m: string)
    ensures IsExpiryYear(year) ==> 2000 <= NumberValue(year) <= 2099
    ensures IsExpiryMonth(m) ==> 1 <= NumberValue(m) <= 12
  {
    if IsExpiryYear(year) {
      FourDigitValue(year);
    }
    if IsExpiryMonth(m) {
      TwoDigitValue(m);
    }
  }

  /** The four-digit text of a year in 2000..2099. */
  function YearText(y: nat): (t: string)
    requires 2000 <= y <= 2099
    ensures IsExpiryYear(t) && NumberValue(t) == y
  {
    var t := "20" + [DigitChar((y - 2000) / 10), DigitChar(y % 10)];
    FourDigitValue(t);
    t
  }

  /** The two-digit text of a month in 1..12, zero-padded. */
  function MonthText(m: nat): (t: string)
    requires 1 <= m <= 12
    ensures IsExpiryMonth(t) && NumberValue(t) == m
  {
    var t := [DigitChar(m / 10), DigitChar(m % 10)];
    TwoDigitValue(t);
    t
  }

  /** Every text the year pattern accepts is the canonical text of its own
      value, and every text the month pattern accepts is the zero-padded
      text of its own value. */
  lemma ExpiryTextRoundTrip(year: string, month: string)
    ensures IsExpiryYear(year) ==> 2000 <= NumberValue(year) <= 2099 && YearText(NumberValue(year)) == year
    ensures IsExpiryMonth(month) ==> 1 <= NumberValue(month) <= 12 && MonthText(NumberValue(month)) == month
  {
    if IsExpiryYear(year) {
      YearRoundTrip(year);
    }
    if IsExpiryMonth(month) {
      MonthRoundTrip(month);
    }
  }

  /** A digit character is spelled back from its value. */
  lemma DigitCharOfValue(c: char)
    requires IsDigit(c)
    ensures DigitChar(DigitValue(c)) == c
  {
  }

  /** The year half of `ExpiryTextRoundTrip`. */
  lemma YearRoundTrip(year: string)
    requires IsExpiryYear(year)
    ensures 2000 <= NumberValue(year) <= 2099 && YearText(NumberValue(year)) == year
  {
    FourDigitValue(year);
    var d2, d3 := DigitValue(year[2]), DigitValue(year[3]);
    assert NumberValue(year) == 2000 + d2 * 10 + d3;
    assert (NumberValue(year) - 2000) / 10 == d2 && NumberValue(year) % 10 == d3;
    DigitCharOfValue(year[2]);
    DigitCharOfValue(year[3]);
  }

  /** The month half of `ExpiryTextRoundTrip`. */
  lemma MonthRoundTrip(month: string)
    requires IsExpiryMonth(month)
    ensures 1 <= NumberValue(month) <= 12 && MonthText(NumberValue(month)) == month
  {
    TwoDigitValue(month);
    var d0, d1 := DigitValue(month[0]), DigitValue(month[1]);
    assert NumberValue(month) == d0 * 10 + d1;
    assert NumberValue(month) / 10 == d0 && NumberValue(month) % 10 == d1;
    DigitCharOfValue(month[0]);
    DigitCharOfValue(month[1]);
  }

  /** For well-formed text the verdict is exactly the calendar comparison:
      an expiry (y, m) is accepted iff it is the current month or later. */
  lemma AcceptedIffNotPast(y: nat, m: nat, curYear: int, curMonth: int)
    requires 2000 <= y <= 2099 && 1 <= m <= 12 && 1 <= curMonth <= 12
    ensures IsValidDate(YearText(y), MonthText(m), curYear, curMonth)
        <==> MonthIndex(y, m) >= MonthIndex(curYear, curMonth)
  {
  }

  /** The current month is still valid; the month before it is not. */
  lemma CurrentMonthAccepted(y: nat, m: nat)
    requires 2000 <= y <= 2099 && 1 <= m <= 12
    ensures IsValidDate(YearText(y), MonthText(m), y, m)
    ensures m < 12 ==> !IsValidDate(YearText(y), MonthText(m), y, m + 1)
    ensures y < 2099 ==> !IsValidDate(YearText(y), MonthText(m), y + 1, m)
  {
    AcceptedIffNotPast(y, m, y, m);
    if m < 12 {
      AcceptedIffNotPast(y, m, y, m + 1);
    }
    if y < 2099 {
      AcceptedIffNotPast(y, m, y + 1, m);
    }
  }

  /** A one-digit month is read as its zero-padded form. */
  lemma SingleDigitMonthPadded(year: string, c: char, curYear: int, curMonth: int)
    requires 1 <= curMonth <= 12
    ensures IsValidDate(year, [c], curYear, curMonth) == IsValidDate(year, ['0', c], curYear, curMonth)
  {
    assert PadLeft([c], 2, '0') == ['0', c];
  }

  /** Months outside 01..12 are rejected whatever the year and clock: "00",
      "13", the empty month (padded to "00"), "0", and a three-character
      "012" (too long to be padded, too long to match). */
  lemma OutOfRangeMonthsRejected(year: string, curYear: int, curMonth: int)
    requires 1 <= curMonth <= 12
    ensures !IsValidDate(year, "00", curYear, curMonth)
    ensures !IsValidDate(year, "13", curYear, curMonth)
    ensures !IsValidDate(year, "", curYear, curMonth)
    ensures !IsValidDate(year, "0", curYear, curMonth)
    ensures !IsValidDate(year, "012", curYear, curMonth)
  {
    assert !IsExpiryMonth("00");
    assert !IsExpiryMonth("13");
    assert PadLeft("", 2, '0') == "00";
    assert PadLeft("0", 2, '0') == "00";
  }

  /** A date valid at some moment stays valid at every earlier moment:
      the clock moving forward only rejects more. */
  lemma EarlierClockAcceptsMore(year: string, month: string, curYear: int, curMonth: int, earlyYear: int, earlyMonth: int)
    requires 1 <= curMonth <= 12 && 1 <= earlyMonth <= 12
    requires MonthIndex(earlyYear, earlyMonth) <= MonthIndex(curYear, curMonth)
    requires IsValidDate(year, month, curYear, curMonth)
    ensures IsValidDate(year, month, earlyYear, earlyMonth)
  {
  }
}
