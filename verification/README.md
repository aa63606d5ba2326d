# bankcard-validator in Dafny

A verified model of `Samyan\BankCard`, a PHP class that validates payment
card data. The model covers:

- the ordered table of card networks (`$cards`);
- the input normalisation that strips every non-digit;
- card-type detection by first matching prefix pattern;
- card-number validation (pattern, length and the mod-10 "Luhn" check of
  ISO/IEC 7812-1, Annex B);
- security-code (CVC) validation;
- expiry-date validation.

Modules, one per concern:

| file | module | models |
|---|---|---|
| `digits.dfy` | `Optional`, `Digits` | PHP `null` arguments, digit characters, `preg_replace('/[^0-9]/', '', …)` |
| `luhn.dfy` | `Luhn` | `checkLuhn`, proved equal to the right-to-left Luhn sum |
| `registry.dfy` | `Registry` | the `$cards` table (all 16 entries, in declaration order) and the matching of its patterns |
| `bankcard.dfy` | `BankCard` | `getCardType`, `validateCardNumber`, `isValidCard`, `isValidPattern`, `isValidLength`, `isValidLuhn`, `isValidCvc`, `isValidCvcLength` |
| `expiry.dfy` | `Expiry` | `isValidDate` and the `str_pad` it relies on |

Modelling choices:

- **The PHP array result.** It is the datatype
  `ValidationResult(valid, number, cardType)`. `type` is a Dafny keyword, so
  that field is named `cardType`.
- **The optional `$type` argument.** It is an `Option<string>`. PHP
  `empty()` makes `None`, `""` and `"0"` all count as absent, and each of
  them triggers detection (`TypeAbsent`).
- **The patterns.** Every pattern except `hipercard` is a left-anchored
  alternation of fixed-width character classes. Each is written as a list
  of alternatives, and each alternative as a sequence of character sets.
  The `hipercard` pattern is anchored at both ends, so it is a whole-string
  predicate.
- **Digit casts.** The `(int)` cast of one character in `checkLuhn` is
  `DigitValue`: a non-digit character counts as 0, as it does in PHP.
  `checkLuhn` therefore needs no precondition.
- **Helper predicates.** `isValidCard`, `isValidPattern`, `isValidLength`
  and `isValidLuhn` are the predicate `BankCard.IsValidCard`. The `foreach`
  loops over the `length` and `cvcLength` lists become sequence membership.
- **The wall clock.** `isValidDate` reads `date('Y')` and `date('m')`. In
  the model these are the parameters `curYear` and `curMonth`, and
  `curMonth` is required to lie in 1..12, the range `date('m')` yields.
  After the regular-expression guards, the PHP loose comparisons at line 209
  compare numeric strings by value, so the model compares `NumberValue`s.

## Behaviour worth knowing

These facts follow from the table's order and its patterns:

- **Sixteen networks.** The table lists 16 networks, among them `rupay` and
  `uatp` (`Registry.TableLayout`).
- **Numbers starting with 622.** These are detected as `discover`. The
  `discover` pattern `6([045]|22)` comes before `unionpay`
  (`DetectDiscoverBeforeUnionpay`).
- **Networks detection never names.** `mir` (`220[0-4]`) is never detected,
  because every such number already matches `mastercard` (`2[2-7]`), which
  comes first (`MirNeverDetected`). `rupay` (`60`, `6521`, `6522`) is never
  detected, because `discover` (`6[045]`) comes first (`RupayNeverDetected`).
  Both still validate when their key is passed explicitly
  (`NetworkAcceptsLength`, `ExplicitMirNotDetected`).
- **A length no number reaches.** `hipercard` lists length 13. Its pattern
  accepts only 16 to 19 digits, so no 13-digit number is ever a valid
  `hipercard` (`HipercardLength13Unreachable`). Every other declared length
  of every network is reached by some valid number (`NetworkAcceptsLength`).
- **Explicit type versus auto-detection.** If auto-detection accepts a
  number as T, passing T explicitly gives the identical result
  (`DetectedTypeRoundTrip`). The converse does not hold. A Luhn-valid
  16-digit number starting with 38 is accepted when `hipercard` is named
  (`ExplicitHipercardAccepts`). With no type given, detection stops at
  `dinersclub`, whose only length is 14, so the same number is rejected
  (`DetectionRejectsHipercard38`, `HipercardWitnessExists`). Detection
  names `hipercard` only for a 16-digit number starting with 637568
  (`DetectedHipercardStartsWith637568`).

## Model

| member | source | states |
|---|---|---|
| Digits.Normalize | src/BankCard.php:142-143 | The result holds only '0'..'9'. It keeps every digit of the input, as many times as it occurs, and drops every other character. An all-digit input comes back unchanged. |
| Digits.NormalizeConcat | src/BankCard.php:143 | Stripping distributes over concatenation, so the digits keep their input order. |
| Digits.NormalizeIdempotent | src/BankCard.php:143 | Normalising twice gives the same result as normalising once. |
| Digits.NormalizeFixedPoints | src/BankCard.php:143 | An all-digit string is a fixed point. A string without digits normalises to the empty string. |
| Digits.DigitValue | src/BankCard.php:303-308 | The `(int)` cast of one character gives a value in 0..9: the digit's own value for '0'..'9', and 0 for any other character. |
| Digits.NumberValue | src/BankCard.php:209 | The value of a digit string read left to right, which is what PHP's loose comparison of two numeric strings compares. |
| Digits.LeadingZeroValue | src/BankCard.php:209 | A leading zero does not change the value, so the comparison sees "09" and "9" as the same number. |
| Luhn.CheckLuhn | src/BankCard.php:298-318 | The two 1-indexed passes, whose start depends on the parity of the length, return true exactly when the right-to-left Luhn sum is a multiple of 10. In that sum the rightmost digit is added as-is, and every second digit leftwards counts as 2d, or 2d-9 when 2d >= 10. |
| Luhn.UndoubledPass | src/BankCard.php:302-304 | The first loop adds every second digit, undoubled, starting from the rightmost digit. |
| Luhn.DoubledPass | src/BankCard.php:307-315 | The second loop adds every other digit, starting from the second from the right, to the running checksum. Each is doubled, and reduced by 9 when the double is 10 or more. |
| Luhn.PrefixSumsAgree | src/BankCard.php:302-315 | After any prefix, the plain pass and the doubling pass together hold the right-to-left Luhn sum of that prefix. |
| Luhn.LeadingZeroNeutral | src/BankCard.php:302-307 | A leading zero changes neither sum nor the verdict, so the length parity does not matter. |
| Luhn.CheckDigit | src/BankCard.php:302-317 | For any prefix, the computed digit completes it to a passing number. It is the only digit that does. |
| Luhn.UniqueCheckDigit | src/BankCard.php:302-317 | Every prefix has exactly one digit '0'..'9' that makes it pass, because the last character is always added undoubled. |
| Luhn.KnownVectors | src/BankCard.php:298-318 | "4532015112830366" passes and "4532015112830367" fails. |
| Registry.TableLayout | src/BankCard.php:9-125 | The table holds sixteen networks in declaration order, from `visaelectron` to `rupay`, each with the number lengths the source lists for it. |
| Registry.MatchesAlternative | src/BankCard.php:169 | One alternative of a left-anchored pattern matches when the input starts with one character of each class, in order. |
| Registry.HipercardMatches | src/BankCard.php:99 | The whole input is 606282 or 637568 followed by exactly ten digits, or 38 followed by 14 to 17 digits. |
| Registry.Matches | src/BankCard.php:237 | `preg_match` with a table pattern succeeds when one of its alternatives matches. For `hipercard` the whole-string predicate must hold. |
| Registry.PrefixMatchExtends | src/BankCard.php:169 | A prefix pattern has no end anchor. Whether an alternative matches depends only on the input's first characters, and a match survives any text appended after them. |
| Registry.HipercardAnchoredAtBothEnds | src/BankCard.php:99 | A `hipercard` match is an all-digit string of 16 to 19 characters. Appending a non-digit, or going past 19 characters, breaks the match. |
| Registry.IsKey | src/BankCard.php:149 | `array_key_exists`: the key names a network of the table. |
| Registry.KeysAreNetworkOrder | src/BankCard.php:186 | The keys `array_key_exists` accepts are exactly the sixteen network names, and no other string. |
| Registry.FindRule | src/BankCard.php:149 | The lookup `self::$cards[$type]` finds an entry exactly when the key is in the table. The entry found carries that key and is the only one with it. |
| Registry.FindRuleAt | src/BankCard.php:9-125 | Looking up a network's own key returns that network. |
| Registry.KeysUnique | src/BankCard.php:9-125 | No key names two networks. |
| Registry.RulesWellFormed | src/BankCard.php:9-125 | Every key has at least three characters, so it is never "" or "0". Every network allows some number lengths, all in 12..19, and some code lengths, all in 3..4. |
| Registry.CvcLengthsByNetwork | src/BankCard.php:54-60 | `amex` allows codes of 3 and 4 digits. Every other network allows 3 digits only. |
| Registry.OnlyUnionpaySkipsLuhn | src/BankCard.php:76-82 | The Luhn flag is off exactly for `unionpay`. |
| BankCard.DetectFromIsFirstMatch | src/BankCard.php:168-174 | Over any list of networks with non-empty keys, the scan resumed at any position returns the key of the first matching network at or after it. It returns "" exactly when no later network matches. |
| BankCard.DetectType | src/BankCard.php:166-175 | Detection returns "" exactly when no pattern matches. Otherwise it returns the key of a matching network that no earlier network's pattern also matches. |
| BankCard.DetectIsFirstMatch | src/BankCard.php:166-175 | Detection names network i exactly when i's pattern matches and no earlier pattern does. |
| BankCard.DetectSkipsTo | src/BankCard.php:168-172 | Skipping a stretch of networks none of which matches leaves the scan's result unchanged. |
| BankCard.DetectVisaElectronBeforeVisa | src/BankCard.php:11-45 | "4026…" is `visaelectron`, although the `visa` pattern matches as well. |
| BankCard.DetectForbrugsforeningenBeforeDiscover | src/BankCard.php:25-123 | "600…" is `forbrugsforeningen`, although the `discover` and `rupay` patterns match as well. |
| BankCard.DetectDiscoverBeforeUnionpay | src/BankCard.php:69-81 | "622…" is `discover`, although the `unionpay` pattern matches as well. |
| BankCard.DetectDiscover6011 | src/BankCard.php:69-74 | "6011…" is `discover`. |
| BankCard.Starts38IsDiners | src/BankCard.php:62-67 | Every string starting with 38 is detected as `dinersclub`. |
| BankCard.DetectedHipercardStartsWith637568 | src/BankCard.php:62-102 | Detection names `hipercard` only for a 16-character string starting with 637568. |
| BankCard.MirNeverDetected | src/BankCard.php:47-109 | No input is detected as `mir`. Every string starting with 220[0-4] already matches `mastercard` (`2[2-7]`), which is declared earlier. |
| BankCard.RupayNeverDetected | src/BankCard.php:69-123 | No input is detected as `rupay`. Every string starting with 60, 6521 or 6522 already matches `discover` (`6[045]`), which is declared earlier. |
| BankCard.HipercardLength13Unreachable | src/BankCard.php:97-102 | `hipercard` lists length 13, but no 13-character string matches its pattern. So no number whose digits number 13 is valid when `hipercard` is named. |
| BankCard.NetworkAcceptsLength | src/BankCard.php:134-158 | For every network and each length it lists, except `hipercard`'s 13, some digit string of that length is accepted under that network's key, with the result (true, the same digits, the key). |
| BankCard.ExplicitMirNotDetected | src/BankCard.php:145-154 | Some digit string is valid when `mir` is named, yet gets a different result when the type is left to detection. |
| BankCard.ValidateCardNumber | src/BankCard.php:134-158 | Every failure returns exactly (false, "", ""). A success returns the normalised, non-empty, all-digit number and the resolved type. |
| BankCard.TypeAbsent | src/BankCard.php:145 | PHP `empty()` on the type: no type, the empty string and "0" count as absent. |
| BankCard.AbsentTypesAgree | src/BankCard.php:145-147 | No type, "" and "0" give the same verdict for every number. "00" and " " are not absent. |
| BankCard.ResolveType | src/BankCard.php:145-147 | The type the validation continues with: the caller's when it is not absent, the detected one otherwise. |
| BankCard.ResolvedTypeShape | src/BankCard.php:145-147 | The resolved type is never "0". It is "" exactly when the type is absent and no pattern matches. A detected type is a key of the table. |
| BankCard.IsValidCard | src/BankCard.php:223-290 | The network's pattern matches, the length is one of its listed lengths, and where the network's flag is on the Luhn check passes. |
| BankCard.ValidationCharacterised | src/BankCard.php:145-155 | A number is valid exactly when a network has the resolved key and, on the normalised digits, its pattern matches, the length is allowed and, where the flag is on, the Luhn check passes. The reported type is the caller's when one is given and the detected one otherwise. |
| BankCard.RejectsWrongLength | src/BankCard.php:247-256 | A raw input is rejected, whatever other characters it holds, when its digit count is a length the resolved network does not allow. |
| BankCard.RejectsDigitsWrongLength | src/BankCard.php:247-256 | The same holds for an input that is already all digits. |
| BankCard.AcceptsValidCard | src/BankCard.php:223-226 | A digit string that passes every check of its resolved network is accepted unchanged, under that network's key. |
| BankCard.DetectedTypeRoundTrip | src/BankCard.php:145-154 | If auto-detection accepts a number as T, then passing T explicitly gives the identical result. |
| BankCard.ExplicitHipercardAccepts | src/BankCard.php:97-102 | A Luhn-valid 16-digit number starting with 38 is accepted when `hipercard` is named. |
| BankCard.DetectionRejectsHipercard38 | src/BankCard.php:62-102 | The same number is rejected when the type is left to detection. |
| BankCard.HipercardWitnessExists | src/BankCard.php:99 | Such a number exists. |
| BankCard.ReferenceVisaValidates | src/BankCard.php:134-158 | "4532015112830366" with no type validates as (true, the same digits, `visa`). |
| BankCard.IsValidCvc | src/BankCard.php:184-187 | A code passes exactly when it is non-empty, all digits, and of a length the named network allows. A passing code has 3 or 4 digits. |
| BankCard.FourDigitCvcOnlyAmex | src/BankCard.php:265-274 | A passing four-digit code implies `amex`. For every other network a passing code has three digits. |
| BankCard.CvcExamples | src/BankCard.php:184-187 | "1234" passes for `amex` and fails for `visa`. "12a" fails for every type. |
| Expiry.PadLeft | src/BankCard.php:198 | The padded month is the input with pad characters in front, exactly as many as are needed to reach the width, and none when the input is already that long. |
| Expiry.IsExpiryYear | src/BankCard.php:200 | The year pattern `^20\d\d$`: exactly four characters, "20" followed by two digits. |
| Expiry.IsExpiryMonth | src/BankCard.php:204 | The month pattern, anchored at both ends: exactly two characters, "0" and a digit 1-9, or "1" and a digit 0-2, so 01 to 12. |
| Expiry.ExpiryTextRoundTrip | src/BankCard.php:200-209 | Every text the year pattern accepts has a value in 2000..2099 and is the canonical text of that value. Every text the month pattern accepts has a value in 1..12 and is the zero-padded text of that value. |
| Expiry.IsValidDate | src/BankCard.php:196-214 | A date passes exactly when the year matches 20dd, the padded month matches 01..12, and (year, month) is not before the current month in calendar order. A passing year lies in 2000..2099 and a passing month in 1..12. |
| Expiry.AcceptedIffNotPast | src/BankCard.php:208-211 | For well-formed text, a date passes exactly when its month index is at least the current one. |
| Expiry.CurrentMonthAccepted | src/BankCard.php:208-213 | The current month passes. It stops passing once the clock moves one month or one year on. |
| Expiry.SingleDigitMonthPadded | src/BankCard.php:198 | A one-character month gets the same verdict as its zero-padded form. |
| Expiry.OutOfRangeMonthsRejected | src/BankCard.php:204-206 | Whatever the year and clock, "00", "13", "", "0" and "012" are rejected. |
| Expiry.EarlierClockAcceptsMore | src/BankCard.php:208-211 | A date valid at some moment is valid at every earlier moment. |

## Left out

- Wall clock: `date('Y')` and `date('m')` are the parameters `curYear` and `curMonth`.
- PCRE `$` also matches before a final newline. The date patterns model only the end of the string, so a year such as "2030" followed by a newline is rejected here. Card numbers cannot be affected, because normalisation removes newlines before any pattern runs.
- PHP integer width: the `checkLuhn` checksum is an unbounded `nat`. A 64-bit overflow would need a number of about 10^18 characters.
- Byte strings: PHP strings are bytes and the model works on `char`. The patterns, `ctype_digit` and `(int)` casts look only at ASCII digits, so both readings accept the same inputs.
- The `type` and `format` fields of the table are never read by the modelled functions, so `CardRule` omits them.
- PHP warnings for an unknown key in `self::$cards[$type]`: every caller checks `array_key_exists` first, so they cannot occur.
- Expiry.IsValidDate: stated for a `curMonth` in 1..12, the only values `date('m')` returns.
