/** The public entry points of `Samyan\BankCard`: card-type detection,
    card-number validation and security-code validation. */
module BankCard {
  import opened Optional
  import opened Digits
  import opened Luhn
  import opened Registry

  /** The verdict of `validateCardNumber` (a PHP array with the keys
      `valid`, `number` and `type`). */
  datatype ValidationResult = ValidationResult(valid: bool, number: string, cardType: string)

  /** The verdict for every failure: nothing of the input leaks out. */
  const Rejected: ValidationResult := ValidationResult(false, "", "")

  /** The first match among `rules` from position `start` on: the
      `foreach` of `getCardType` resumed at `start`. */
  function DetectFrom(number: string, rules: seq<CardRule>, start: nat): (t: string)
    requires start <= |rules|
    decreases |rules| - start
  {
    if start == |rules| then ""
    else if Matches(number, rules[start].pattern) then rules[start].key
    else DetectFrom(number, rules, start + 1)
  }

  /** Whether no rule at a position in [lo, hi) matches `number`. */
  predicate NoMatchBetween(number: string, rules: seq<CardRule>, lo: nat, hi: nat)
    requires hi <= |rules|
  {
    forall j :: lo <= j < hi ==> !Matches(number, rules[j].pattern)
  }

  /** For rules with non-empty keys, the scan from `start` yields the key of
      the first rule at or after `start` whose pattern matches, and ""
      exactly when none does. */
  lemma {:induction false} DetectFromIsFirstMatch(number: string, rules: seq<CardRule>, start: nat)
    requires start <= |rules|
    requires forall i :: 0 <= i < |rules| ==> rules[i].key != ""
    ensures DetectFrom(number, rules, start) == "" <==> NoMatchBetween(number, rules, start, |rules|)
    ensures DetectFrom(number, rules, start) != "" ==>
      exists i :: start <= i < |rules| && rules[i].key == DetectFrom(number, rules, start)
               && Matches(number, rules[i].pattern) && NoMatchBetween(number, rules, start, i)
    decreases |rules| - start
  {
    if start < |rules| && !Matches(number, rules[start].pattern) {
      DetectFromIsFirstMatch(number, rules, start + 1);
    }
  }

  /** `getCardType`: the key of the first network, in declaration order,
      whose pattern matches `number`, or "" when none does. */
  function DetectType(number: string): (t: string)
    ensures t == "" <==> forall i :: 0 <= i < |Cards| ==> !Matches(number, Cards[i].pattern)
    ensures t != "" ==> exists i :: 0 <= i < |Cards| && Cards[i].key == t
                                  && Matches(number, Cards[i].pattern)
                                  && forall j :: 0 <= j < i ==> !Matches(number, Cards[j].pattern)
  {
    RulesWellFormed();
    DetectFromIsFirstMatch(number, Cards, 0);
    DetectFrom(number, Cards, 0)
  }

  /** Detection returns the key of a matching network exactly when every
      network declared before it does not match. */
  lemma DetectIsFirstMatch(number: string, i: nat)
    requires i < |Cards|
    ensures DetectType(number) == Cards[i].key
        <==> Matches(number, Cards[i].pattern) && forall j :: 0 <= j < i ==> !Matches(number, Cards[j].pattern)
  {
    KeysUnique();
    RulesWellFormed();
  }

  /** Skipping a stretch of rules none of which matches. */
  lemma {:induction false} DetectSkipsTo(number: string, rules: seq<CardRule>, i: nat, j: nat)
    requires i <= j <= |rules| && NoMatchBetween(number, rules, i, j)
    ensures DetectFrom(number, rules, i) == DetectFrom(number, rules, j)
    decreases j - i
  {
    if i < j {
      DetectSkipsTo(number, rules, i + 1, j);
    }
  }

  /** The scan stops at a network whose pattern matches. */
  lemma DetectStops(number: string, i: nat)
    requires i < |Cards| && Matches(number, Cards[i].pattern)
    ensures DetectFrom(number, Cards, i) == Cards[i].key
  {
  }

  /** PHP `empty($type)`: a missing type, the empty string and "0" all
      count as absent and trigger detection. */
  predicate TypeAbsent(claimed: Option<string>) {
    claimed.None? || claimed.value == "" || claimed.value == "0"
  }

  /** The type the validation goes on with: the caller's, unless absent. */
  function ResolveType(number: string, claimed: Option<string>): (t: string) {
    if TypeAbsent(claimed) then DetectType(number) else claimed.value
  }

  /** The resolved type is never "0"; it is "" exactly when the type is
      absent and no pattern matches; a detected type is a key of the table. */
  lemma ResolvedTypeShape(number: string, claimed: Option<string>)
    ensures ResolveType(number, claimed) != "0"
    ensures ResolveType(number, claimed) == ""
        <==> TypeAbsent(claimed) && forall i :: 0 <= i < |Cards| ==> !Matches(number, Cards[i].pattern)
    ensures TypeAbsent(claimed) && ResolveType(number, claimed) != "" ==> IsKey(ResolveType(number, claimed))
  {
    RulesWellFormed();
  }

  /** The three spellings of an absent type give one and the same verdict. */
  lemma AbsentTypesAgree(number: string)
    ensures ValidateCardNumber(number, Some("")) == ValidateCardNumber(number, None)
    ensures ValidateCardNumber(number, Some("0")) == ValidateCardNumber(number, None)
    ensures !TypeAbsent(Some("00")) && !TypeAbsent(Some(" "))
  {
  }

  /** `isValidCard`: the pattern matches again, the length is allowed and,
      for networks that use it, the Luhn check passes. */
  predicate IsValidCard(number: string, rule: CardRule) {
    && Matches(number, rule.pattern)
    && |number| in rule.lengths
    && (rule.luhn ==> LuhnValid(number))
  }

  /** `validateCardNumber`: normalise, resolve the type, and accept only a
      number that passes every check of that type's network. What makes a
      number valid is stated by `ValidationCharacterised`. */
  function ValidateCardNumber(number: string, claimed: Option<string>): (r: ValidationResult)
    ensures !r.valid ==> r == Rejected
    ensures r.valid ==> r.number == Normalize(number) && AllDigits(r.number) && |r.number| > 0
    ensures r.valid ==> r.cardType == ResolveType(r.number, claimed)
  {
    var n := Normalize(number);
    var t := ResolveType(n, claimed);
    RulesWellFormed();
    match FindRule(t)
    case Some(rule) => if IsValidCard(n, rule) then ValidationResult(true, n, t) else Rejected
    case None => Rejected
  }

  /** A number is valid exactly when some network carries the resolved
      type's key and its pattern, length and (where used) Luhn checks all
      pass on the normalised digits; the reported type is then the
      caller's when given, and the detected one otherwise. */
  lemma ValidationCharacterised(number: string, claimed: Option<string>)
    ensures var r := ValidateCardNumber(number, claimed);
      && (r.valid <==> exists i :: 0 <= i < |Cards|
                          && Cards[i].key == ResolveType(Normalize(number), claimed)
                          && IsValidCard(Normalize(number), Cards[i]))
      && (r.valid ==> exists i :: 0 <= i < |Cards| && Cards[i].key == r.cardType
                          && IsValidCard(r.number, Cards[i]))
      && (r.valid && !TypeAbsent(claimed) ==> r.cardType == claimed.value)
      && (r.valid && TypeAbsent(claimed) ==> r.cardType == DetectType(r.number))
  {
  }

  /** A number whose normalised digits have a length the resolved network
      does not allow is rejected, whatever those digits are. */
  lemma RejectsWrongLength(number: string, claimed: Option<string>, i: nat)
    requires i < |Cards| && ResolveType(Normalize(number), claimed) == Cards[i].key
    requires |Normalize(number)| !in Cards[i].lengths
    ensures ValidateCardNumber(number, claimed) == Rejected
  {
    FindRuleAt(i);
  }

  /** The same for a string that is already all digits. */
  lemma RejectsDigitsWrongLength(number: string, claimed: Option<string>, i: nat)
    requires i < |Cards| && AllDigits(number) && ResolveType(number, claimed) == Cards[i].key
    requires |number| !in Cards[i].lengths
    ensures ValidateCardNumber(number, claimed) == Rejected
  {
    NormalizeFixedPoints(number);
    RejectsWrongLength(number, claimed, i);
  }

  /** A number that passes every check of its resolved network is accepted
      in normalised form under that network's key. */
  lemma AcceptsValidCard(number: string, claimed: Option<string>, i: nat)
    requires i < |Cards| && AllDigits(number) && ResolveType(number, claimed) == Cards[i].key
    requires IsValidCard(number, Cards[i])
    ensures ValidateCardNumber(number, claimed) == ValidationResult(true, number, Cards[i].key)
  {
    NormalizeFixedPoints(number);
    FindRuleAt(i);
  }

  /** The detected network's pattern matches. */
  lemma DetectedMatches(number: string, i: nat)
    requires i < |Cards| && DetectType(number) == Cards[i].key
    ensures Matches(number, Cards[i].pattern)
    ensures forall j :: 0 <= j < i ==> !Matches(number, Cards[j].pattern)
  {
    DetectIsFirstMatch(number, i);
  }

  /** A type found by detection and then passed explicitly gives the very
      same verdict: the explicit path re-checks the same network. */
  lemma DetectedTypeRoundTrip(number: string)
    ensures var r := ValidateCardNumber(number, None);
            r.valid ==> ValidateCardNumber(number, Some(r.cardType)) == r
  {
    var r := ValidateCardNumber(number, None);
    if r.valid {
      RulesWellFormed();
      assert r.cardType != "0" && r.cardType != "" by {
        var i :| 0 <= i < |Cards| && Cards[i].key == r.cardType;
      }
    }
  }

  /** A 16-digit, Luhn-valid number starting with 38 is accepted as
      `hipercard` when the caller names that type. */
  lemma ExplicitHipercardAccepts(s: string)
    requires AllDigits(s) && |s| == 16 && s[..2] == "38" && LuhnValid(s)
    ensures ValidateCardNumber(s, Some("hipercard")) == ValidationResult(true, s, "hipercard")
  {
    assert Cards[12] == CardRule("hipercard", HipercardPattern, [13, 16, 19], [3], true);
    assert HipercardMatches(s);
    FindRuleAt(12);
    assert IsValidCard(s, Cards[12]);
  }

  /** The same number is rejected when the type is left to detection, which
      picks `dinersclub`, whose only length is 14: the converse of the round
      trip does not hold. */
  lemma DetectionRejectsHipercard38(s: string)
    requires AllDigits(s) && |s| == 16 && s[..2] == "38"
    ensures ValidateCardNumber(s, None) == Rejected
  {
    assert DetectType(s) == Cards[7].key by {
      assert s[0] == '3' && s[1] == '8';
      Starts38IsDiners(s);
    }
    RejectsDigitsWrongLength(s, None, 7);
  }

  /** Such numbers exist: 38, thirteen zeros and the check digit that
      completes them. */
  lemma HipercardWitnessExists()
    ensures exists s :: AllDigits(s) && |s| == 16 && s[..2] == "38" && LuhnValid(s)
  {
    var p := "380000000000000";
    var s := p + [CheckDigit(p)];
    assert s[..2] == "38";
    assert AllDigits(s);
  }

  /** A number starting with 38 matches none of the first seven patterns and
      matches the eighth, `dinersclub`. */
  lemma DinersIsFirstMatch(s: string)
    requires |s| >= 2 && s[0] == '3' && s[1] == '8'
    ensures !Matches(s, Cards[0].pattern) && !Matches(s, Cards[1].pattern) && !Matches(s, Cards[2].pattern)
    ensures !Matches(s, Cards[3].pattern) && !Matches(s, Cards[4].pattern) && !Matches(s, Cards[5].pattern)
    ensures !Matches(s, Cards[6].pattern)
    ensures NoMatchBetween(s, Cards, 0, 7)
    ensures Matches(s, Cards[7].pattern)
  {
    forall j | 0 <= j < 7
      ensures !Matches(s, Cards[j].pattern)
    {
      assert j == 0 || j == 1 || j == 2 || j == 3 || j == 4 || j == 5 || j == 6;
    }
    assert MatchesAlternative(s, Cards[7].pattern.alternatives[0]);
  }

  /** Anything starting with 38 is detected as `dinersclub`, before the
      `hipercard` network is reached. */
  lemma Starts38IsDiners(s: string)
    ensures |s| >= 2 && s[0] == '3' && s[1] == '8' ==> DetectType(s) == "dinersclub"
  {
    if |s| >= 2 && s[0] == '3' && s[1] == '8' {
      DinersIsFirstMatch(s);
      DetectSkipsTo(s, Cards, 0, 7);
      DetectStops(s, 7);
    }
  }

  /** Anything starting with 60 matches the `discover` pattern. */
  lemma Starts60MatchesDiscover(s: string)
    ensures |s| >= 2 && s[0] == '6' && s[1] == '0' ==> Matches(s, Cards[8].pattern)
  {
    if |s| >= 2 && s[0] == '6' && s[1] == '0' {
      assert MatchesAlternative(s, Cards[8].pattern.alternatives[0]);
    }
  }

  /** `4026...` is `visaelectron`, although the `visa` pattern matches too. */
  lemma DetectVisaElectronBeforeVisa(s: string)
    requires |s| >= 4 && s[..4] == "4026"
    ensures DetectType(s) == "visaelectron"
    ensures Matches(s, Cards[4].pattern) && Cards[4].key == "visa"
  {
    assert s[0] == '4' && s[1] == '0' && s[2] == '2' && s[3] == '6';
    assert MatchesAlternative(s, Cards[0].pattern.alternatives[0]);
    DetectStops(s, 0);
    assert MatchesAlternative(s, Cards[4].pattern.alternatives[0]);
  }

  /** A number starting with 600 matches neither of the first two patterns,
      and matches those of `forbrugsforeningen`, `discover` and `rupay`. */
  lemma ForbrugsforeningenIsFirstMatch(s: string)
    requires |s| >= 3 && s[0] == '6' && s[1] == '0' && s[2] == '0'
    ensures !Matches(s, Cards[0].pattern) && !Matches(s, Cards[1].pattern)
    ensures NoMatchBetween(s, Cards, 0, 2)
    ensures Matches(s, Cards[2].pattern) && Matches(s, Cards[8].pattern) && Matches(s, Cards[15].pattern)
  {
    forall j | 0 <= j < 2
      ensures !Matches(s, Cards[j].pattern)
    {
      assert j == 0 || j == 1;
    }
    assert MatchesAlternative(s, Cards[2].pattern.alternatives[0]);
    Starts60MatchesDiscover(s);
    assert MatchesAlternative(s, Cards[15].pattern.alternatives[0]);
  }

  /** `600...` is `forbrugsforeningen`, although the `discover` and `rupay`
      patterns match too. */
  lemma DetectForbrugsforeningenBeforeDiscover(s: string)
    requires |s| >= 3 && s[..3] == "600"
    ensures DetectType(s) == "forbrugsforeningen"
    ensures Matches(s, Cards[8].pattern) && Cards[8].key == "discover"
    ensures Matches(s, Cards[15].pattern) && Cards[15].key == "rupay"
  {
    assert s[0] == '6' && s[1] == '0' && s[2] == '0';
    ForbrugsforeningenIsFirstMatch(s);
    DetectSkipsTo(s, Cards, 0, 2);
    DetectStops(s, 2);
  }

  /** A number starting with 622, or with 60 and then anything but 0,
      matches none of the first eight patterns and matches `discover`. */
  lemma DiscoverIsFirstMatch(s: string)
    requires |s| >= 3 && s[0] == '6' && ((s[1] == '2' && s[2] == '2') || (s[1] == '0' && s[2] != '0'))
    ensures !Matches(s, Cards[0].pattern) && !Matches(s, Cards[1].pattern) && !Matches(s, Cards[2].pattern)
    ensures !Matches(s, Cards[3].pattern) && !Matches(s, Cards[4].pattern) && !Matches(s, Cards[5].pattern)
    ensures !Matches(s, Cards[6].pattern) && !Matches(s, Cards[7].pattern)
    ensures NoMatchBetween(s, Cards, 0, 8)
    ensures Matches(s, Cards[8].pattern)
  {
    forall j | 0 <= j < 8
      ensures !Matches(s, Cards[j].pattern)
    {
      assert j == 0 || j == 1 || j == 2 || j == 3 || j == 4 || j == 5 || j == 6 || j == 7;
    }
    if s[1] == '2' {
      assert MatchesAlternative(s, Cards[8].pattern.alternatives[1]);
    } else {
      assert MatchesAlternative(s, Cards[8].pattern.alternatives[0]);
    }
  }

  /** Anything starting with 62 matches the `unionpay` pattern. */
  lemma Starts62MatchesUnionpay(s: string)
    requires |s| >= 2 && s[0] == '6' && s[1] == '2'
    ensures Matches(s, Cards[9].pattern) && Cards[9].key == "unionpay"
  {
    assert MatchesAlternative(s, Cards[9].pattern.alternatives[0]);
  }

  /** `622...` is `discover`, although the `unionpay` pattern matches too. */
  lemma DetectDiscoverBeforeUnionpay(s: string)
    requires |s| >= 3 && s[..3] == "622"
    ensures DetectType(s) == "discover"
    ensures Matches(s, Cards[9].pattern) && Cards[9].key == "unionpay"
  {
    assert s[0] == '6' && s[1] == '2' && s[2] == '2';
    DiscoverIsFirstMatch(s);
    DetectSkipsTo(s, Cards, 0, 8);
    DetectStops(s, 8);
    Starts62MatchesUnionpay(s);
  }

  /** `6011...` is `discover` as well. */
  lemma DetectDiscover6011(s: string)
    requires |s| >= 4 && s[..4] == "6011"
    ensures DetectType(s) == "discover"
  {
    assert s[0] == '6' && s[1] == '0' && s[2] == '1' && s[3] == '1';
    DiscoverIsFirstMatch(s);
    DetectSkipsTo(s, Cards, 0, 8);
    DetectStops(s, 8);
  }

  /** What a `hipercard` match says about the leading digits. */
  lemma HipercardPrefixes(s: string)
    requires Matches(s, Cards[12].pattern)
    ensures |s| >= 2
    ensures (s[0] == '3' && s[1] == '8') || (s[0] == '6' && s[1] == '0') || (|s| == 16 && s[..6] == "637568")
  {
    assert HipercardMatches(s);
  }

  /** Detection reaches `hipercard` only through the 637568 prefix: the 38
      branch is taken by `dinersclub` and the 606282 branch by `discover`. */
  lemma DetectedHipercardStartsWith637568(s: string)
    requires DetectType(s) == "hipercard"
    ensures |s| == 16 && s[..6] == "637568"
  {
    DetectedMatches(s, 12);
    HipercardPrefixes(s);
    Starts38IsDiners(s);
    Starts60MatchesDiscover(s);
  }

  /** The `hipercard` entry lists length 13, but its pattern needs 16 to 19
      characters, so no number of that length is ever a valid `hipercard`. */
  lemma HipercardLength13Unreachable(s: string)
    ensures Cards[12].key == "hipercard" && 13 in Cards[12].lengths
    ensures |s| == 13 ==> !Matches(s, Cards[12].pattern) && !IsValidCard(s, Cards[12])
    ensures |Normalize(s)| == 13 ==> !ValidateCardNumber(s, Some("hipercard")).valid
  {
    FindRuleAt(12);
  }

  /** A `mir` prefix 220[0-4] is also a `mastercard` prefix 2[2-7]. */
  lemma MirPrefixIsMastercard(s: string)
    ensures Matches(s, Cards[13].pattern) ==> Matches(s, Cards[5].pattern)
  {
    if Matches(s, Cards[13].pattern) {
      assert MatchesAlternative(s, Cards[5].pattern.alternatives[1]);
    }
  }

  /** Detection never names `mir`: `mastercard` comes first and matches
      every `mir` number. */
  lemma MirNeverDetected(s: string)
    ensures DetectType(s) != "mir"
  {
    MirPrefixIsMastercard(s);
    DetectIsFirstMatch(s, 13);
  }

  /** A `rupay` prefix 60, 6521 or 6522 is also a `discover` prefix 6[045]. */
  lemma RupayPrefixIsDiscover(s: string)
    ensures Matches(s, Cards[15].pattern) ==> Matches(s, Cards[8].pattern)
  {
    if Matches(s, Cards[15].pattern) {
      assert MatchesAlternative(s, Cards[8].pattern.alternatives[0]);
    }
  }

  /** Detection never names `rupay`: `discover` comes first and matches
      every `rupay` number. */
  lemma RupayNeverDetected(s: string)
    ensures DetectType(s) != "rupay"
  {
    RupayPrefixIsDiscover(s);
    DetectIsFirstMatch(s, 15);
  }

  /** Every network accepts, under its own key, a digit string of each
      length it declares, apart from the length 13 of `hipercard`: the
      first alternative of its pattern, zeros, and the check digit. */
  lemma NetworkAcceptsLength(i: nat, k: nat)
    requires i < |Cards| && k < |Cards[i].lengths|
    requires !(Cards[i].key == "hipercard" && Cards[i].lengths[k] == 13)
    ensures exists s :: AllDigits(s) && |s| == Cards[i].lengths[k]
                        && ValidateCardNumber(s, Some(Cards[i].key)) == ValidationResult(true, s, Cards[i].key)
  {
    if i == 12 {
      HipercardAcceptsLength(k);
    } else {
      PrefixNetworkAcceptsLength(i, k);
    }
  }

  /** `hipercard` at 16 and 19 digits: 38, zeros and the check digit. */
  lemma HipercardAcceptsLength(k: nat)
    requires k < |Cards[12].lengths| && Cards[12].lengths[k] != 13
    ensures exists s :: AllDigits(s) && |s| == Cards[12].lengths[k]
                        && ValidateCardNumber(s, Some(Cards[12].key)) == ValidationResult(true, s, Cards[12].key)
  {
    assert Cards[12].lengths == [13, 16, 19];
    var s := Completed("38", Cards[12].lengths[k]);
    assert IsValidCard(s, Cards[12]) by {
      assert s[..2] == "38";
      assert HipercardMatches(s);
    }
    KeyLength(12);
    AcceptsValidCard(s, Some(Cards[12].key), 12);
  }

  /** A prefix-pattern network: one character of each class of its first
      alternative, zeros and the check digit. */
  lemma PrefixNetworkAcceptsLength(i: nat, k: nat)
    requires i < |Cards| && i != 12 && k < |Cards[i].lengths|
    ensures exists s :: AllDigits(s) && |s| == Cards[i].lengths[k]
                        && ValidateCardNumber(s, Some(Cards[i].key)) == ValidationResult(true, s, Cards[i].key)
  {
    var len := Cards[i].lengths[k];
    FirstAlternativeAt(i);
    RulesWellFormed();
    var alt := Cards[i].pattern.alternatives[0];
    var p := Representative(alt);
    var s := Completed(p, len);
    assert IsValidCard(s, Cards[i]) by {
      assert MatchesAlternative(s, alt) by {
        assert s[..|p|] == p;
      }
    }
    KeyLength(i);
    AcceptsValidCard(s, Some(Cards[i].key), i);
  }

  /** A `mir` number validates when the type is named, but detection gives
      it another verdict: explicit and detected types agree in one
      direction only. */
  lemma ExplicitMirNotDetected()
    ensures exists s :: AllDigits(s) && ValidateCardNumber(s, Some("mir")).valid
                        && ValidateCardNumber(s, None) != ValidateCardNumber(s, Some("mir"))
  {
    var s := Completed("2200", 16);
    assert ValidateCardNumber(s, None) != ValidationResult(true, s, "mir") by {
      MirNeverDetected(s);
      DetectedVerdictNames(s);
    }
    MirSampleValidates(s);
  }

  /** A 16-digit Luhn-valid number starting with 2200 validates as `mir`
      when that type is named. */
  lemma MirSampleValidates(s: string)
    requires AllDigits(s) && |s| == 16 && s[..4] == "2200" && LuhnValid(s)
    ensures ValidateCardNumber(s, Some("mir")) == ValidationResult(true, s, "mir")
  {
    assert IsValidCard(s, Cards[13]) by {
      assert MatchesAlternative(s, Cards[13].pattern.alternatives[0]);
    }
    KeyLength(13);
    AcceptsValidCard(s, Some("mir"), 13);
  }

  /** Without a type, an accepted digit string is reported under the
      detected key. */
  lemma DetectedVerdictNames(s: string)
    requires AllDigits(s)
    ensures ValidateCardNumber(s, None).valid ==> ValidateCardNumber(s, None).cardType == DetectType(s)
  {
    NormalizeFixedPoints(s);
  }

  /** A number starting with 453 matches none of the first four patterns and
      matches `visa`. */
  lemma VisaIsFirstMatch(s: string)
    requires |s| >= 3 && s[0] == '4' && s[1] == '5' && s[2] == '3'
    ensures !Matches(s, Cards[0].pattern) && !Matches(s, Cards[1].pattern) && !Matches(s, Cards[2].pattern)
    ensures !Matches(s, Cards[3].pattern)
    ensures NoMatchBetween(s, Cards, 0, 4)
    ensures Matches(s, Cards[4].pattern)
  {
    forall j | 0 <= j < 4
      ensures !Matches(s, Cards[j].pattern)
    {
      assert j == 0 || j == 1 || j == 2 || j == 3;
    }
    assert MatchesAlternative(s, Cards[4].pattern.alternatives[0]);
  }

  /** The reference Visa number validates, unchanged, as `visa`. */
  lemma ReferenceVisaValidates()
    ensures ValidateCardNumber("4532015112830366", None)
         == ValidationResult(true, "4532015112830366", "visa")
  {
    var s := "4532015112830366";
    ReferenceVisaDetected();
    ReferenceVisaChecks();
    AcceptsValidCard(s, None, 4);
  }

  /** Detection names the reference Visa number `visa`. */
  lemma ReferenceVisaDetected()
    ensures DetectType("4532015112830366") == "visa"
  {
    var s := "4532015112830366";
    VisaIsFirstMatch(s);
    DetectSkipsTo(s, Cards, 0, 4);
    DetectStops(s, 4);
  }

  /** The reference Visa number passes every check of the `visa` network. */
  lemma ReferenceVisaChecks()
    ensures AllDigits("4532015112830366")
    ensures IsValidCard("4532015112830366", Cards[4])
  {
    var s := "4532015112830366";
    assert AllDigits(s);
    KnownVectors();
    assert MatchesAlternative(s, Cards[4].pattern.alternatives[0]);
  }

  /** `isValidCvc`: a non-empty all-digit code whose length is one the
      named network allows. */
  function IsValidCvc(cvc: string, cardType: string): (ok: bool)
    ensures ok <==> |cvc| > 0 && AllDigits(cvc)
                    && exists i :: 0 <= i < |Cards| && Cards[i].key == cardType && |cvc| in Cards[i].cvcLengths
    ensures ok ==> 3 <= |cvc| <= 4
  {
    RulesWellFormed();
    && |cvc| > 0
    && AllDigits(cvc)
    && match FindRule(cardType)
       case Some(rule) => |cvc| in rule.cvcLengths
       case None => false
  }

  /** A four-digit code is accepted for `amex` only; every other network
      takes three digits. */
  lemma FourDigitCvcOnlyAmex(cvc: string, cardType: string)
    requires IsValidCvc(cvc, cardType)
    ensures |cvc| == 4 ==> cardType == "amex"
    ensures cardType != "amex" ==> |cvc| == 3
  {
    CvcLengthsByNetwork();
  }

  /** "1234" passes for `amex` and fails for `visa`; "12a" fails for every
      type. */
  lemma CvcExamples(cardType: string)
    ensures IsValidCvc("1234", "amex")
    ensures !IsValidCvc("1234", "visa")
    ensures !IsValidCvc("12a", cardType)
  {
    CvcAmex();
    CvcVisa();
    CvcNonDigit(cardType);
  }

  /** "1234" is a valid `amex` code. */
  lemma CvcAmex()
    ensures IsValidCvc("1234", "amex")
  {
    assert AllDigits("1234");
    assert Cards[6].key == "amex" && 4 in Cards[6].cvcLengths;
  }

  /** "1234" is not a valid `visa` code. */
  lemma CvcVisa()
    ensures !IsValidCvc("1234", "visa")
  {
    CvcLengthsByNetwork();
  }

  /** "12a" is valid for no type. */
  lemma CvcNonDigit(cardType: string)
    ensures !IsValidCvc("12a", cardType)
  {
    assert !IsDigit("12a"[2]);
  }
}
