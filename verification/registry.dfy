/** The ordered table of card networks (`BankCard::$cards`) and the prefix
    patterns that decide membership. Every pattern of the table except
    `hipercard` is a left-anchored alternation of fixed-width character-class
    sequences, so it is written as the list of those sequences; `hipercard`
    is anchored at both ends and gets a whole-string predicate. */
module Registry {
  import opened Optional
  import opened Digits

  /** One alternative of a prefix pattern: position k of the input must hold
      a character of the k-th class. */
  type Alternative = seq<set<char>>

  datatype Pattern =
    | Prefixes(alternatives: seq<Alternative>)
    | HipercardPattern

  /** One network: its key, prefix pattern, allowed number lengths, allowed
      security-code lengths, and whether the Luhn check applies. */
  datatype CardRule = CardRule(
    key: string,
    pattern: Pattern,
    lengths: seq<nat>,
    cvcLengths: seq<nat>,
    luhn: bool
  )

  /** `s` starts with a character of each class of `alt`, in order. */
  predicate MatchesAlternative(s: string, alt: Alternative) {
    |alt| <= |s| && forall k :: 0 <= k < |alt| ==> s[k] in alt[k]
  }

  /** The `hipercard` pattern is anchored at both ends (its end anchor is
      written twice, which acts as once): the whole string must be 606282 or
      637568 followed by exactly ten digits, or 38 followed by 14 to 17
      digits. */
  predicate HipercardMatches(s: string) {
    || (|s| == 16 && (s[..6] == "606282" || s[..6] == "637568") && AllDigits(s[6..]))
    || (16 <= |s| <= 19 && s[..2] == "38" && AllDigits(s[2..]))
  }

  /** `preg_match($pattern, $s)` for the patterns of the table. */
  predicate Matches(s: string, p: Pattern) {
    match p
    case Prefixes(alts) => exists k :: 0 <= k < |alts| && MatchesAlternative(s, alts[k])
    case HipercardPattern => HipercardMatches(s)
  }

  /** The 31 alternatives of the `elo` pattern. */
  const EloAlternatives: seq<Alternative> := [
    [{'5'}, {'0'}, {'6'}, {'7'}, {'0'}, {'7', '8'}],                        // 50670[7-8]
    [{'5'}, {'0'}, {'6'}, {'7'}, {'1'}, {'5'}],                             // 506715
    [{'5'}, {'0'}, {'6'}, {'7'}, {'1'}, {'7', '8', '9'}],                   // 50671[7-9]
    [{'5'}, {'0'}, {'6'}, {'7'}, {'2'}, {'0', '1'}],                        // 50672[0-1]
    [{'5'}, {'0'}, {'6'}, {'7'}, {'2'}, {'4', '5', '6', '7', '8', '9'}],    // 50672[4-9]
    [{'5'}, {'0'}, {'6'}, {'7'}, {'3'}, {'0', '1', '2', '3'}],              // 50673[0-3]
    [{'5'}, {'0'}, {'6'}, {'7'}, {'3'}, {'9'}],                             // 506739
    [{'5'}, {'0'}, {'6'}, {'7'}, {'4'}, {'0', '1', '2', '3', '4', '5', '6', '7', '8'}], // 50674[0-8]
    [{'5'}, {'0'}, {'6'}, {'7'}, {'5'}, {'0', '1', '2', '3'}],              // 50675[0-3]
    [{'5'}, {'0'}, {'6'}, {'7'}, {'7'}, {'4', '5', '6', '7', '8'}],         // 50677[4-8]
    [{'5'}, {'0'}, {'9'}, {'0'}, {'0'}, {'0', '1', '2', '3', '4', '5', '6', '7', '8', '9'}], // 50900[0-9]
    [{'5'}, {'0'}, {'9'}, {'0'}, {'1'}, {'3', '4', '5', '6', '7', '8', '9'}], // 50901[3-9]
    [{'5'}, {'0'}, {'9'}, {'0'}, {'2'}, {'0', '1', '2', '3', '4', '5', '6', '7', '8', '9'}], // 50902[0-9]
    [{'5'}, {'0'}, {'9'}, {'0'}, {'3'}, {'1', '2', '3', '4', '5', '6', '7', '8', '9'}], // 50903[1-9]
    [{'5'}, {'0'}, {'9'}, {'0'}, {'4'}, {'0', '1', '2', '3', '4', '5', '6', '7', '8', '9'}], // 50904[0-9]
    [{'5'}, {'0'}, {'9'}, {'0'}, {'5'}, {'0', '1', '2', '3', '4', '5', '6', '7', '8', '9'}], // 50905[0-9]
    [{'5'}, {'0'}, {'9'}, {'0'}, {'6'}, {'0', '1', '2', '3', '4'}],         // 50906[0-4]
    [{'5'}, {'0'}, {'9'}, {'0'}, {'6'}, {'6', '7', '8', '9'}],              // 50906[6-9]
    [{'5'}, {'0'}, {'9'}, {'0'}, {'7'}, {'0', '1', '2'}],                   // 50907[0-2]
    [{'5'}, {'0'}, {'9'}, {'0'}, {'7'}, {'4', '5'}],                        // 50907[4-5]
    [{'6'}, {'3'}, {'6'}, {'3'}, {'6'}, {'8'}],                             // 636368
    [{'6'}, {'3'}, {'6'}, {'2'}, {'9'}, {'7'}],                             // 636297
    [{'5'}, {'0'}, {'4'}, {'1'}, {'7'}, {'5'}],                             // 504175
    [{'4'}, {'3'}, {'8'}, {'9'}, {'3'}, {'5'}],                             // 438935
    [{'4'}, {'0'}, {'1'}, {'1'}, {'7'}, {'8', '9'}],                        // 40117[8-9]
    [{'4'}, {'5'}, {'7'}, {'6'}, {'3'}, {'1', '2'}],                        // 45763[1-2]
    [{'4'}, {'5'}, {'7'}, {'3'}, {'9'}, {'3'}],                             // 457393
    [{'4'}, {'3'}, {'1'}, {'2'}, {'7'}, {'4'}],                             // 431274
    [{'5'}, {'0'}, {'9'}, {'0'}, {'7'}, {'6', '7', '8', '9'}],              // 50907[6-9]
    [{'5'}, {'0'}, {'9'}, {'0'}, {'8'}, {'0', '1', '2', '3', '4', '5', '6', '7', '8', '9'}], // 50908[0-9]
    [{'6'}, {'2'}, {'7'}, {'7'}, {'8'}, {'0'}]                              // 627780
  ]

  /** The sixteen networks in declaration order; detection takes the first
      whose pattern matches, so the order is part of the behaviour. */
  const Cards: seq<CardRule> := [
    // Debit cards
    CardRule(
      "visaelectron",
      Prefixes([
        [{'4'}, {'0'}, {'2'}, {'6'}],                                           // 4026
        [{'4'}, {'1'}, {'7'}, {'5'}, {'0'}, {'0'}],                             // 417500
        [{'4'}, {'4'}, {'0'}, {'5'}],                                           // 4405
        [{'4'}, {'5'}, {'0'}, {'8'}],                                           // 4508
        [{'4'}, {'8'}, {'4'}, {'4'}],                                           // 4844
        [{'4'}, {'9'}, {'1'}, {'3', '7'}]                                       // 491[37]
      ]),
      [16], [3], true),
    CardRule(
      "maestro",
      Prefixes([
        [{'5'}, {'0'}, {'1'}, {'8'}],                                           // 5018
        [{'5'}, {'0'}, {'2', '3'}],                                             // 50[23]
        [{'5'}, {'6', '8'}],                                                    // 5[68]
        [{'6'}, {'3'}, {'9'}],                                                  // 639
        [{'6'}, {'7'}]                                                          // 67
      ]),
      [12, 13, 14, 15, 16, 17, 18, 19], [3], true),
    CardRule(
      "forbrugsforeningen",
      Prefixes([
        [{'6'}, {'0'}, {'0'}]                                                   // 600
      ]),
      [16], [3], true),
    CardRule(
      "dankort",
      Prefixes([
        [{'5'}, {'0'}, {'1'}, {'9'}]                                            // 5019
      ]),
      [16], [3], true),
    // Credit cards
    CardRule(
      "visa",
      Prefixes([
        [{'4'}]                                                                 // 4
      ]),
      [13, 16], [3], true),
    CardRule(
      "mastercard",
      Prefixes([
        [{'5'}, {'0', '1', '2', '3', '4', '5'}],                                // 5[0-5]
        [{'2'}, {'2', '3', '4', '5', '6', '7'}]                                 // 2[2-7]
      ]),
      [16], [3], true),
    CardRule(
      "amex",
      Prefixes([
        [{'3'}, {'4', '7'}]                                                     // 3[47]
      ]),
      [15], [3, 4], true),
    CardRule(
      "dinersclub",
      Prefixes([
        [{'3'}, {'0', '6', '8', '9'}]                                           // 3[0689]
      ]),
      [14], [3], true),
    CardRule(
      "discover",
      Prefixes([
        [{'6'}, {'0', '4', '5'}],                                               // 6[045]
        [{'6'}, {'2'}, {'2'}]                                                   // 622
      ]),
      [16], [3], true),
    CardRule(
      "unionpay",
      Prefixes([
        [{'6'}, {'2'}],                                                         // 62
        [{'8'}, {'1'}]                                                          // 81
      ]),
      [16, 17, 18, 19], [3], false),
    CardRule(
      "jcb",
      Prefixes([
        [{'3'}, {'5'}]                                                          // 35
      ]),
      [16], [3], true),
    CardRule(
      "elo",
      Prefixes(EloAlternatives),
      [16], [3], true),
    CardRule(
      "hipercard",
      HipercardPattern,
      [13, 16, 19], [3], true),
    CardRule(
      "mir",
      Prefixes([
        [{'2'}, {'2'}, {'0'}, {'0', '1', '2', '3', '4'}]                        // 220[0-4]
      ]),
      [16], [3], true),
    CardRule(
      "uatp",
      Prefixes([
        [{'1'}]                                                                 // 1
      ]),
      [15], [3], true),
    CardRule(
      "rupay",
      Prefixes([
        [{'6'}, {'0'}],                                                         // 60
        [{'6'}, {'5'}, {'2'}, {'1'}],                                           // 6521
        [{'6'}, {'5'}, {'2'}, {'2'}]                                            // 6522
      ]),
      [16], [3], true)
  ]

  /** The keys of the table in declaration order. */
  const NetworkOrder: seq<string> := [
    "visaelectron", "maestro", "forbrugsforeningen", "dankort", "visa", "mastercard",
    "amex", "dinersclub", "discover", "unionpay", "jcb", "elo", "hipercard", "mir",
    "uatp", "rupay"
  ]

  /** The table holds sixteen networks, in this order and with these allowed
      number lengths. */
  lemma TableLayout()
    ensures |Cards| == |NetworkOrder| == 16
    ensures forall i :: 0 <= i < |Cards| ==> Cards[i].key == NetworkOrder[i]
    ensures Cards[0].lengths == [16] && Cards[1].lengths == [12, 13, 14, 15, 16, 17, 18, 19]
    ensures Cards[2].lengths == [16] && Cards[3].lengths == [16] && Cards[4].lengths == [13, 16]
    ensures Cards[5].lengths == [16] && Cards[6].lengths == [15] && Cards[7].lengths == [14]
    ensures Cards[8].lengths == [16] && Cards[9].lengths == [16, 17, 18, 19] && Cards[10].lengths == [16]
    ensures Cards[11].lengths == [16] && Cards[12].lengths == [13, 16, 19] && Cards[13].lengths == [16]
    ensures Cards[14].lengths == [15] && Cards[15].lengths == [16]
  {
  }

  /** A prefix pattern has no end anchor: a match is decided by the first
      characters alone and survives any text appended after them. */
  lemma PrefixMatchExtends(s: string, t: string, alts: seq<Alternative>)
    ensures forall k :: 0 <= k < |alts| ==>
              (MatchesAlternative(s, alts[k]) <==> |alts[k]| <= |s| && MatchesAlternative(s[..|alts[k]|], alts[k]))
    ensures Matches(s, Prefixes(alts)) ==> Matches(s + t, Prefixes(alts))
  {
    if Matches(s, Prefixes(alts)) {
      var k :| 0 <= k < |alts| && MatchesAlternative(s, alts[k]);
      assert forall j :: 0 <= j < |alts[k]| ==> (s + t)[j] == s[j];
      assert MatchesAlternative(s + t, alts[k]);
    }
  }

  /** The `hipercard` pattern is anchored at both ends: a match is a digit
      string of 16 to 19 characters, and appending a non-digit, or enough
      digits to pass 19 characters, breaks it. */
  lemma HipercardAnchoredAtBothEnds(s: string, t: string)
    ensures HipercardMatches(s) ==> AllDigits(s) && 16 <= |s| <= 19
    ensures HipercardMatches(s) && !AllDigits(t) ==> !HipercardMatches(s + t)
    ensures |s + t| > 19 ==> !HipercardMatches(s + t)
  {
    if HipercardMatches(s) {
      if s[..2] == "38" && 16 <= |s| <= 19 && AllDigits(s[2..]) {
        assert forall k :: 0 <= k < |s| ==> k < 2 || s[k] == s[2..][k - 2];
      } else {
        assert forall k :: 0 <= k < |s| ==> k < 6 || s[k] == s[6..][k - 6];
      }
      if !AllDigits(t) {
        var j :| 0 <= j < |t| && !IsDigit(t[j]);
        assert (s + t)[|s| + j] == t[j];
        assert !AllDigits(s + t);
        assert (s + t)[2..][|s| - 2 + j] == t[j];
        assert (s + t)[6..][|s| - 6 + j] == t[j];
      }
    }
  }

  /** The keys `array_key_exists` accepts are exactly those listed in
      `NetworkOrder`. */
  lemma KeysAreNetworkOrder(key: string)
    ensures IsKey(key) <==> key in NetworkOrder
  {
    TableLayout();
    if key in NetworkOrder {
      var i :| 0 <= i < |NetworkOrder| && NetworkOrder[i] == key;
      assert Cards[i].key == key;
    }
  }

  /** `key` names a network of the table (`array_key_exists`). */
  predicate IsKey(key: string) {
    exists i :: 0 <= i < |Cards| && Cards[i].key == key
  }

  /** The entry for `key` (`self::$cards[$type]`), if there is one. */
  function FindRule(key: string): (r: Option<CardRule>)
    ensures r.Some? <==> IsKey(key)
    ensures r.Some? ==> r.value.key == key && r.value in Cards
    ensures r.Some? ==> forall i :: 0 <= i < |Cards| && Cards[i].key == key ==> Cards[i] == r.value
  {
    KeysUnique();
    FindRuleFrom(key, 0)
  }

  function FindRuleFrom(key: string, start: nat): (r: Option<CardRule>)
    requires start <= |Cards|
    ensures r.Some? <==> exists i :: start <= i < |Cards| && Cards[i].key == key
    ensures r.Some? ==> exists i :: start <= i < |Cards| && Cards[i].key == key && Cards[i] == r.value
    decreases |Cards| - start
  {
    if start == |Cards| then None
    else if Cards[start].key == key then Some(Cards[start])
    else FindRuleFrom(key, start + 1)
  }

  /** Looking up the key of a network finds that very network. */
  lemma FindRuleAt(i: nat)
    requires i < |Cards|
    ensures FindRule(Cards[i].key) == Some(Cards[i])
  {
    KeysUnique();
  }

  /** No key is used for two networks. */
  lemma KeysUnique()
    ensures forall i, j :: 0 <= i < j < |Cards| ==> Cards[i].key != Cards[j].key
  {
  }

  /** Every network has a key of at least three characters (so never "" or
      "0"), at least one allowed number length and at least one allowed
      security-code length, all positive. */
  lemma RulesWellFormed()
    ensures forall i :: 0 <= i < |Cards| ==> |Cards[i].key| >= 3
    ensures forall i :: 0 <= i < |Cards| ==> |Cards[i].lengths| > 0 && |Cards[i].cvcLengths| > 0
    ensures forall i, k :: 0 <= i < |Cards| && 0 <= k < |Cards[i].lengths| ==> 12 <= Cards[i].lengths[k] <= 19
    ensures forall i, k :: 0 <= i < |Cards| && 0 <= k < |Cards[i].cvcLengths| ==> 3 <= Cards[i].cvcLengths[k] <= 4
  {
    forall i | 0 <= i < |Cards|
      ensures WellFormedRule(Cards[i])
    {
      if i < 8 {
        WellFormedBelow8(i);
      } else {
        WellFormedFrom8(i);
      }
    }
  }

  /** One network's part of `RulesWellFormed`. */
  predicate WellFormedRule(r: CardRule) {
    && |r.key| >= 3 && |r.lengths| > 0 && |r.cvcLengths| > 0
    && (forall k :: 0 <= k < |r.lengths| ==> 12 <= r.lengths[k] <= 19)
    && (forall k :: 0 <= k < |r.cvcLengths| ==> 3 <= r.cvcLengths[k] <= 4)
  }

  /** `WellFormedRule` for the first eight networks. */
  lemma WellFormedBelow8(i: nat)
    requires i < 8
    ensures WellFormedRule(Cards[i])
  {
  }

  /** `WellFormedRule` for the remaining networks. */
  lemma WellFormedFrom8(i: nat)
    requires 8 <= i < |Cards|
    ensures WellFormedRule(Cards[i])
  {
  }

  /** The key of one network has at least three characters. */
  lemma KeyLength(i: nat)
    requires i < |Cards|
    ensures |Cards[i].key| >= 3
  {
    RulesWellFormed();
  }

  /** The ten decimal digit characters. */
  const Decimal: set<char> := {'0', '1', '2', '3', '4', '5', '6', '7', '8', '9'}

  /** Every class of `alt` is a non-empty set of decimal digits. */
  predicate DigitClasses(alt: Alternative) {
    forall k :: 0 <= k < |alt| ==> alt[k] != {} && alt[k] <= Decimal
  }

  /** Apart from `hipercard`, every network has a prefix pattern whose first
      alternative is at most six classes of digits long. */
  lemma FirstAlternativeAt(i: nat)
    requires i < |Cards| && i != 12
    ensures Cards[i].pattern.Prefixes? && |Cards[i].pattern.alternatives| > 0
    ensures |Cards[i].pattern.alternatives[0]| <= 6
    ensures DigitClasses(Cards[i].pattern.alternatives[0])
  {
    if i < 8 {
      FirstAlternativeBelow8(i);
    } else {
      FirstAlternativeFrom8(i);
    }
  }

  /** `FirstAlternativeAt` for the first eight networks. */
  lemma FirstAlternativeBelow8(i: nat)
    requires i < 8
    ensures Cards[i].pattern.Prefixes? && |Cards[i].pattern.alternatives| > 0
    ensures |Cards[i].pattern.alternatives[0]| <= 6
    ensures DigitClasses(Cards[i].pattern.alternatives[0])
  {
  }

  /** `FirstAlternativeAt` for the remaining prefix-pattern networks. */
  lemma FirstAlternativeFrom8(i: nat)
    requires 8 <= i < |Cards| && i != 12
    ensures Cards[i].pattern.Prefixes? && |Cards[i].pattern.alternatives| > 0
    ensures |Cards[i].pattern.alternatives[0]| <= 6
    ensures DigitClasses(Cards[i].pattern.alternatives[0])
  {
  }

  /** A string spelled by picking one character from each class of `alt`. */
  ghost function Representative(alt: Alternative): (r: string)
    requires DigitClasses(alt)
    ensures |r| == |alt| && AllDigits(r)
    ensures forall k :: 0 <= k < |r| ==> r[k] in alt[k]
  {
    if |alt| == 0 then []
    else
      assert alt[0] != {};
      var c :| c in alt[0];
      assert c in Decimal;
      [c] + Representative(alt[1..])
  }

  /** `amex` accepts three- and four-digit codes, every other network
      three-digit codes only. */
  lemma CvcLengthsByNetwork()
    ensures forall i :: 0 <= i < |Cards| ==>
      Cards[i].cvcLengths == if Cards[i].key == "amex" then [3, 4] else [3]
  {
  }

  /** `unionpay` is the only network that skips the Luhn check. */
  lemma OnlyUnionpaySkipsLuhn()
    ensures forall i :: 0 <= i < |Cards| ==> (!Cards[i].luhn <==> Cards[i].key == "unionpay")
  {
  }
}
