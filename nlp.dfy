/** The pattern-matching intent parser used when no language model is
    configured (nlpService.js `parseIntentFallback`): an ordered cascade of
    substring tests on the lower-cased message, first match wins, and for
    funding, airtime and data a few regular-expression extractions. */
module Nlp {
  import opened Wrappers
  import opened Strings
  import opened Records
  import opened Intents

  // ---------------------------------------------------------------------
  // Regular-expression extractions. Each scans for the leftmost position
  // where its expression matches, as JavaScript's `String.prototype.match`
  // does for a pattern without the global flag.
  // ---------------------------------------------------------------------

  /** The longest run of digits starting at `i`. */
  function DigitRun(s: string, i: nat): (r: string)
    requires i <= |s|
    decreases |s| - i
    ensures i + |r| <= |s| && r == s[i..i + |r|] && AllDigits(r)
    ensures i + |r| == |s| || !IsDigit(s[i + |r|])
  {
    if i < |s| && IsDigit(s[i]) then [s[i]] + DigitRun(s, i + 1) else []
  }

  /** The number of white-space characters starting at `i` (`\s*`). */
  function SpaceRun(s: string, i: nat): (n: nat)
    requires i <= |s|
    decreases |s| - i
    ensures i + n <= |s| && (forall k | i <= k < i + n :: IsSpace(s[k]))
    ensures i + n == |s| || !IsSpace(s[i + n])
  {
    if i < |s| && IsSpace(s[i]) then 1 + SpaceRun(s, i + 1) else 0
  }

  /** The leftmost digit at or after `i`. */
  function FirstDigitFrom(s: string, i: nat): (r: Option<nat>)
    decreases |s| - i
    ensures r.Some? ==> i <= r.value < |s| && IsDigit(s[r.value])
    ensures r.Some? ==> forall k | i <= k < r.value :: !IsDigit(s[k])
    ensures r.None? ==> forall k | i <= k < |s| :: !IsDigit(s[k])
  {
    if i >= |s| then None else if IsDigit(s[i]) then Some(i) else FirstDigitFrom(s, i + 1)
  }

  /** `/₦?(\d+)/` followed by `parseInt` of the group: the value of the first
      run of digits. The optional `₦` moves where the match starts but not
      which digits the group holds. */
  function AmountIn(message: string): (r: Option<real>)
    ensures r.None? <==> forall k | 0 <= k < |message| :: !IsDigit(message[k])
    ensures r.Some? ==> exists i | 0 <= i < |message| ::
      && IsDigit(message[i]) && (forall k | 0 <= k < i :: !IsDigit(message[k]))
      && r.value == ParseDigits(DigitRun(message, i)) as real
  {
    match FirstDigitFrom(message, 0)
    case None => None
    case Some(i) => Some(ParseDigits(DigitRun(message, i)) as real)
  }

  predicate ElevenDigitsAt(s: string, i: nat) {
    i + 11 <= |s| && AllDigits(s[i..i + 11])
  }

  /** The leftmost eleven consecutive digits at or after `i`. */
  function FirstElevenDigitsFrom(s: string, i: nat): (r: Option<nat>)
    decreases |s| - i
    ensures r.Some? ==> i <= r.value && ElevenDigitsAt(s, r.value)
    ensures r.Some? ==> forall k | i <= k < r.value :: !ElevenDigitsAt(s, k)
    ensures r.None? ==> forall k | i <= k :: !ElevenDigitsAt(s, k)
  {
    if i + 11 > |s| then None
    else if ElevenDigitsAt(s, i) then Some(i)
    else FirstElevenDigitsFrom(s, i + 1)
  }

  /** `/(\d{11})/`: the first eleven consecutive digits, or null. */
  function PhoneIn(message: string): (r: Option<string>)
    ensures r.None? <==> forall k :: !ElevenDigitsAt(message, k)
    ensures r.Some? ==> |r.value| == 11 && AllDigits(r.value)
    ensures r.Some? ==> exists i: nat :: ElevenDigitsAt(message, i) && r.value == message[i..i + 11]
                                  && forall k | 0 <= k < i :: !ElevenDigitsAt(message, k)
  {
    match FirstElevenDigitsFrom(message, 0)
    case None => None
    case Some(i) => Some(message[i..i + 11])
  }

  /** The network name matched at `i` of the lower-cased text, upper-cased.
      The four alternatives begin with different characters, so at most one
      can match at a given position. */
  function NetworkAt(lower: string, i: nat): Option<string> {
    if OccursAt(lower, "mtn", i) then Some("MTN")
    else if OccursAt(lower, "airtel", i) then Some("AIRTEL")
    else if OccursAt(lower, "glo", i) then Some("GLO")
    else if OccursAt(lower, "9mobile", i) then Some("9MOBILE")
    else None
  }

  predicate IsNetworkName(n: string) {
    n == "MTN" || n == "AIRTEL" || n == "GLO" || n == "9MOBILE"
  }

  function FirstNetworkFrom(lower: string, i: nat): (r: Option<string>)
    decreases |lower| - i
    ensures r.Some? ==> IsNetworkName(r.value)
    ensures r.Some? ==> exists p | i <= p < |lower| :: NetworkAt(lower, p) == r
                                   && forall k | i <= k < p :: NetworkAt(lower, k).None?
    ensures r.None? ==> forall k | i <= k :: NetworkAt(lower, k).None?
  {
    if i >= |lower| then None
    else if NetworkAt(lower, i).Some? then NetworkAt(lower, i)
    else FirstNetworkFrom(lower, i + 1)
  }

  /** `/(mtn|airtel|glo|9mobile)/i` with the group upper-cased. Matching
      without regard to case is matching the lower-cased text. */
  function NetworkIn(message: string): Option<string> {
    FirstNetworkFrom(Lower(message), 0)
  }

  /** `(?:\.\d+)?` read greedily at `j`: a point and its digits when a digit
      follows the point, otherwise nothing. */
  function FractionAt(s: string, j: nat): (r: string)
    requires j <= |s|
    ensures j + |r| <= |s|
    ensures r == "" || (|r| > 1 && r[0] == '.' && AllDigits(r[1..]))
  {
    if j + 1 < |s| && s[j] == '.' && IsDigit(s[j + 1]) then
      var frac := DigitRun(s, j + 1);
      assert ("." + frac)[1..] == frac;
      "." + frac
    else ""
  }

  /** `\d+(?:\.\d+)?` read greedily at `i`: the digits, then a point and
      digits when a digit follows the point. */
  function NumberAt(s: string, i: nat): (r: string)
    requires i <= |s|
    ensures i + |r| <= |s|
  {
    var whole := DigitRun(s, i);
    whole + FractionAt(s, i + |whole|)
  }

  /** `\s*(gb|mb)` at `m` of the lower-cased text, as the upper-case unit. */
  function UnitAt(s: string, m: nat): Option<string>
    requires m <= |s|
  {
    var u := m + SpaceRun(s, m);
    if OccursAt(s, "gb", u) then Some("GB")
    else if OccursAt(s, "mb", u) then Some("MB")
    else None
  }

  /** `/(\d+(?:\.\d+)?)\s*(gb|mb)/i` tried at position `i` of the lower-cased
      text, rendered as the number followed by the upper-case unit. Each
      quantifier is followed by something its characters cannot start, so
      backtracking never finds a match the greedy reading misses. */
  function DataSizeAt(s: string, i: nat): Option<string> {
    if i < |s| && IsDigit(s[i]) then
      var number := NumberAt(s, i);
      match UnitAt(s, i + |number|)
      case Some(unit) => Some(number + unit)
      case None => None
    else None
  }

  /** The leftmost position at or after `i` where the data-size expression
      matches. */
  function FirstDataSizeFrom(s: string, i: nat): (r: Option<nat>)
    decreases |s| - i
    ensures r.Some? ==> i <= r.value < |s| && DataSizeAt(s, r.value).Some?
    ensures r.Some? ==> forall k | i <= k < r.value :: DataSizeAt(s, k).None?
    ensures r.None? ==> forall k | i <= k < |s| :: DataSizeAt(s, k).None?
  {
    if i >= |s| then None
    else if DataSizeAt(s, i).Some? then Some(i)
    else FirstDataSizeFrom(s, i + 1)
  }

  /** The first data size mentioned in the message, read without regard to
      case. */
  function DataSizeIn(message: string): Option<string> {
    var lower := Lower(message);
    match FirstDataSizeFrom(lower, 0)
    case None => None
    case Some(p) => DataSizeAt(lower, p)
  }

  /** A data size is digits, optionally a point and more digits, then `GB`
      or `MB`, with no space. */
  ghost predicate IsDataSizeToken(d: string) {
    exists n: string, f: string :: AllDigits(n) && |n| > 0
      && (f == "" || (|f| > 1 && f[0] == '.' && AllDigits(f[1..])))
      && (d == n + f + "GB" || d == n + f + "MB")
  }

  lemma DataSizeAtShape(s: string, i: nat)
    requires DataSizeAt(s, i).Some?
    ensures IsDataSizeToken(DataSizeAt(s, i).value)
  {
    NumberParts(s, i);
    var whole := DigitRun(s, i);
    var frac := FractionAt(s, i + |whole|);
    var unit := UnitAt(s, i + |NumberAt(s, i)|).value;
    TokenOf(whole, frac, unit);
  }

  lemma TokenOf(whole: string, frac: string, unit: string)
    requires AllDigits(whole) && |whole| > 0
    requires frac == "" || (|frac| > 1 && frac[0] == '.' && AllDigits(frac[1..]))
    requires unit == "GB" || unit == "MB"
    ensures IsDataSizeToken(whole + frac + unit)
  {
  }

  /** The number read at a digit is a non-empty digit run and a fraction. */
  lemma NumberParts(s: string, i: nat)
    requires i < |s| && IsDigit(s[i])
    ensures var whole := DigitRun(s, i);
      && |whole| > 0
      && NumberAt(s, i) == whole + FractionAt(s, i + |whole|)
  {
    assert DigitRun(s, i) == [s[i]] + DigitRun(s, i + 1);
  }

  /** Every data size the parser extracts has the normalised shape. */
  lemma DataSizeShape(message: string)
    requires DataSizeIn(message).Some?
    ensures IsDataSizeToken(DataSizeIn(message).value)
  {
    var lower := Lower(message);
    DataSizeAtShape(lower, FirstDataSizeFrom(lower, 0).value);
  }

  // ---------------------------------------------------------------------
  // The cascade.
  // ---------------------------------------------------------------------

  /** The keyword tests, in the order the source tries them. */
  function Cascade(lower: string): IntentTag {
    if Contains(lower, "balance") || Contains(lower, "check balance") then BalanceCheck
    else if Contains(lower, "fund") || Contains(lower, "add money") || Contains(lower, "top up") then WalletFund
    else if Contains(lower, "transaction") || Contains(lower, "history") || Contains(lower, "last") then Transactions
    else if Contains(lower, "monthly") || Contains(lower, "report") || Contains(lower, "summary") then MonthlyReport
    else if Contains(lower, "set pin") || Contains(lower, "new pin") then SetPin
    else if Contains(lower, "change pin") || Contains(lower, "reset pin") then ChangePin
    else if Contains(lower, "airtime") || Contains(lower, "recharge") then AirtimePurchase
    else if Contains(lower, "data") || Contains(lower, "gb") || Contains(lower, "mb") then DataPurchase
    else Unknown
  }

  /** The resolved intent for the tag the cascade chose. */
  function ParseIntentFallback(message: string): ResolvedIntent {
    var tag := Cascade(Lower(message));
    match tag
    case WalletFund =>
      ResolvedIntent(WalletFund, AmountIn(message), None, None, None, None)
    case AirtimePurchase =>
      ResolvedIntent(AirtimePurchase, AmountIn(message), NetworkIn(message), PhoneIn(message), Some(Airtime), None)
    case DataPurchase =>
      ResolvedIntent(DataPurchase, None, NetworkIn(message), PhoneIn(message), Some(Data), DataSizeIn(message))
    case _ => Bare(tag)
  }

  // ---------------------------------------------------------------------
  // An independent statement of the rule order as a table, and the
  // properties of the cascade.
  // ---------------------------------------------------------------------

  /** The keyword rules in the order they are tried. */
  const Rules: seq<(IntentTag, seq<string>)> := [
    (BalanceCheck, ["balance", "check balance"]),
    (WalletFund, ["fund", "add money", "top up"]),
    (Transactions, ["transaction", "history", "last"]),
    (MonthlyReport, ["monthly", "report", "summary"]),
    (SetPin, ["set pin", "new pin"]),
    (ChangePin, ["change pin", "reset pin"]),
    (AirtimePurchase, ["airtime", "recharge"]),
    (DataPurchase, ["data", "gb", "mb"])
  ]

  predicate MentionsAny(lower: string, words: seq<string>) {
    exists w | w in words :: Contains(lower, w)
  }

  /** The tag of the first rule from position `i` on one of whose keywords
      the text contains. */
  function FirstRuleFrom(lower: string, i: nat): IntentTag
    decreases |Rules| - i
  {
    if i >= |Rules| then Unknown
    else if MentionsAny(lower, Rules[i].1) then Rules[i].0
    else FirstRuleFrom(lower, i + 1)
  }

  lemma MentionsTwo(lower: string, a: string, b: string)
    ensures MentionsAny(lower, [a, b]) <==> Contains(lower, a) || Contains(lower, b)
  {
    if Contains(lower, a) { assert a in [a, b]; }
    if Contains(lower, b) { assert b in [a, b]; }
  }

  lemma MentionsThree(lower: string, a: string, b: string, c: string)
    ensures MentionsAny(lower, [a, b, c]) <==> Contains(lower, a) || Contains(lower, b) || Contains(lower, c)
  {
    if Contains(lower, a) { assert a in [a, b, c]; }
    if Contains(lower, b) { assert b in [a, b, c]; }
    if Contains(lower, c) { assert c in [a, b, c]; }
  }

  /** The cascade classifies a text exactly as the first matching rule of the
      table does, and `unknown` is what is left when none matches. */
  lemma CascadeIsFirstRule(lower: string)
    ensures Cascade(lower) == FirstRuleFrom(lower, 0)
  {
    MentionsTwo(lower, "balance", "check balance");
    MentionsThree(lower, "fund", "add money", "top up");
    MentionsThree(lower, "transaction", "history", "last");
    MentionsThree(lower, "monthly", "report", "summary");
    MentionsTwo(lower, "set pin", "new pin");
    MentionsTwo(lower, "change pin", "reset pin");
    MentionsTwo(lower, "airtime", "recharge");
    MentionsThree(lower, "data", "gb", "mb");
    assert FirstRuleFrom(lower, 8) == Unknown;
    assert FirstRuleFrom(lower, 7) == if MentionsAny(lower, Rules[7].1) then DataPurchase else Unknown;
    assert FirstRuleFrom(lower, 6) == if MentionsAny(lower, Rules[6].1) then AirtimePurchase else FirstRuleFrom(lower, 7);
    assert FirstRuleFrom(lower, 5) == if MentionsAny(lower, Rules[5].1) then ChangePin else FirstRuleFrom(lower, 6);
    assert FirstRuleFrom(lower, 4) == if MentionsAny(lower, Rules[4].1) then SetPin else FirstRuleFrom(lower, 5);
    assert FirstRuleFrom(lower, 3) == if MentionsAny(lower, Rules[3].1) then MonthlyReport else FirstRuleFrom(lower, 4);
    assert FirstRuleFrom(lower, 2) == if MentionsAny(lower, Rules[2].1) then Transactions else FirstRuleFrom(lower, 3);
    assert FirstRuleFrom(lower, 1) == if MentionsAny(lower, Rules[1].1) then WalletFund else FirstRuleFrom(lower, 2);
  }

  /** The parser's intent is the tag of the first matching rule. */
  lemma ClassifiedByFirstRule(message: string)
    ensures ParseIntentFallback(message).intent == FirstRuleFrom(Lower(message), 0)
  {
    CascadeIsFirstRule(Lower(message));
  }

  /** Only funding, airtime and data intents carry parameters; the others
      come back with all five parameters null. */
  lemma OnlyPurchasesCarryParameters(message: string)
    ensures var r := ParseIntentFallback(message);
      r.intent !in {WalletFund, AirtimePurchase, DataPurchase} ==> HasNoParameters(r)
  {
  }

  lemma SetPinInsideResetPin(lower: string)
    requires Contains(lower, "reset pin")
    ensures Contains(lower, "set pin")
  {
    assert OccursAt("reset pin", "set pin", 2);
    ContainsTransitive(lower, "reset pin", "set pin");
  }

  /** "reset pin" contains "set pin", which is tested first, so the second
      keyword of the `change_pin` rule can never decide: a `change_pin`
      result always means the text says "change pin". */
  lemma ChangePinNeedsChangePin(message: string)
    ensures ParseIntentFallback(message).intent == ChangePin ==> Contains(Lower(message), "change pin")
  {
    var lower := Lower(message);
    if Contains(lower, "reset pin") {
      SetPinInsideResetPin(lower);
    }
  }

  /** A message asking to reset the PIN, and matching none of the four rules
      tried before `set_pin`, is classified as `set_pin`. */
  lemma ResetPinIsSetPin(message: string)
    requires Contains(Lower(message), "reset pin")
    requires forall j | 0 <= j < 4 :: !MentionsAny(Lower(message), Rules[j].1)
    ensures ParseIntentFallback(message).intent == SetPin
  {
    var lower := Lower(message);
    SetPinInsideResetPin(lower);
    MentionsTwo(lower, "set pin", "new pin");
    assert !MentionsAny(lower, Rules[0].1) && !MentionsAny(lower, Rules[1].1);
    assert !MentionsAny(lower, Rules[2].1) && !MentionsAny(lower, Rules[3].1);
    CascadeIsFirstRule(lower);
  }

  /** The network parameter is always one of the four upper-case names. */
  lemma NetworkIsCanonical(message: string)
    ensures NetworkIn(message).Some? ==> IsNetworkName(NetworkIn(message).value)
  {
  }
}
