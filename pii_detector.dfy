/**
 * The browser extension's PII detector. For every entry of a fixed pattern
 * table (in table order) the regular-expression matches of the page text are
 * given as input; each match is trimmed, checked by its type's validator, and
 * kept unless an equal value was already kept.
 */
module PiiDetector {
  import opened Common

  /** The types of the pattern table, in table order. */
  const PatternTypes: seq<string> := [
    "credit_card", "phone", "email", "social_security", "id_card", "iban", "ip_address",
    "mac_address", "birth_date", "coordinates", "sensitive_location", "sensitive_keyword",
    "address", "personal_info", "passport", "driving_license", "bank_account", "medical_info",
    "financial_info", "full_name"
  ]

  /** One entry of the result list. */
  datatype PiiResult = PiiResult(piiType: string, value: string, source: string)

  /** One trimmed match, tagged with the type of the pattern that produced it. */
  datatype Candidate = Candidate(piiType: string, value: string)

  // ---------------------------------------------------------------------
  // Character classes and string clean-up
  // ---------------------------------------------------------------------

  /**
   * The characters the regular-expression class `\s` matches, which are also
   * the ones `String.prototype.trim` removes: ECMAScript WhiteSpace and LineTerminator.
   */
  predicate IsJsSpace(c: char) {
    var n := c as int;
    n == 0x09 || n == 0x0A || n == 0x0B || n == 0x0C || n == 0x0D || n == 0x20 || n == 0xA0
    || n == 0x1680 || (0x2000 <= n <= 0x200A) || n == 0x2028 || n == 0x2029 || n == 0x202F
    || n == 0x205F || n == 0x3000 || n == 0xFEFF
  }

  function TrimStart(s: string): (r: string)
    ensures r == [] || !IsJsSpace(r[0])
    ensures |r| <= |s|
  {
    if s != [] && IsJsSpace(s[0]) then TrimStart(s[1..]) else s
  }

  function TrimEnd(s: string): (r: string)
    ensures r == [] || !IsJsSpace(r[|r| - 1])
    ensures |r| <= |s|
    ensures r != [] ==> r[0] == s[0]
  {
    if s != [] && IsJsSpace(s[|s| - 1]) then TrimEnd(s[..|s| - 1]) else s
  }

  /** `String.prototype.trim` */
  function Trim(s: string): (r: string)
    ensures r == [] || (!IsJsSpace(r[0]) && !IsJsSpace(r[|r| - 1]))
  {
    TrimEnd(TrimStart(s))
  }

  lemma {:induction false} TrimStartIsSuffix(s: string)
    ensures TrimStart(s) == s[|s| - |TrimStart(s)|..]
    ensures forall k :: 0 <= k < |s| - |TrimStart(s)| ==> IsJsSpace(s[k])
  {
    if s != [] && IsJsSpace(s[0]) {
      TrimStartIsSuffix(s[1..]);
    }
  }

  lemma {:induction false} TrimEndIsPrefix(s: string)
    ensures TrimEnd(s) == s[..|TrimEnd(s)|]
    ensures forall k :: |TrimEnd(s)| <= k < |s| ==> IsJsSpace(s[k])
  {
    if s != [] && IsJsSpace(s[|s| - 1]) {
      TrimEndIsPrefix(s[..|s| - 1]);
    }
  }

  /** Trimming removes only white space, and only at the two ends. */
  lemma TrimIsSlice(s: string)
    ensures exists i, j :: TrimmedAt(s, i, j)
  {
    var t := TrimStart(s);
    TrimStartIsSuffix(s);
    TrimEndIsPrefix(t);
    var i := |s| - |t|;
    var j := i + |TrimEnd(t)|;
    assert t == s[i..];
    assert Trim(s) == s[i..j];
    forall k | j <= k < |s| ensures IsJsSpace(s[k]) {
      assert s[k] == t[k - i];
    }
    assert TrimmedAt(s, i, j);
  }

  /** `Trim(s)` is `s[i..j]`, and everything outside `i..j` is white space. */
  predicate TrimmedAt(s: string, i: int, j: int) {
    0 <= i <= j <= |s| && Trim(s) == s[i..j]
    && (forall k :: 0 <= k < i ==> IsJsSpace(s[k])) && (forall k :: j <= k < |s| ==> IsJsSpace(s[k]))
  }

  /** Trimming twice is trimming once. */
  lemma TrimIdempotent(s: string)
    ensures Trim(Trim(s)) == Trim(s)
  {
    var r := Trim(s);
    if r != [] {
      assert TrimStart(r) == r;
      assert TrimEnd(r) == r;
    }
  }

  /** `s.replace(/[...]/g, '')`: the characters of `s` that `drop` does not select, in order. */
  function Without(s: string, drop: char -> bool): (r: string)
    ensures |r| <= |s|
    ensures forall i :: 0 <= i < |r| ==> !drop(r[i])
  {
    Filter(s, (c: char) => !drop(c))
  }

  lemma WithoutAppend(a: string, b: string, drop: char -> bool)
    ensures Without(a + b, drop) == Without(a, drop) + Without(b, drop)
  {
    FilterAppend(a, b, (c: char) => !drop(c));
  }

  /** A string with no character to drop is kept whole. */
  lemma WithoutNone(s: string, drop: char -> bool)
    requires forall k :: 0 <= k < |s| ==> !drop(s[k])
    ensures Without(s, drop) == s
  {
    FilterAll(s, (c: char) => !drop(c));
  }

  /** Removing characters is blind to dropped characters inserted anywhere. */
  lemma WithoutIgnoresDropped(a: string, c: char, b: string, drop: char -> bool)
    requires drop(c)
    ensures Without(a + [c] + b, drop) == Without(a + b, drop)
  {
    WithoutAppend(a + [c], b, drop);
    WithoutAppend(a, [c], drop);
    WithoutAppend(a, b, drop);
    assert [c][..0] == [];
  }

  // ---------------------------------------------------------------------
  // isValidPhone
  // ---------------------------------------------------------------------

  predicate NotDigit(c: char) { !IsAsciiDigit(c) }

  /** `phoneStr.replace(/[^\d]/g, '')` */
  function DigitsOnly(s: string): string {
    Without(s, NotDigit)
  }

  predicate DateSeparator(c: char) { c == '/' || c == '.' }

  /** `/^\d{1,2}[\/.]\d{1,2}[\/.]\d{2,4}$/.test(t)`: i and j are the two separators. */
  predicate DateLike(t: string) {
    exists i, j | 1 <= i <= 2 && i + 2 <= j <= i + 3 && j + 3 <= |t| <= j + 5 ::
      AllDigits(t[..i]) && DateSeparator(t[i]) && AllDigits(t[i + 1..j]) && DateSeparator(t[j])
      && AllDigits(t[j + 1..])
  }

  /** `/^\d{1,3}\.\d+$/.test(t)`: i is the decimal point. */
  predicate DecimalLike(t: string) {
    exists i | 1 <= i <= 3 && i + 2 <= |t| :: AllDigits(t[..i]) && t[i] == '.' && AllDigits(t[i + 1..])
  }

  /** `isValidPhone`: 6 to 15 digits, and the trimmed text is neither a date nor a decimal number. */
  predicate IsValidPhone(phoneStr: string) {
    var digitsOnly := DigitsOnly(phoneStr);
    6 <= |digitsOnly| <= 15 && !DateLike(Trim(phoneStr)) && !DecimalLike(Trim(phoneStr))
  }

  /** Spaces, dashes, brackets or any other non-digit inserted anywhere leave the digits as they were. */
  lemma PhoneDigitsIgnoreNonDigits(a: string, c: char, b: string)
    requires !IsAsciiDigit(c)
    ensures DigitsOnly(a + [c] + b) == DigitsOnly(a + b)
  {
    WithoutIgnoresDropped(a, c, b, NotDigit);
  }

  /** Without a slash or a dot neither exclusion can apply, and the digit count alone decides. */
  lemma PhoneWithoutSeparators(phoneStr: string)
    requires forall k :: 0 <= k < |phoneStr| ==> !DateSeparator(phoneStr[k])
    ensures IsValidPhone(phoneStr) <==> 6 <= |DigitsOnly(phoneStr)| <= 15
  {
    TrimIsSlice(phoneStr);
    var i, j :| TrimmedAt(phoneStr, i, j);
    var t := Trim(phoneStr);
    assert forall k :: 0 <= k < |t| ==> t[k] == phoneStr[i + k];
    assert !DateLike(t);
    assert !DecimalLike(t);
  }

  /** A string of digits alone is a phone number exactly when it has 6 to 15 of them. */
  lemma PhoneOfDigits(s: string)
    requires AllDigits(s)
    ensures IsValidPhone(s) <==> 6 <= |s| <= 15
  {
    WithoutNone(s, NotDigit);
    PhoneWithoutSeparators(s);
  }

  /** A day/month/year date is not a phone number, although it has enough digits. */
  lemma DateIsNotPhone()
    ensures !IsValidPhone("12/05/2023")
  {
    var t := "12/05/2023";
    assert !IsJsSpace(t[0]) && !IsJsSpace(t[|t| - 1]);
    assert TrimStart(t) == t;
    assert TrimEnd(t) == t;
    assert AllDigits(t[..2]) && DateSeparator(t[2]) && AllDigits(t[3..5]) && DateSeparator(t[5]) && AllDigits(t[6..]);
    assert DateLike(t);
  }

  // ---------------------------------------------------------------------
  // isValidCreditCard
  // ---------------------------------------------------------------------

  predicate CardSeparator(c: char) { IsJsSpace(c) || c == '-' }

  /** `cardNumber.replace(/\s|-/g, '')` */
  function CardDigits(cardNumber: string): string {
    Without(cardNumber, CardSeparator)
  }

  /** `/^\d{13,19}$/.test(digits)` */
  predicate WellFormedCardDigits(digits: string) {
    13 <= |digits| <= 19 && AllDigits(digits)
  }

  /** What one digit adds to the Luhn sum: doubled digits above 9 lose 9. */
  function LuhnTerm(d: int, doubled: bool): int {
    if doubled then (if 2 * d > 9 then 2 * d - 9 else 2 * d) else d
  }

  /** The term of the digit at index k: every second digit counting from the right is doubled. */
  function LuhnTermAt(digits: string, k: int): int
    requires 0 <= k < |digits|
  {
    LuhnTerm(DigitValue(digits[k]), (|digits| - 1 - k) % 2 == 1)
  }

  /** The Luhn terms of the digits from index i to the end. */
  function LuhnSuffix(digits: string, i: int): int
    requires 0 <= i <= |digits|
    decreases |digits| - i
  {
    if i == |digits| then 0 else LuhnTermAt(digits, i) + LuhnSuffix(digits, i + 1)
  }

  function LuhnSum(digits: string): int {
    LuhnSuffix(digits, 0)
  }

  /** The Luhn check of a card number. */
  predicate CardValid(cardNumber: string) {
    var digits := CardDigits(cardNumber);
    WellFormedCardDigits(digits) && LuhnSum(digits) % 10 == 0
  }

  /** `isValidCreditCard`: the same check, with the loop from the last digit to the first. */
  method IsValidCreditCard(cardNumber: string) returns (valid: bool)
    ensures valid == CardValid(cardNumber)
  {
    var digits := CardDigits(cardNumber);
    if !WellFormedCardDigits(digits) {
      return false;
    }
    var sum := 0;
    var isEven := false;
    var i := |digits| - 1;
    while i >= 0
      invariant -1 <= i < |digits|
      invariant sum == LuhnSuffix(digits, i + 1)
      invariant isEven == ((|digits| - 1 - i) % 2 == 1)
    {
      var digit := DigitValue(digits[i]);
      if isEven {
        digit := digit * 2;
        if digit > 9 {
          digit := digit - 9;
        }
      }
      assert digit == LuhnTermAt(digits, i);
      ParityStep(|digits| - 1 - i);
      sum := sum + digit;
      isEven := !isEven;
      i := i - 1;
    }
    return sum % 10 == 0;
  }

  /** Moving one digit to the left flips whether it is doubled. */
  lemma ParityStep(n: int)
    ensures ((n + 1) % 2 == 1) == !(n % 2 == 1)
  {
  }

  /** Spaces and hyphens anywhere in a card number do not change the verdict. */
  lemma CardSeparatorsIgnored(a: string, c: char, b: string)
    requires CardSeparator(c)
    ensures CardValid(a + [c] + b) == CardValid(a + b)
  {
    WithoutIgnoresDropped(a, c, b, CardSeparator);
  }

  lemma LuhnTermDigit(d: int, doubled: bool)
    requires 0 <= d <= 9
    ensures 0 <= LuhnTerm(d, doubled) <= 9
  {
  }

  /** Two different digits have different terms, in either position. */
  lemma LuhnTermInjective(d: int, e: int, doubled: bool)
    requires 0 <= d <= 9 && 0 <= e <= 9 && d != e
    ensures LuhnTerm(d, doubled) != LuhnTerm(e, doubled)
  {
  }

  /** Replacing the digit at index k changes the sum of every suffix that contains k by exactly its term change. */
  lemma {:induction false} LuhnSuffixReplace(digits: string, k: int, c: char, i: int)
    requires 0 <= k < |digits| && 0 <= i <= |digits|
    ensures LuhnSuffix(digits[k := c], i) - LuhnSuffix(digits, i) ==
      if i <= k then LuhnTermAt(digits[k := c], k) - LuhnTermAt(digits, k) else 0
    decreases |digits| - i
  {
    if i < |digits| {
      LuhnSuffixReplace(digits, k, c, i + 1);
    }
  }

  /**
   * The Luhn check catches every single-digit error: if a digit string passes,
   * changing any one of its digits to another digit makes it fail.
   */
  lemma LuhnDetectsSingleDigitError(digits: string, k: int, c: char)
    requires AllDigits(digits) && 0 <= k < |digits|
    requires IsAsciiDigit(c) && c != digits[k]
    requires LuhnSum(digits) % 10 == 0
    ensures LuhnSum(digits[k := c]) % 10 != 0
  {
    var changed := digits[k := c];
    LuhnSuffixReplace(digits, k, c, 0);
    var doubled := (|digits| - 1 - k) % 2 == 1;
    var d, e := DigitValue(digits[k]), DigitValue(c);
    assert LuhnTermAt(digits, k) == LuhnTerm(d, doubled);
    assert LuhnTermAt(changed, k) == LuhnTerm(e, doubled);
    LuhnTermDigit(d, doubled);
    LuhnTermDigit(e, doubled);
    LuhnTermInjective(d, e, doubled);
    var delta := LuhnTerm(e, doubled) - LuhnTerm(d, doubled);
    assert -9 <= delta <= 9 && delta != 0;
    assert LuhnSum(changed) == LuhnSum(digits) + delta;
    NonZeroSmallShift(LuhnSum(digits), delta);
  }

  lemma NonZeroSmallShift(x: int, delta: int)
    requires x % 10 == 0 && -9 <= delta <= 9 && delta != 0
    ensures (x + delta) % 10 != 0
  {
    var q := x / 10;
    assert x == 10 * q;
    assert (x + delta) % 10 == (if delta > 0 then delta else delta + 10);
  }

  // ---------------------------------------------------------------------
  // isValidEmail and isValidIBAN
  // ---------------------------------------------------------------------

  predicate EmailLocalChar(c: char) {
    IsAsciiLetter(c) || IsAsciiDigit(c) || c == '.' || c == '_' || c == '%' || c == '+' || c == '-'
  }

  predicate EmailDomainChar(c: char) {
    IsAsciiLetter(c) || IsAsciiDigit(c) || c == '.' || c == '-'
  }

  /**
   * The address matches `/^[a-zA-Z0-9._%+-]+@[a-zA-Z0-9.-]+\.[a-zA-Z]{2,}$/`
   * with its `@` at `at` and the dot before the final letters at `dot`.
   */
  predicate EmailShape(email: string, at: int, dot: int) {
    0 < at && at + 1 < dot && dot + 3 <= |email|
    && (forall m | 0 <= m < at :: EmailLocalChar(email[m])) && email[at] == '@'
    && (forall m | at < m < dot :: EmailDomainChar(email[m])) && email[dot] == '.'
    && (forall m | dot < m < |email| :: IsAsciiLetter(email[m]))
  }

  /** `isValidEmail`: the regular expression matches the whole address. */
  predicate IsValidEmail(email: string) {
    exists at, dot | 0 < at && at + 1 < dot && dot + 3 <= |email| :: EmailShape(email, at, dot)
  }

  /** The one `@` of a matching address is the one at `at`. */
  lemma OnlyOneAtSign(email: string, at: int, dot: int, m: int)
    requires EmailShape(email, at, dot)
    requires 0 <= m < |email| && m != at
    ensures email[m] != '@'
  {
    if m < at {
      assert EmailLocalChar(email[m]);
    } else if m < dot {
      assert EmailDomainChar(email[m]);
    } else if m > dot {
      assert IsAsciiLetter(email[m]);
    }
  }

  /** An accepted address has exactly one `@` and ends in two or more letters. */
  lemma ValidEmailShape(email: string)
    requires IsValidEmail(email)
    ensures exists at | 0 <= at < |email| :: email[at] == '@' && forall m | 0 <= m < |email| && m != at :: email[m] != '@'
    ensures IsAsciiLetter(email[|email| - 1]) && IsAsciiLetter(email[|email| - 2])
  {
    var at, dot :| 0 < at && at + 1 < dot && dot + 3 <= |email| && EmailShape(email, at, dot);
    forall m | 0 <= m < |email| && m != at
      ensures email[m] != '@'
    {
      OnlyOneAtSign(email, at, dot, m);
    }
    assert IsAsciiLetter(email[|email| - 1]) && IsAsciiLetter(email[|email| - 2]);
  }

  predicate IbanSeparator(c: char) { IsJsSpace(c) || c == '-' }

  /** `isValidIBAN`: 15 to 34 characters once spaces and hyphens are removed. */
  predicate IsValidIBAN(iban: string) {
    var cleaned := Without(iban, IbanSeparator);
    15 <= |cleaned| <= 34
  }

  /** Spaces and hyphens anywhere in an IBAN do not change the verdict. */
  lemma IbanSeparatorsIgnored(a: string, c: char, b: string)
    requires IbanSeparator(c)
    ensures IsValidIBAN(a + [c] + b) == IsValidIBAN(a + b)
  {
    WithoutIgnoresDropped(a, c, b, IbanSeparator);
  }

  // ---------------------------------------------------------------------
  // The collection loop of detectPII
  // ---------------------------------------------------------------------

  /**
   * The validator switch. The `full_name` stop-word test is the parameter
   * `hasStopWord`; types without a validator always pass.
   */
  predicate PassesValidator(piiType: string, value: string, hasStopWord: string -> bool) {
    if piiType == "phone" then IsValidPhone(value)
    else if piiType == "credit_card" then CardValid(value)
    else if piiType == "email" then IsValidEmail(value)
    else if piiType == "iban" then IsValidIBAN(value)
    else if piiType == "full_name" then !hasStopWord(value)
    else true
  }

  /** The validator switch as a test on candidates. */
  function Validator(hasStopWord: string -> bool): Candidate -> bool {
    (c: Candidate) => PassesValidator(c.piiType, c.value, hasStopWord)
  }

  /** The `switch (type)` inside the loop of `detectPII`, calling the validator of each type. */
  method ValidatePII(piiType: string, cleanValue: string, hasStopWord: string -> bool) returns (isValid: bool)
    ensures isValid == PassesValidator(piiType, cleanValue, hasStopWord)
  {
    isValid := true;
    if piiType == "phone" {
      isValid := IsValidPhone(cleanValue);
    } else if piiType == "credit_card" {
      isValid := IsValidCreditCard(cleanValue);
    } else if piiType == "email" {
      isValid := IsValidEmail(cleanValue);
    } else if piiType == "iban" {
      isValid := IsValidIBAN(cleanValue);
    } else if piiType == "full_name" {
      isValid := !hasStopWord(cleanValue);
    }
  }

  /** The trimmed matches of one pattern, in match order. */
  function PatternCandidates(piiType: string, matches: seq<string>): (cs: seq<Candidate>)
    ensures |cs| == |matches|
  {
    if matches == [] then []
    else PatternCandidates(piiType, matches[..|matches| - 1]) + [Candidate(piiType, Trim(matches[|matches| - 1]))]
  }

  /** The candidates of the first n patterns, in pattern order and then match order. */
  function AllCandidates(matches: seq<seq<string>>, n: nat): seq<Candidate>
    requires n <= |matches| <= |PatternTypes|
  {
    if n == 0 then [] else AllCandidates(matches, n - 1) + PatternCandidates(PatternTypes[n - 1], matches[n - 1])
  }

  function ValuesOf(results: seq<PiiResult>): set<string> {
    set r | r in results :: r.value
  }

  lemma ValuesOfAppend(results: seq<PiiResult>, r: PiiResult)
    ensures ValuesOf(results + [r]) == ValuesOf(results) + {r.value}
  {
    assert forall x :: x in results + [r] <==> x in results || x == r;
  }

  /** What the loop has collected after the candidate list `cands`. */
  function Collect(cands: seq<Candidate>, source: string, valid: Candidate -> bool): seq<PiiResult> {
    if cands == [] then []
    else
      var prev := Collect(cands[..|cands| - 1], source, valid);
      var c := cands[|cands| - 1];
      if valid(c) && c.value !in ValuesOf(prev)
      then prev + [PiiResult(c.piiType, c.value, source)]
      else prev
  }

  /**
   * `detectPII` with the regular-expression matches given: `matches[p]` holds
   * what `text.match` returned for pattern p (no match is the empty list).
   */
  method DetectPII(matches: seq<seq<string>>, source: string, hasStopWord: string -> bool)
    returns (results: seq<PiiResult>)
    requires |matches| == |PatternTypes|
    ensures results == Collect(AllCandidates(matches, |matches|), source, Validator(hasStopWord))
  {
    results := [];
    var detectedValues: set<string> := {};
    for p := 0 to |PatternTypes|
      invariant results == Collect(AllCandidates(matches, p), source, Validator(hasStopWord))
      invariant detectedValues == ValuesOf(results)
    {
      results, detectedValues := DetectInPattern(PatternTypes[p], matches[p], source, hasStopWord,
                                                 AllCandidates(matches, p), results, detectedValues);
    }
  }

  /**
   * The body of the outer loop of `detectPII`: every match of one pattern is
   * trimmed, validated and added unless its value was already found.
   */
  method DetectInPattern(piiType: string, ms: seq<string>, source: string, hasStopWord: string -> bool,
                         ghost before: seq<Candidate>, results0: seq<PiiResult>, detected0: set<string>)
    returns (results: seq<PiiResult>, detectedValues: set<string>)
    requires results0 == Collect(before, source, Validator(hasStopWord))
    requires detected0 == ValuesOf(results0)
    ensures results == Collect(before + PatternCandidates(piiType, ms), source, Validator(hasStopWord))
    ensures detectedValues == ValuesOf(results)
  {
    ghost var valid := Validator(hasStopWord);
    results, detectedValues := results0, detected0;
    assert before + PatternCandidates(piiType, ms[..0]) == before;
    for m := 0 to |ms|
      invariant results == Collect(before + PatternCandidates(piiType, ms[..m]), source, valid)
      invariant detectedValues == ValuesOf(results)
    {
      var cleanValue := Trim(ms[m]);
      var isValid := ValidatePII(piiType, cleanValue, hasStopWord);
      assert isValid == valid(Candidate(piiType, cleanValue));
      DetectStep(before, piiType, ms, m, results, source, valid);
      if isValid && cleanValue !in detectedValues {
        ValuesOfAppend(results, PiiResult(piiType, cleanValue, source));
        results := results + [PiiResult(piiType, cleanValue, source)];
        detectedValues := detectedValues + {cleanValue};
      }
    }
    assert ms[..|ms|] == ms;
  }

  /** One iteration of the inner loop of `DetectPII`, on the specification side. */
  lemma {:induction false} DetectStep(before: seq<Candidate>, piiType: string, ms: seq<string>, m: int, results: seq<PiiResult>,
                   source: string, valid: Candidate -> bool)
    requires 0 <= m < |ms|
    requires results == Collect(before + PatternCandidates(piiType, ms[..m]), source, valid)
    ensures var c := Candidate(piiType, Trim(ms[m]));
      Collect(before + PatternCandidates(piiType, ms[..m + 1]), source, valid)
      == if valid(c) && c.value !in ValuesOf(results) then results + [PiiResult(c.piiType, c.value, source)] else results
  {
    var c := Candidate(piiType, Trim(ms[m]));
    var done := before + PatternCandidates(piiType, ms[..m]);
    assert before + PatternCandidates(piiType, ms[..m + 1]) == done + [c] by {
      PatternCandidatesStep(piiType, ms, m);
    }
    CollectStep(done, c, source, valid);
  }

  lemma {:induction false} PatternCandidatesStep(piiType: string, matches: seq<string>, m: int)
    requires 0 <= m < |matches|
    ensures PatternCandidates(piiType, matches[..m + 1])
      == PatternCandidates(piiType, matches[..m]) + [Candidate(piiType, Trim(matches[m]))]
  {
    assert matches[..m + 1][..m] == matches[..m];
  }

  lemma {:induction false} CollectStep(cands: seq<Candidate>, c: Candidate, source: string, valid: Candidate -> bool)
    ensures Collect(cands + [c], source, valid) ==
      var prev := Collect(cands, source, valid);
      if valid(c) && c.value !in ValuesOf(prev)
      then prev + [PiiResult(c.piiType, c.value, source)]
      else prev
  {
    assert (cands + [c])[..|cands|] == cands;
  }

  // ---------------------------------------------------------------------
  // Properties of the collected list
  // ---------------------------------------------------------------------

  /** The values of the candidates that passed their validator. */
  function ValidatedValues(cands: seq<Candidate>, valid: Candidate -> bool): set<string> {
    if cands == [] then {}
    else
      var c := cands[|cands| - 1];
      ValidatedValues(cands[..|cands| - 1], valid)
      + (if valid(c) then {c.value} else {})
  }

  lemma {:induction false} ValidatedValuesMembers(cands: seq<Candidate>, valid: Candidate -> bool, v: string)
    ensures v in ValidatedValues(cands, valid) <==>
      exists i :: 0 <= i < |cands| && valid(cands[i]) && cands[i].value == v
  {
    if cands != [] {
      var pre := cands[..|cands| - 1];
      ValidatedValuesMembers(pre, valid, v);
      if exists i :: 0 <= i < |cands| && valid(cands[i]) && cands[i].value == v {
        var i :| 0 <= i < |cands| && valid(cands[i]) && cands[i].value == v;
        if i < |pre| {
          assert pre[i] == cands[i];
        }
      }
      if exists i :: 0 <= i < |pre| && valid(pre[i]) && pre[i].value == v {
        var i :| 0 <= i < |pre| && valid(pre[i]) && pre[i].value == v;
        assert cands[i] == pre[i];
      }
    }
  }

  /** The values kept are exactly the values of the candidates that passed their validator. */
  lemma {:induction false} CollectValues(cands: seq<Candidate>, source: string, valid: Candidate -> bool)
    ensures ValuesOf(Collect(cands, source, valid)) == ValidatedValues(cands, valid)
  {
    if cands != [] {
      var pre := cands[..|cands| - 1];
      var c := cands[|cands| - 1];
      CollectValues(pre, source, valid);
      ValuesOfAppend(Collect(pre, source, valid), PiiResult(c.piiType, c.value, source));
    }
  }

  predicate DistinctValues(rs: seq<PiiResult>) {
    forall a, b :: 0 <= a < b < |rs| ==> rs[a].value != rs[b].value
  }

  /** No two results share a value. */
  lemma {:induction false} CollectDistinct(cands: seq<Candidate>, source: string, valid: Candidate -> bool)
    ensures DistinctValues(Collect(cands, source, valid))
  {
    if cands != [] {
      var pre := Collect(cands[..|cands| - 1], source, valid);
      var c := cands[|cands| - 1];
      CollectDistinct(cands[..|cands| - 1], source, valid);
      if valid(c) && c.value !in ValuesOf(pre) {
        var rs := pre + [PiiResult(c.piiType, c.value, source)];
        assert Collect(cands, source, valid) == rs;
        forall a, b | 0 <= a < b < |rs| ensures rs[a].value != rs[b].value {
          if b == |pre| {
            assert pre[a] in pre;
            assert pre[a].value in ValuesOf(pre);
          } else {
            assert rs[a] == pre[a] && rs[b] == pre[b];
          }
        }
      } else {
        assert Collect(cands, source, valid) == pre;
      }
    }
  }

  /** Every result carries the caller's source and a value that passed its type's validator. */
  lemma {:induction false} CollectSound(cands: seq<Candidate>, source: string, valid: Candidate -> bool)
    ensures forall r :: r in Collect(cands, source, valid) ==>
      r.source == source && valid(Candidate(r.piiType, r.value)) && Candidate(r.piiType, r.value) in cands
  {
    if cands != [] {
      CollectSound(cands[..|cands| - 1], source, valid);
    }
  }

  /** Candidate i is the first one, in list order, to validate with its value. */
  predicate FirstValidated(cands: seq<Candidate>, i: int, valid: Candidate -> bool)
    requires 0 <= i < |cands|
  {
    valid(cands[i])
    && forall j :: 0 <= j < i && valid(cands[j]) ==> cands[j].value != cands[i].value
  }

  /** The candidates that validate first with their value, in candidate order, as results. */
  function FirstValidatedResults(cands: seq<Candidate>, source: string, valid: Candidate -> bool): seq<PiiResult> {
    if cands == [] then []
    else
      FirstValidatedResults(cands[..|cands| - 1], source, valid)
      + (if FirstValidated(cands, |cands| - 1, valid)
         then [PiiResult(cands[|cands| - 1].piiType, cands[|cands| - 1].value, source)] else [])
  }

  /**
   * The loop keeps a candidate exactly when it is the first to validate with
   * its value, and keeps the results in pattern order, then match order: a
   * string matched by several types is kept under the first type that validated it.
   */
  lemma {:induction false} CollectIsFirstValidated(cands: seq<Candidate>, source: string, valid: Candidate -> bool)
    ensures Collect(cands, source, valid) == FirstValidatedResults(cands, source, valid)
  {
    if cands != [] {
      var pre := cands[..|cands| - 1];
      var c := cands[|cands| - 1];
      CollectIsFirstValidated(pre, source, valid);
      CollectValues(pre, source, valid);
      ValidatedValuesMembers(pre, valid, c.value);
      var seen := ValuesOf(Collect(pre, source, valid));
      if valid(c) {
        if c.value in seen {
          var j :| 0 <= j < |pre| && valid(pre[j]) && pre[j].value == c.value;
          assert cands[j] == pre[j];
          assert !FirstValidated(cands, |cands| - 1, valid);
        } else {
          forall j | 0 <= j < |cands| - 1 && valid(cands[j])
            ensures cands[j].value != c.value
          {
            assert cands[j] == pre[j];
          }
        }
      }
    }
  }

  /** The detector's results pairwise differ in value and each passed its validator. */
  lemma DetectPIIResults(matches: seq<seq<string>>, source: string, hasStopWord: string -> bool)
    requires |matches| == |PatternTypes|
    ensures var rs := Collect(AllCandidates(matches, |matches|), source, Validator(hasStopWord));
      DistinctValues(rs)
      && (forall r :: r in rs ==> r.source == source && PassesValidator(r.piiType, r.value, hasStopWord))
  {
    CollectDistinct(AllCandidates(matches, |matches|), source, Validator(hasStopWord));
    CollectSound(AllCandidates(matches, |matches|), source, Validator(hasStopWord));
  }
}
