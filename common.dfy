/**
 * JavaScript idioms shared by the extension and the dashboard pages:
 * optional values, the `x || d` fallback, `Math.round(a / n)`, ASCII case
 * mapping, the "snake_case to Title Case" label, integer formatting with
 * template strings, and `Array.prototype.sort` (a stable sort) by an integer key.
 */
module Common {

  datatype Option<T> = None | Some(value: T)

  /** `x || 0` on an optional number: a missing value and 0 both give 0. */
  function OrZero(x: Option<int>): int {
    match x
    case None => 0
    case Some(v) => v
  }

  /** `x || 1` on an optional number: a missing value and 0 both give 1. */
  function OrOne(x: Option<int>): (r: int)
    ensures x.None? ==> r == 1
    ensures x.Some? && x.value == 0 ==> r == 1
    ensures x.Some? && x.value != 0 ==> r == x.value
  {
    match x
    case None => 1
    case Some(v) => if v == 0 then 1 else v
  }

  // ---------------------------------------------------------------------
  // Math.round(a / n)
  // ---------------------------------------------------------------------

  /**
   * `Math.round(a / n)` for integers `a` and `n > 0`: JavaScript rounds
   * halves towards +infinity, i.e. the result is floor(a / n + 1/2).
   * (Dafny's `/` on a positive divisor is the floor.)
   */
  function RoundedQuotient(a: int, n: int): (r: int)
    requires n > 0
    ensures 2 * n * r - n <= 2 * a < 2 * n * r + n
  {
    (2 * a + n) / (2 * n)
  }

  /** The rounded quotient is the only integer within half a unit of a / n. */
  lemma RoundedQuotientUnique(a: int, n: int, r: int)
    requires n > 0
    requires 2 * n * r - n <= 2 * a < 2 * n * r + n
    ensures r == RoundedQuotient(a, n)
  {
    var q := RoundedQuotient(a, n);
    assert 2 * n * (r - q) < 2 * n;
    assert 2 * n * (q - r) < 2 * n;
    FactorBelowOne(2 * n, r - q);
    FactorBelowOne(2 * n, q - r);
  }

  lemma FactorBelowOne(k: int, d: int)
    requires k > 0 && k * d < k
    ensures d <= 0
  {
    if d >= 1 {
      MulMonotone(k, 1, d);
    }
  }

  lemma MulMonotone(k: int, x: int, y: int)
    requires k >= 0 && x <= y
    ensures k * x <= k * y
  {
  }

  /** Rounding a mean stays within the bounds of the values averaged. */
  lemma RoundedQuotientBounds(a: int, n: int, lo: int, hi: int)
    requires n > 0
    requires n * lo <= a <= n * hi
    ensures lo <= RoundedQuotient(a, n) <= hi
  {
    var r := RoundedQuotient(a, n);
    if r < lo {
      MulMonotone(2 * n, r + 1, lo);
    }
    if r > hi {
      MulMonotone(2 * n, hi + 1, r);
    }
  }

  // ---------------------------------------------------------------------
  // Sums of `x || 0` and `x || 1`
  // ---------------------------------------------------------------------

  /** `xs.reduce((acc, x) => acc + (x || 0), 0)` */
  function SumOrZero(xs: seq<Option<int>>): int {
    if xs == [] then 0 else SumOrZero(xs[..|xs| - 1]) + OrZero(xs[|xs| - 1])
  }

  /** `xs.reduce((acc, x) => acc + (x || 1), 0)` */
  function SumOrOne(xs: seq<Option<int>>): int {
    if xs == [] then 0 else SumOrOne(xs[..|xs| - 1]) + OrOne(xs[|xs| - 1])
  }

  lemma {:induction false} SumOrZeroBounds(xs: seq<Option<int>>, lo: int, hi: int)
    requires forall i :: 0 <= i < |xs| ==> lo <= OrZero(xs[i]) <= hi
    ensures |xs| * lo <= SumOrZero(xs) <= |xs| * hi
  {
    if xs != [] {
      var n := |xs| - 1;
      SumOrZeroBounds(xs[..n], lo, hi);
      assert |xs| * lo == n * lo + lo && |xs| * hi == n * hi + hi;
    }
  }

  lemma {:induction false} SumOrOneAppend(a: seq<Option<int>>, b: seq<Option<int>>)
    ensures SumOrOne(a + b) == SumOrOne(a) + SumOrOne(b)
  {
    if b == [] {
      assert a + b == a;
    } else {
      assert (a + b)[..|a + b| - 1] == a + b[..|b| - 1];
      SumOrOneAppend(a, b[..|b| - 1]);
    }
  }

  /** With no negative counts, every item adds at least one. */
  lemma {:induction false} SumOrOneAtLeastLength(xs: seq<Option<int>>)
    requires forall i :: 0 <= i < |xs| ==> OrZero(xs[i]) >= 0
    ensures SumOrOne(xs) >= |xs|
  {
    if xs != [] {
      SumOrOneAtLeastLength(xs[..|xs| - 1]);
    }
  }

  /** A scan row as the server returns it; a missing score reads as 0 wherever `score || 0` is used. */
  datatype Scan = Scan(id: int, score: Option<int>)

  /** The scores of the scans, in order. */
  function Scores(scans: seq<Scan>): (r: seq<Option<int>>)
    ensures |r| == |scans| && forall i :: 0 <= i < |scans| ==> r[i] == scans[i].score
  {
    seq(|scans|, i requires 0 <= i < |scans| => scans[i].score)
  }

  /**
   * `Math.round(sum / count)` over `x || 0`, or 0 for an empty list: the
   * average score shown on the history page, the dashboard and per family member.
   */
  function MeanScore(scores: seq<Option<int>>): (r: int)
    ensures scores == [] ==> r == 0
    ensures scores != [] ==> 2 * |scores| * r - |scores| <= 2 * SumOrZero(scores) < 2 * |scores| * r + |scores|
  {
    if |scores| > 0 then RoundedQuotient(SumOrZero(scores), |scores|) else 0
  }

  /** A mean of scores in [lo, hi] lies in [lo, hi]. */
  lemma MeanScoreBounds(scores: seq<Option<int>>, lo: int, hi: int)
    requires scores != []
    requires forall i :: 0 <= i < |scores| ==> lo <= OrZero(scores[i]) <= hi
    ensures lo <= MeanScore(scores) <= hi
  {
    SumOrZeroBounds(scores, lo, hi);
    RoundedQuotientBounds(SumOrZero(scores), |scores|, lo, hi);
  }

  // ---------------------------------------------------------------------
  // Characters
  // ---------------------------------------------------------------------

  predicate IsAsciiDigit(c: char) { '0' <= c <= '9' }
  predicate IsAsciiLower(c: char) { 'a' <= c <= 'z' }
  predicate IsAsciiUpper(c: char) { 'A' <= c <= 'Z' }
  predicate IsAsciiLetter(c: char) { IsAsciiLower(c) || IsAsciiUpper(c) }

  /** The regular-expression class `\w` (without the `u` flag): [A-Za-z0-9_]. */
  predicate IsWordChar(c: char) { IsAsciiLetter(c) || IsAsciiDigit(c) || c == '_' }

  function UpperChar(c: char): (u: char)
    ensures IsAsciiLower(c) ==> IsAsciiUpper(u)
    ensures !IsAsciiLower(c) ==> u == c
  {
    if IsAsciiLower(c) then (c as int - 'a' as int + 'A' as int) as char else c
  }

  function LowerChar(c: char): (l: char)
    ensures IsAsciiUpper(c) ==> IsAsciiLower(l)
    ensures !IsAsciiUpper(c) ==> l == c
  {
    if IsAsciiUpper(c) then (c as int - 'A' as int + 'a' as int) as char else c
  }

  /** `String.prototype.toLowerCase`, restricted to the ASCII letters. */
  function ToLower(s: string): (r: string)
    ensures |r| == |s|
    ensures forall i :: 0 <= i < |s| ==> r[i] == LowerChar(s[i])
  {
    if s == [] then [] else ToLower(s[..|s| - 1]) + [LowerChar(s[|s| - 1])]
  }

  lemma ToLowerIdempotent(s: string)
    ensures ToLower(ToLower(s)) == ToLower(s)
  {
  }

  // ---------------------------------------------------------------------
  // type.replace(/_/g, ' ').replace(/\b\w/g, l => l.toUpperCase())
  // ---------------------------------------------------------------------

  /** `s.replace(/_/g, ' ')` */
  function SpaceUnderscores(s: string): (r: string)
    ensures |r| == |s|
    ensures forall i :: 0 <= i < |s| ==> r[i] == (if s[i] == '_' then ' ' else s[i])
  {
    if s == [] then [] else SpaceUnderscores(s[..|s| - 1]) + [if s[|s| - 1] == '_' then ' ' else s[|s| - 1]]
  }

  /**
   * `t.replace(/\b\w/g, l => l.toUpperCase())`, computed left to right:
   * `prevWord` says whether the character before `t` is a word character,
   * i.e. whether there is no word boundary in front of `t[0]`.
   */
  function CapitalizeFrom(t: string, prevWord: bool): string
    decreases |t|
  {
    if t == [] then []
    else [if prevWord then t[0] else UpperChar(t[0])] + CapitalizeFrom(t[1..], IsWordChar(t[0]))
  }

  /** The display label of a PII type key, e.g. "credit_card" becomes "Credit Card". */
  function TitleLabel(key: string): string {
    CapitalizeFrom(SpaceUnderscores(key), false)
  }

  /** A character starts a word when it is a word character not preceded by one. */
  predicate StartsWord(t: string, i: int)
    requires 0 <= i < |t|
  {
    IsWordChar(t[i]) && (i == 0 || !IsWordChar(t[i - 1]))
  }

  lemma {:induction false} CapitalizeFromAt(t: string, prevWord: bool, i: int)
    requires 0 <= i < |t|
    ensures |CapitalizeFrom(t, prevWord)| == |t|
    ensures CapitalizeFrom(t, prevWord)[i] ==
      if (if i == 0 then prevWord else IsWordChar(t[i - 1])) then t[i] else UpperChar(t[i])
  {
    if i > 0 {
      CapitalizeFromAt(t[1..], IsWordChar(t[0]), i - 1);
    } else {
      CapitalizeFromLength(t[1..], IsWordChar(t[0]));
    }
  }

  lemma {:induction false} CapitalizeFromLength(t: string, prevWord: bool)
    ensures |CapitalizeFrom(t, prevWord)| == |t|
  {
    if t != [] {
      CapitalizeFromLength(t[1..], IsWordChar(t[0]));
    }
  }

  /**
   * The label has the length of the key; an underscore becomes a space; the
   * first letter of every word is upper-cased; every other character is kept.
   */
  lemma TitleLabelAt(key: string, i: int)
    requires 0 <= i < |key|
    ensures |TitleLabel(key)| == |key|
    ensures key[i] == '_' ==> TitleLabel(key)[i] == ' '
    ensures key[i] != '_' && StartsWord(SpaceUnderscores(key), i) ==> TitleLabel(key)[i] == UpperChar(key[i])
    ensures key[i] != '_' && !StartsWord(SpaceUnderscores(key), i) ==> TitleLabel(key)[i] == key[i]
  {
    var t := SpaceUnderscores(key);
    CapitalizeFromAt(t, false, i);
    if key[i] != '_' && !StartsWord(t, i) {
      assert !IsWordChar(t[i]) ==> !IsAsciiLower(t[i]);
    }
  }

  /** For example, "iban" is labelled "Iban" and "a_b" is labelled "A B". */
  lemma TitleLabelExamples()
    ensures TitleLabel("iban") == "Iban"
    ensures TitleLabel("a_b") == "A B"
  {
    assert SpaceUnderscores("iban") == "iban";
    assert SpaceUnderscores("a_b") == "a b";
  }

  // ---------------------------------------------------------------------
  // Decimal numerals: `${n}` for a non-negative integer
  // ---------------------------------------------------------------------

  function DigitChar(d: int): (c: char)
    requires 0 <= d < 10
    ensures IsAsciiDigit(c)
  {
    ('0' as int + d) as char
  }

  function DigitValue(c: char): int {
    c as int - '0' as int
  }

  predicate AllDigits(s: string) {
    forall i :: 0 <= i < |s| ==> IsAsciiDigit(s[i])
  }

  /** The shortest decimal numeral of `n`, as a template string prints it. */
  function NatToString(n: nat): (s: string)
    ensures |s| > 0 && AllDigits(s)
  {
    if n < 10 then [DigitChar(n)] else NatToString(n / 10) + [DigitChar(n % 10)]
  }

  /** The value of a string of decimal digits. */
  function ParseDigits(s: string): int {
    if s == [] then 0 else 10 * ParseDigits(s[..|s| - 1]) + DigitValue(s[|s| - 1])
  }

  lemma {:induction false} ParseNatToString(n: nat)
    ensures ParseDigits(NatToString(n)) == n
  {
    if n >= 10 {
      var s := NatToString(n / 10) + [DigitChar(n % 10)];
      assert s[..|s| - 1] == NatToString(n / 10);
      ParseNatToString(n / 10);
    }
  }

  // ---------------------------------------------------------------------
  // Array.prototype.filter
  // ---------------------------------------------------------------------

  /** No string occurs twice. */
  predicate Distinct(s: seq<string>) {
    forall i, j :: 0 <= i < j < |s| ==> s[i] != s[j]
  }

  /** `s.filter(p)`: the elements satisfying `p`, in order. */
  function Filter<T>(s: seq<T>, p: T -> bool): (r: seq<T>)
    ensures |r| <= |s|
    ensures forall k :: 0 <= k < |r| ==> p(r[k])
  {
    if s == [] then [] else Filter(s[..|s| - 1], p) + (if p(s[|s| - 1]) then [s[|s| - 1]] else [])
  }

  /** An element is kept exactly when it is in the list and satisfies the predicate. */
  lemma {:induction false} FilterMembers<T>(s: seq<T>, p: T -> bool, x: T)
    ensures x in Filter(s, p) <==> x in s && p(x)
  {
    if s != [] {
      var pre := s[..|s| - 1];
      FilterMembers(pre, p, x);
      assert s == pre + [s[|s| - 1]];
    }
  }

  /** A list whose elements all satisfy the predicate passes unchanged. */
  lemma {:induction false} FilterAll<T>(s: seq<T>, p: T -> bool)
    requires forall k :: 0 <= k < |s| ==> p(s[k])
    ensures Filter(s, p) == s
  {
    if s != [] {
      FilterAll(s[..|s| - 1], p);
    }
  }

  lemma {:induction false} FilterAppend<T>(a: seq<T>, b: seq<T>, p: T -> bool)
    ensures Filter(a + b, p) == Filter(a, p) + Filter(b, p)
  {
    if b == [] {
      assert a + b == a;
    } else {
      assert (a + b)[..|a + b| - 1] == a + b[..|b| - 1];
      FilterAppend(a, b[..|b| - 1], p);
    }
  }

  /** Filtering by `p` and then by `q` is filtering by a predicate equivalent to both. */
  lemma {:induction false} FilterTwice<T>(s: seq<T>, p: T -> bool, q: T -> bool, both: T -> bool)
    requires forall x :: both(x) == (p(x) && q(x))
    ensures Filter(Filter(s, p), q) == Filter(s, both)
  {
    if s != [] {
      var pre := s[..|s| - 1];
      var last := s[|s| - 1];
      FilterTwice(pre, p, q, both);
      var f := Filter(pre, p);
      if p(last) {
        assert (f + [last])[..|f + [last]| - 1] == f;
      } else {
        assert f + [] == f;
      }
    }
  }

  // ---------------------------------------------------------------------
  // Array.prototype.sort with `(a, b) => key(a) - key(b)` (stable)
  // ---------------------------------------------------------------------

  /** Insert `x` in front of the first element whose key is not smaller. */
  function InsertByKey<T>(x: T, s: seq<T>, key: T -> int): seq<T> {
    if s == [] || key(x) <= key(s[0]) then [x] + s else [s[0]] + InsertByKey(x, s[1..], key)
  }

  /** A stable sort by ascending key. */
  function SortByKey<T>(s: seq<T>, key: T -> int): seq<T> {
    if s == [] then [] else InsertByKey(s[0], SortByKey(s[1..], key), key)
  }

  predicate SortedByKey<T>(s: seq<T>, key: T -> int) {
    forall i, j :: 0 <= i < j < |s| ==> key(s[i]) <= key(s[j])
  }

  lemma {:induction false} InsertByKeyPermutes<T>(x: T, s: seq<T>, key: T -> int)
    ensures multiset(InsertByKey(x, s, key)) == multiset(s) + multiset{x}
  {
    if s != [] && key(x) > key(s[0]) {
      InsertByKeyPermutes(x, s[1..], key);
      assert s == [s[0]] + s[1..];
    }
  }

  lemma {:induction false} InsertByKeyCorrect<T>(x: T, s: seq<T>, key: T -> int)
    requires SortedByKey(s, key)
    ensures SortedByKey(InsertByKey(x, s, key), key)
    ensures multiset(InsertByKey(x, s, key)) == multiset(s) + multiset{x}
  {
    InsertByKeyPermutes(x, s, key);
    if s != [] && key(x) > key(s[0]) {
      var t := InsertByKey(x, s[1..], key);
      InsertByKeyCorrect(x, s[1..], key);
      forall k | 0 <= k < |t| ensures key(s[0]) <= key(t[k]) {
        assert t[k] in multiset(t);
        if t[k] != x {
          assert t[k] in multiset(s[1..]);
          var m :| 0 <= m < |s[1..]| && s[1..][m] == t[k];
          assert s[m + 1] == t[k];
        }
      }
      assert InsertByKey(x, s, key) == [s[0]] + t;
    }
  }

  /** The sorted list is ordered by key and is a permutation of the input. */
  lemma {:induction false} SortByKeyCorrect<T>(s: seq<T>, key: T -> int)
    ensures SortedByKey(SortByKey(s, key), key)
    ensures multiset(SortByKey(s, key)) == multiset(s)
  {
    if s != [] {
      SortByKeyCorrect(s[1..], key);
      InsertByKeyCorrect(s[0], SortByKey(s[1..], key), key);
      assert s == [s[0]] + s[1..];
    }
  }
}
