/**
 * The privacy score of the backend: a profile starts at 100 and loses, for
 * every reported PII finding with a positive occurrence count,
 * weight(type) x occurrence multiplier x source multiplier.
 * Multipliers are exact reals; the result is not rounded and not clamped.
 */
module ExposureScore {

  /** One reported finding: a PII type key, a count and the profile surface it was seen on. */
  datatype PiiFinding = PiiFinding(piiType: string, occurrence: int, source: string)

  /** Severity weight per PII type (PII_WEIGHTS_BY_TYPE). */
  const TypeWeights: map<string, nat> := map[
    "credit_card" := 40, "social_security" := 40, "passport" := 40,
    "iban" := 35, "bank_account" := 35, "driving_license" := 35,
    "medical_info" := 30,
    "address" := 25, "coordinates" := 25, "financial_info" := 25,
    "phone" := 20, "sensitive_location" := 20,
    "email" := 15,
    "birth_date" := 10, "personal_info" := 10,
    "full_name" := 8, "sensitive_keyword" := 6,
    "ip_address" := 5, "mac_address" := 5
  ]

  /** Multiplier per source (PII_WEIGHTS_BY_SOURCE). */
  const SourceWeights: map<string, real> := map["post" := 1.0, "bio" := 1.2, "highlight" := 1.5]

  /** `PII_WEIGHTS_BY_TYPE.get(type, 0)` */
  function Weight(piiType: string): (w: nat)
    ensures piiType in TypeWeights ==> w == TypeWeights[piiType]
    ensures piiType !in TypeWeights ==> w == 0
    ensures w <= 40
  {
    if piiType in TypeWeights then TypeWeights[piiType] else 0
  }

  /** `PII_WEIGHTS_BY_SOURCE.get(source, 1)` */
  function SourceMultiplier(source: string): (m: real)
    ensures source !in SourceWeights ==> m == 1.0
    ensures 1.0 <= m <= 1.5
  {
    if source in SourceWeights then SourceWeights[source] else 1.0
  }

  /** `occurences_multiplier`: a step function of the count. */
  function OccurrenceMultiplier(occurrences: int): (m: real)
    ensures 1.0 <= m <= 1.5
  {
    if occurrences >= 5 then 1.5
    else if occurrences == 4 then 1.4
    else if occurrences == 3 then 1.3
    else if occurrences == 2 then 1.2
    else 1.0
  }

  /** The step function never decreases with the count. */
  lemma OccurrenceMultiplierMonotone(a: int, b: int)
    requires a <= b
    ensures OccurrenceMultiplier(a) <= OccurrenceMultiplier(b)
  {
  }

  /** `weight * occurrences_mult * source_mult` */
  function WeightedDeduction(weight: nat, occurrencesMult: real, sourceMult: real): real {
    weight as real * occurrencesMult * sourceMult
  }

  /** What one finding takes off the score: nothing unless its count is positive. */
  function Deduction(f: PiiFinding): real {
    if f.occurrence <= 0 then 0.0
    else WeightedDeduction(Weight(f.piiType), OccurrenceMultiplier(f.occurrence), SourceMultiplier(f.source))
  }

  /** A deduction is between 0 and 40 x 1.5 x 1.5 = 90, and 0 for an unknown type. */
  lemma DeductionBounds(f: PiiFinding)
    ensures 0.0 <= Deduction(f) <= 90.0
    ensures f.piiType !in TypeWeights ==> Deduction(f) == 0.0
  {
    if f.occurrence > 0 {
      WeightedDeductionBounds(Weight(f.piiType), OccurrenceMultiplier(f.occurrence), SourceMultiplier(f.source));
    }
  }

  lemma WeightedDeductionBounds(weight: nat, om: real, sm: real)
    requires weight <= 40 && 1.0 <= om <= 1.5 && 1.0 <= sm <= 1.5
    ensures 0.0 <= WeightedDeduction(weight, om, sm) <= 90.0
  {
    ProductBounds(weight as real, om, 40.0, 1.5);
    ProductBounds(weight as real * om, sm, 60.0, 1.5);
  }

  lemma ProductBounds(x: real, y: real, xMax: real, yMax: real)
    requires 0.0 <= x <= xMax && 0.0 <= y <= yMax
    ensures 0.0 <= x * y <= xMax * yMax
  {
    assert x * y <= xMax * y;
    assert xMax * y <= xMax * yMax;
  }

  /** The sum of all deductions, accumulated in list order. */
  function TotalDeduction(findings: seq<PiiFinding>): real {
    if findings == [] then 0.0
    else TotalDeduction(findings[..|findings| - 1]) + Deduction(findings[|findings| - 1])
  }

  /** The score `calculate_score` returns for a finding list. */
  function ScoreOf(findings: seq<PiiFinding>): real {
    100.0 - TotalDeduction(findings)
  }

  /** `calculate_score`: the loop over the findings, with its early return and `continue`. */
  method CalculateScore(findings: seq<PiiFinding>) returns (totalScore: real)
    ensures totalScore == ScoreOf(findings)
  {
    if |findings| == 0 {
      return 100.0;
    }
    totalScore := 100.0;
    for i := 0 to |findings|
      invariant totalScore == 100.0 - TotalDeduction(findings[..i])
    {
      assert findings[..i + 1][..i] == findings[..i];
      var item := findings[i];
      var weight := Weight(item.piiType);
      var occurrencesMult := OccurrenceMultiplier(item.occurrence);
      var sourceMult := SourceMultiplier(item.source);
      if item.occurrence <= 0 {
        continue;
      }
      var deduction := WeightedDeduction(weight, occurrencesMult, sourceMult);
      totalScore := totalScore - deduction;
    }
    assert findings[..|findings|] == findings;
  }

  // ---------------------------------------------------------------------
  // Properties of the score
  // ---------------------------------------------------------------------

  lemma {:induction false} TotalDeductionNonNegative(findings: seq<PiiFinding>)
    ensures TotalDeduction(findings) >= 0.0
  {
    if findings != [] {
      TotalDeductionNonNegative(findings[..|findings| - 1]);
      DeductionBounds(findings[|findings| - 1]);
    }
  }

  /** An empty list scores 100, and no list scores more. */
  lemma ScoreAtMostHundred(findings: seq<PiiFinding>)
    ensures ScoreOf([]) == 100.0
    ensures ScoreOf(findings) <= 100.0
  {
    TotalDeductionNonNegative(findings);
  }

  lemma {:induction false} TotalDeductionAppend(a: seq<PiiFinding>, b: seq<PiiFinding>)
    ensures TotalDeduction(a + b) == TotalDeduction(a) + TotalDeduction(b)
  {
    if b != [] {
      assert (a + b)[..|a + b| - 1] == a + b[..|b| - 1];
      TotalDeductionAppend(a, b[..|b| - 1]);
    } else {
      assert a + b == a;
    }
  }

  /** Findings with a non-positive count, unknown types included, change nothing. */
  lemma {:induction false} OnlyPositiveOccurrencesCount(findings: seq<PiiFinding>)
    requires forall i :: 0 <= i < |findings| ==> findings[i].occurrence <= 0
    ensures ScoreOf(findings) == 100.0
  {
    if findings != [] {
      OnlyPositiveOccurrencesCount(findings[..|findings| - 1]);
    }
  }

  /** The score does not depend on the order of the findings. */
  lemma {:induction false} ScorePermutationInvariant(a: seq<PiiFinding>, b: seq<PiiFinding>)
    requires multiset(a) == multiset(b)
    ensures ScoreOf(a) == ScoreOf(b)
    decreases |a|
  {
    if a != [] {
      var x := a[|a| - 1];
      var a' := a[..|a| - 1];
      assert x in multiset(b) by {
        assert a == a' + [x];
      }
      var j :| 0 <= j < |b| && b[j] == x;
      var b' := b[..j] + b[j + 1..];
      RemoveLastAndAt(a, b, j);
      ScorePermutationInvariant(a', b');
      TotalDeductionRemove(b, j);
    } else {
      assert b == [] by {
        assert |b| == |multiset(b)|;
      }
    }
  }

  /** Taking the last finding from one list and an equal one from a permutation of it leaves permutations. */
  lemma {:induction false} RemoveLastAndAt(a: seq<PiiFinding>, b: seq<PiiFinding>, j: int)
    requires multiset(a) == multiset(b) && a != [] && 0 <= j < |b| && b[j] == a[|a| - 1]
    ensures multiset(a[..|a| - 1]) == multiset(b[..j] + b[j + 1..])
  {
    var x := b[j];
    assert a == a[..|a| - 1] + [x];
    assert b == b[..j] + [x] + b[j + 1..];
    assert multiset(b) == multiset(b[..j]) + multiset{x} + multiset(b[j + 1..]);
    assert multiset(a) == multiset(a[..|a| - 1]) + multiset{x};
    assert multiset(b[..j] + b[j + 1..]) == multiset(b[..j]) + multiset(b[j + 1..]);
    assert multiset(a[..|a| - 1]) == multiset(a) - multiset{x};
    assert multiset(b[..j] + b[j + 1..]) == multiset(b) - multiset{x};
  }

  /** The deduction of a list is that of the list without one finding plus that finding's. */
  lemma {:induction false} TotalDeductionRemove(b: seq<PiiFinding>, j: int)
    requires 0 <= j < |b|
    ensures TotalDeduction(b) == TotalDeduction(b[..j] + b[j + 1..]) + Deduction(b[j])
  {
    var x := b[j];
    assert b == b[..j] + [x] + b[j + 1..];
    TotalDeductionAppend(b[..j] + [x], b[j + 1..]);
    TotalDeductionAppend(b[..j], [x]);
    TotalDeductionAppend(b[..j], b[j + 1..]);
    assert TotalDeduction([x]) == Deduction(x) by {
      assert [x][..0] == [];
    }
  }

  /** Reporting one more finding never raises the score. */
  lemma AppendNeverRaises(findings: seq<PiiFinding>, f: PiiFinding)
    ensures ScoreOf(findings + [f]) <= ScoreOf(findings)
    ensures f.occurrence <= 0 ==> ScoreOf(findings + [f]) == ScoreOf(findings)
  {
    assert (findings + [f])[..|findings|] == findings;
    DeductionBounds(f);
  }

  /** Each finding takes at most 90 points, so n findings leave at least 100 - 90n. */
  lemma {:induction false} ScoreLowerBound(findings: seq<PiiFinding>)
    ensures ScoreOf(findings) >= 100.0 - 90.0 * |findings| as real
  {
    if findings != [] {
      ScoreLowerBound(findings[..|findings| - 1]);
      DeductionBounds(findings[|findings| - 1]);
    }
  }

  // ---------------------------------------------------------------------
  // Concrete cases
  // ---------------------------------------------------------------------

  /** One credit card number, seen once in a post, scores exactly 60. */
  lemma OneCreditCardInPost()
    ensures ScoreOf([PiiFinding("credit_card", 1, "post")]) == 60.0
  {
    var l := [PiiFinding("credit_card", 1, "post")];
    assert l[..0] == [];
  }

  /** An e-mail address seen three times in highlights scores 70.75: no rounding. */
  lemma EmailThriceInHighlight()
    ensures ScoreOf([PiiFinding("email", 3, "highlight")]) == 70.75
  {
    var l := [PiiFinding("email", 3, "highlight")];
    assert l[..0] == [];
  }

  /** Three credit cards seen five times in highlights score -170: no floor at 0. */
  lemma ThreeCreditCardsGoNegative()
    ensures ScoreOf([PiiFinding("credit_card", 5, "highlight"), PiiFinding("credit_card", 5, "highlight"),
                     PiiFinding("credit_card", 5, "highlight")]) == -170.0
  {
    var f := PiiFinding("credit_card", 5, "highlight");
    var l := [f, f, f];
    assert l[..2] == [f, f] && [f, f][..1] == [f] && [f][..0] == [];
    assert Deduction(f) == 90.0;
    assert TotalDeduction([f]) == 90.0;
    assert TotalDeduction([f, f]) == 180.0;
  }

  /** An unknown type and an unknown source neither fail nor deduct on their own. */
  lemma UnknownTypeAndSource(occurrence: int, source: string)
    ensures ScoreOf([PiiFinding("unknown_type", occurrence, source)]) == 100.0
    ensures SourceMultiplier("story") == 1.0
  {
    var l := [PiiFinding("unknown_type", occurrence, source)];
    assert l[..0] == [];
    assert "unknown_type" !in TypeWeights;
    DeductionBounds(l[0]);
    assert Deduction(l[0]) == 0.0;
    assert TotalDeduction(l) == 0.0;
  }
}
