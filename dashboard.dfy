/**
 * The interactive dashboard: the derived values it computes from the user's
 * scans and PII details (filters, headline statistics, per-category counts,
 * the family block) and the filter state its buttons change.
 * Date parsing and the time-period filter are not modelled: the scans are
 * given already filtered, newest first.
 */
module Dashboard {
  import opened Common

  // ---------------------------------------------------------------------
  // PII_CONFIG
  // ---------------------------------------------------------------------

  datatype RiskLevel = Critical | High | Medium | Low

  /** The string a risk filter button carries. */
  function RiskName(r: RiskLevel): string {
    match r
    case Critical => "critical"
    case High => "high"
    case Medium => "medium"
    case Low => "low"
  }

  datatype PiiConfig = PiiConfig(displayName: string, riskLevel: RiskLevel)

  /** The display name and risk level of every known PII type (icons and colours omitted). */
  const PiiConfigTable: map<string, PiiConfig> := map[
    "credit_card" := PiiConfig("Credit Card", Critical),
    "social_security" := PiiConfig("Social Security", Critical),
    "passport" := PiiConfig("Passport", Critical),
    "iban" := PiiConfig("IBAN", High),
    "bank_account" := PiiConfig("Bank Account", High),
    "driving_license" := PiiConfig("Driving License", High),
    "medical_info" := PiiConfig("Medical Info", Medium),
    "address" := PiiConfig("Address", Low),
    "coordinates" := PiiConfig("Coordinates", Medium),
    "financial_info" := PiiConfig("Financial Info", High),
    "phone" := PiiConfig("Phone Number", Low),
    "sensitive_location" := PiiConfig("Sensitive Location", Medium),
    "email" := PiiConfig("Email", Low),
    "birth_date" := PiiConfig("Birth Date", Medium),
    "personal_info" := PiiConfig("Personal Info", Low),
    "full_name" := PiiConfig("Full Name", Low),
    "sensitive_keyword" := PiiConfig("Sensitive Keyword", Medium),
    "ip_address" := PiiConfig("IP Address", Low),
    "mac_address" := PiiConfig("MAC Address", Low)
  ]

  // ---------------------------------------------------------------------
  // Records
  // ---------------------------------------------------------------------

  /** A PII detail row, with its optional type and occurrence count. */
  datatype PiiDetail = PiiDetail(piiType: Option<string>, occurrences: Option<int>)

  function Occurrences(details: seq<PiiDetail>): (r: seq<Option<int>>)
    ensures |r| == |details| && forall i :: 0 <= i < |details| ==> r[i] == details[i].occurrences
  {
    seq(|details|, i requires 0 <= i < |details| => details[i].occurrences)
  }

  lemma OccurrencesAppend(a: seq<PiiDetail>, b: seq<PiiDetail>)
    ensures Occurrences(a + b) == Occurrences(a) + Occurrences(b)
  {
  }

  /** `filteredPIIDetails.reduce((acc, pii) => acc + (pii.occurrences || 1), 0)` */
  function TotalPii(details: seq<PiiDetail>): int {
    SumOrOne(Occurrences(details))
  }

  lemma TotalPiiAppend(a: seq<PiiDetail>, b: seq<PiiDetail>)
    ensures TotalPii(a + b) == TotalPii(a) + TotalPii(b)
  {
    OccurrencesAppend(a, b);
    SumOrOneAppend(Occurrences(a), Occurrences(b));
  }

  lemma TotalPiiSingle(d: PiiDetail)
    ensures TotalPii([d]) == OrOne(d.occurrences)
  {
    var o := Occurrences([d]);
    assert o == [d.occurrences];
    assert o[..|o| - 1] == [];
    assert SumOrOne(o) == SumOrOne(o[..|o| - 1]) + OrOne(o[|o| - 1]);
  }

  /** `pii.pii_type?.toLowerCase() || ''` */
  function LowerType(d: PiiDetail): string {
    match d.piiType
    case None => ""
    case Some(t) => ToLower(t)
  }

  /** `PII_CONFIG[pii.pii_type?.toLowerCase() || '']` */
  function ConfigOf(d: PiiDetail): Option<PiiConfig> {
    if LowerType(d) in PiiConfigTable then Some(PiiConfigTable[LowerType(d)]) else None
  }

  // ---------------------------------------------------------------------
  // filteredPIIDetails
  // ---------------------------------------------------------------------

  /** A selected filter is applied only when it is a non-empty string. */
  predicate Active(filter: Option<string>) {
    filter.Some? && filter.value != ""
  }

  /** `pii.pii_type?.toLowerCase() === selectedCategory` */
  predicate InCategory(d: PiiDetail, category: string) {
    d.piiType.Some? && ToLower(d.piiType.value) == category
  }

  /** `config?.riskLevel === selectedRiskFilter` */
  predicate HasRisk(d: PiiDetail, riskFilter: string) {
    ConfigOf(d).Some? && RiskName(ConfigOf(d).value.riskLevel) == riskFilter
  }

  /** `filteredPIIDetails`: the category filter, then the risk filter. */
  function FilteredPiiDetails(all: seq<PiiDetail>, selectedCategory: Option<string>, selectedRiskFilter: Option<string>)
    : (filtered: seq<PiiDetail>)
    ensures |filtered| <= |all|
    ensures !Active(selectedCategory) && !Active(selectedRiskFilter) ==> filtered == all
  {
    var byCategory :=
      if Active(selectedCategory) then Filter(all, (d: PiiDetail) => InCategory(d, selectedCategory.value)) else all;
    if Active(selectedRiskFilter) then Filter(byCategory, (d: PiiDetail) => HasRisk(d, selectedRiskFilter.value))
    else byCategory
  }

  /** A detail is shown exactly when it is in the list and passes every active filter. */
  lemma FilteredPiiDetailsMembers(all: seq<PiiDetail>, selectedCategory: Option<string>,
                                  selectedRiskFilter: Option<string>, d: PiiDetail)
    ensures d in FilteredPiiDetails(all, selectedCategory, selectedRiskFilter) <==>
      d in all
      && (Active(selectedCategory) ==> InCategory(d, selectedCategory.value))
      && (Active(selectedRiskFilter) ==> HasRisk(d, selectedRiskFilter.value))
  {
    var byCategory := all;
    if Active(selectedCategory) {
      byCategory := Filter(all, (d: PiiDetail) => InCategory(d, selectedCategory.value));
      FilterMembers(all, (d: PiiDetail) => InCategory(d, selectedCategory.value), d);
    }
    if Active(selectedRiskFilter) {
      FilterMembers(byCategory, (d: PiiDetail) => HasRisk(d, selectedRiskFilter.value), d);
    }
  }

  /** The two filters commute: applying the risk filter first gives the same list. */
  lemma FiltersCommute(all: seq<PiiDetail>, category: string, risk: string)
    requires category != "" && risk != ""
    ensures FilteredPiiDetails(all, Some(category), Some(risk)) ==
      Filter(Filter(all, (d: PiiDetail) => HasRisk(d, risk)), (d: PiiDetail) => InCategory(d, category))
  {
    var both := (d: PiiDetail) => InCategory(d, category) && HasRisk(d, risk);
    FilterTwice(all, (d: PiiDetail) => InCategory(d, category), (d: PiiDetail) => HasRisk(d, risk), both);
    FilterTwice(all, (d: PiiDetail) => HasRisk(d, risk), (d: PiiDetail) => InCategory(d, category), both);
  }

  // ---------------------------------------------------------------------
  // stats
  // ---------------------------------------------------------------------

  /** The risk band of an average score, also used for each row of the recent-scans table. */
  function RiskBand(score: int): string {
    if score >= 80 then "Low" else if score >= 60 then "Moderate" else if score >= 40 then "High" else "Critical"
  }

  /** The bucket a detail counts towards: its type's risk level, or low for unknown types. */
  function Bucket(d: PiiDetail): RiskLevel {
    if ConfigOf(d).Some? then ConfigOf(d).value.riskLevel else Low
  }

  datatype RiskTally = RiskTally(critical: int, high: int, medium: int, low: int)

  function Add(t: RiskTally, level: RiskLevel, n: int): RiskTally {
    match level
    case Critical => t.(critical := t.critical + n)
    case High => t.(high := t.high + n)
    case Medium => t.(medium := t.medium + n)
    case Low => t.(low := t.low + n)
  }

  function Get(t: RiskTally, level: RiskLevel): int {
    match level
    case Critical => t.critical
    case High => t.high
    case Medium => t.medium
    case Low => t.low
  }

  /** What the counting loop has added up after the details `details`. */
  function TallyOf(details: seq<PiiDetail>): RiskTally {
    if details == [] then RiskTally(0, 0, 0, 0)
    else
      var d := details[|details| - 1];
      Add(TallyOf(details[..|details| - 1]), Bucket(d), OrOne(d.occurrences))
  }

  /** The `forEach` that adds each detail's `occurrences || 1` to one of four counters. */
  method CountByRisk(details: seq<PiiDetail>) returns (criticalPII: int, highPII: int, mediumPII: int, lowPII: int)
    ensures RiskTally(criticalPII, highPII, mediumPII, lowPII) == TallyOf(details)
  {
    criticalPII, highPII, mediumPII, lowPII := 0, 0, 0, 0;
    for i := 0 to |details|
      invariant RiskTally(criticalPII, highPII, mediumPII, lowPII) == TallyOf(details[..i])
    {
      assert details[..i + 1][..i] == details[..i];
      var config := ConfigOf(details[i]);
      var occurrences := OrOne(details[i].occurrences);
      if config.Some? && config.value.riskLevel == Critical {
        criticalPII := criticalPII + occurrences;
      } else if config.Some? && config.value.riskLevel == High {
        highPII := highPII + occurrences;
      } else if config.Some? && config.value.riskLevel == Medium {
        mediumPII := mediumPII + occurrences;
      } else {
        lowPII := lowPII + occurrences;
      }
    }
    assert details[..|details|] == details;
  }

  predicate InBucket(level: RiskLevel, d: PiiDetail) {
    Bucket(d) == level
  }

  /** Each counter holds exactly the `occurrences || 1` of the details of its bucket. */
  lemma {:induction false} TallyByBucket(details: seq<PiiDetail>, level: RiskLevel)
    ensures Get(TallyOf(details), level) == TotalPii(Filter(details, (d: PiiDetail) => InBucket(level, d)))
  {
    var p := (d: PiiDetail) => InBucket(level, d);
    if details != [] {
      var pre := details[..|details| - 1];
      var d := details[|details| - 1];
      TallyByBucket(pre, level);
      var kept := if Bucket(d) == level then [d] else [];
      assert Filter(details, p) == Filter(pre, p) + kept;
      TotalPiiAppend(Filter(pre, p), kept);
      TotalPiiSingle(d);
      AddGet(TallyOf(pre), Bucket(d), OrOne(d.occurrences), level);
    }
  }

  lemma AddGet(t: RiskTally, b: RiskLevel, n: int, level: RiskLevel)
    ensures Get(Add(t, b, n), level) == Get(t, level) + if b == level then n else 0
  {
  }

  function TallySum(t: RiskTally): int {
    t.critical + t.high + t.medium + t.low
  }

  lemma TallyStepSum(t: RiskTally, t': RiskTally, b: RiskLevel, n: int)
    requires t' == Add(t, b, n)
    ensures TallySum(t') == TallySum(t) + n
  {
  }

  /** The total of a non-empty list is that of all but its last detail plus the last one's. */
  lemma TotalPiiLast(details: seq<PiiDetail>)
    requires details != []
    ensures TotalPii(details) == TotalPii(details[..|details| - 1]) + OrOne(details[|details| - 1].occurrences)
  {
    var pre := details[..|details| - 1];
    var d := details[|details| - 1];
    assert details == pre + [d];
    TotalPiiAppend(pre, [d]);
    TotalPiiSingle(d);
  }

  /** The four counters add up to the total PII count. */
  lemma {:induction false} TallySumsToTotal(details: seq<PiiDetail>)
    ensures TallySum(TallyOf(details)) == TotalPii(details)
  {
    if details != [] {
      var pre := details[..|details| - 1];
      var d := details[|details| - 1];
      TallySumsToTotal(pre);
      TallyStepSum(TallyOf(pre), TallyOf(details), Bucket(d), OrOne(d.occurrences));
      TotalPiiLast(details);
    }
  }

  /** An unknown type counts as low risk, yet the "low" risk filter does not show it. */
  lemma UnknownTypeCountedLowButNotFiltered(d: PiiDetail)
    requires LowerType(d) !in PiiConfigTable
    ensures Bucket(d) == Low
    ensures !HasRisk(d, RiskName(Low))
  {
  }

  datatype Stats = Stats(totalScans: int, avgScore: int, lastScore: int, scoreChange: int, totalPII: int,
                         riskLevel: string, criticalPII: int, highPII: int, mediumPII: int, lowPII: int)

  /** `stats`, for the filtered scans newest first and the filtered PII details. */
  function StatsOf(scans: seq<Scan>, details: seq<PiiDetail>): Stats {
    if |scans| == 0 then Stats(0, 0, 0, 0, 0, "N/A", 0, 0, 0, 0)
    else
      var avgScore := MeanScore(Scores(scans));
      var lastScore := OrZero(scans[0].score);
      var previousScore := if |scans| > 1 && OrZero(scans[1].score) != 0 then OrZero(scans[1].score) else lastScore;
      var t := TallyOf(details);
      Stats(|scans|, avgScore, lastScore, lastScore - previousScore, TotalPii(details), RiskBand(avgScore),
            t.critical, t.high, t.medium, t.low)
  }

  /** Without scans every statistic is 0 and the risk level is "N/A", whatever the details. */
  lemma StatsWithoutScans(details: seq<PiiDetail>)
    ensures StatsOf([], details) == Stats(0, 0, 0, 0, 0, "N/A", 0, 0, 0, 0)
  {
  }

  /** With scans, the buckets add up to the total, and every counter is the bucket's own total. */
  lemma StatsBuckets(scans: seq<Scan>, details: seq<PiiDetail>)
    requires scans != []
    ensures var s := StatsOf(scans, details);
      s.criticalPII + s.highPII + s.mediumPII + s.lowPII == s.totalPII
      && s.criticalPII == TotalPii(Filter(details, (d: PiiDetail) => InBucket(Critical, d)))
      && s.lowPII == TotalPii(Filter(details, (d: PiiDetail) => InBucket(Low, d)))
  {
    TallySumsToTotal(details);
    TallyByBucket(details, Critical);
    TallyByBucket(details, Low);
  }

  /**
   * The change is the latest score minus the one before; it is 0 with a single
   * scan, and also when the second score is 0 or missing (`|| lastScore`).
   */
  lemma ScoreChange(scans: seq<Scan>, details: seq<PiiDetail>)
    requires scans != []
    ensures |scans| == 1 ==> StatsOf(scans, details).scoreChange == 0
    ensures |scans| > 1 && OrZero(scans[1].score) != 0 ==>
      StatsOf(scans, details).scoreChange == OrZero(scans[0].score) - OrZero(scans[1].score)
    ensures |scans| > 1 && OrZero(scans[1].score) == 0 ==> StatsOf(scans, details).scoreChange == 0
  {
  }

  /** Scores between 0 and 100 give an average between 0 and 100, in the band it names. */
  lemma StatsAverage(scans: seq<Scan>, details: seq<PiiDetail>)
    requires scans != []
    requires forall i :: 0 <= i < |scans| ==> 0 <= OrZero(scans[i].score) <= 100
    ensures 0 <= StatsOf(scans, details).avgScore <= 100
    ensures StatsOf(scans, details).riskLevel == RiskBand(StatsOf(scans, details).avgScore)
    ensures 2 * |scans| * StatsOf(scans, details).avgScore - |scans| <= 2 * SumOrZero(Scores(scans))
    ensures 2 * SumOrZero(Scores(scans)) < 2 * |scans| * StatsOf(scans, details).avgScore + |scans|
  {
    MeanScoreBounds(Scores(scans), 0, 100);
  }

  /** A higher score never lands in a riskier band. */
  lemma RiskBandMonotone(a: int, b: int)
    requires a <= b
    ensures BandRank(RiskBand(a)) <= BandRank(RiskBand(b))
  {
  }

  function BandRank(band: string): int {
    if band == "Critical" then 0 else if band == "High" then 1 else if band == "Moderate" then 2 else 3
  }

  // ---------------------------------------------------------------------
  // piiCategories
  // ---------------------------------------------------------------------

  /** `pii.pii_type?.toLowerCase() || 'unknown'` */
  function CategoryType(d: PiiDetail): string {
    if LowerType(d) == "" then "unknown" else LowerType(d)
  }

  /** One entry of `categoryCount`, in the object's insertion order. */
  datatype CategoryCount = CategoryCount(name: string, count: int)

  function IndexOfName(counts: seq<CategoryCount>, name: string): (i: nat)
    ensures i <= |counts|
    ensures i < |counts| ==> counts[i].name == name
    ensures forall k :: 0 <= k < i ==> counts[k].name != name
  {
    if counts == [] then 0 else if counts[0].name == name then 0 else 1 + IndexOfName(counts[1..], name)
  }

  /** `categoryCount[name] = (categoryCount[name] || 0) + n` on an insertion-ordered dictionary. */
  function Bump(counts: seq<CategoryCount>, name: string, n: int): seq<CategoryCount> {
    var i := IndexOfName(counts, name);
    if i < |counts| then counts[i := CategoryCount(name, counts[i].count + n)] else counts + [CategoryCount(name, n)]
  }

  /** The dictionary after the details `details`. */
  function CategoryCounts(details: seq<PiiDetail>): seq<CategoryCount> {
    if details == [] then []
    else
      var d := details[|details| - 1];
      Bump(CategoryCounts(details[..|details| - 1]), CategoryType(d), OrOne(d.occurrences))
  }

  /** The entries of a dictionary with keys `keys`, in that order. */
  function Entries(keys: seq<string>, m: map<string, int>): (r: seq<CategoryCount>)
    ensures |r| == |keys|
    ensures forall i :: 0 <= i < |keys| ==> r[i] == CategoryCount(keys[i], if keys[i] in m then m[keys[i]] else 0)
  {
    seq(|keys|, i requires 0 <= i < |keys| => CategoryCount(keys[i], if keys[i] in m then m[keys[i]] else 0))
  }

  /**
   * The `forEach` that fills `categoryCount`: the dictionary is `categoryCount`
   * together with `keys`, its insertion order, which `Object.entries` follows.
   */
  method CountCategories(details: seq<PiiDetail>) returns (keys: seq<string>, categoryCount: map<string, int>)
    ensures Entries(keys, categoryCount) == CategoryCounts(details)
    ensures Distinct(keys) && categoryCount.Keys == set k | k in keys
    ensures forall k :: k in categoryCount ==>
      categoryCount[k] == TotalPii(Filter(details, (d: PiiDetail) => CategoryType(d) == k))
  {
    keys := [];
    categoryCount := map[];
    for i := 0 to |details|
      invariant Distinct(keys)
      invariant forall k :: k in categoryCount <==> k in keys
      invariant Entries(keys, categoryCount) == CategoryCounts(details[..i])
    {
      assert details[..i + 1][..i] == details[..i];
      var piiType := CategoryType(details[i]);
      var occurrences := OrOne(details[i].occurrences);
      CountStep(keys, categoryCount, piiType, occurrences);
      if piiType in categoryCount {
        categoryCount := categoryCount[piiType := categoryCount[piiType] + occurrences];
      } else {
        keys := keys + [piiType];
        categoryCount := categoryCount[piiType := 0 + occurrences];
      }
    }
    assert details[..|details|] == details;
    EntriesHoldTotals(keys, categoryCount, details);
  }

  /** A dictionary whose entries are those of the details holds each category's total. */
  lemma EntriesHoldTotals(keys: seq<string>, m: map<string, int>, details: seq<PiiDetail>)
    requires forall k :: k in m <==> k in keys
    requires Entries(keys, m) == CategoryCounts(details)
    ensures forall k :: k in m ==> m[k] == TotalPii(Filter(details, (d: PiiDetail) => CategoryType(d) == k))
  {
    CategoryCountsExact(details);
    forall k | k in m
      ensures m[k] == TotalPii(Filter(details, (d: PiiDetail) => CategoryType(d) == k))
    {
      var j :| 0 <= j < |keys| && keys[j] == k;
      assert Entries(keys, m)[j] == CategoryCount(k, m[k]);
    }
  }

  /** One step of `CountCategories` agrees with `Bump`. */
  lemma CountStep(keys: seq<string>, m: map<string, int>, key: string, n: int)
    requires Distinct(keys)
    requires forall k :: k in m <==> k in keys
    ensures key in m ==> Entries(keys, m[key := m[key] + n]) == Bump(Entries(keys, m), key, n)
    ensures key !in m ==> Entries(keys + [key], m[key := 0 + n]) == Bump(Entries(keys, m), key, n)
  {
    var e := Entries(keys, m);
    var i := IndexOfName(e, key);
    if key in m {
      var j :| 0 <= j < |keys| && keys[j] == key;
      assert e[j].name == key;
      assert i == j;
      var l := Entries(keys, m[key := m[key] + n]);
      var r := Bump(e, key, n);
      forall k | 0 <= k < |keys| ensures l[k] == r[k] {
        if k != j {
          assert keys[k] != key;
        }
      }
    } else {
      assert i == |e|;
      var l := Entries(keys + [key], m[key := 0 + n]);
      var r := Bump(e, key, n);
      forall k | 0 <= k < |keys| + 1 ensures l[k] == r[k] {
        if k < |keys| {
          assert keys[k] != key;
        }
      }
    }
  }

  function Names(counts: seq<CategoryCount>): (r: seq<string>)
    ensures |r| == |counts| && forall i :: 0 <= i < |counts| ==> r[i] == counts[i].name
  {
    seq(|counts|, i requires 0 <= i < |counts| => counts[i].name)
  }

  function SumCounts(counts: seq<CategoryCount>): int {
    if counts == [] then 0 else counts[0].count + SumCounts(counts[1..])
  }

  lemma {:induction false} SumCountsBump(counts: seq<CategoryCount>, name: string, n: int)
    ensures SumCounts(Bump(counts, name, n)) == SumCounts(counts) + n
  {
    if counts != [] {
      if counts[0].name != name {
        SumCountsBump(counts[1..], name, n);
        assert Bump(counts, name, n) == [counts[0]] + Bump(counts[1..], name, n);
      } else {
        assert Bump(counts, name, n)[1..] == counts[1..];
      }
    } else {
      assert Bump(counts, name, n) == [CategoryCount(name, n)];
    }
  }

  lemma NamesBump(counts: seq<CategoryCount>, name: string, n: int)
    ensures IndexOfName(counts, name) < |counts| ==> Names(Bump(counts, name, n)) == Names(counts)
    ensures IndexOfName(counts, name) == |counts| ==> Names(Bump(counts, name, n)) == Names(counts) + [name]
    ensures IndexOfName(counts, name) < |counts| <==> name in Names(counts)
  {
    var i := IndexOfName(counts, name);
    if i == |counts| {
      assert forall k :: 0 <= k < |counts| ==> Names(counts)[k] != name;
    } else {
      assert Names(counts)[i] == name;
    }
  }

  /** One entry per distinct category of the details, in order of first appearance. */
  lemma {:induction false} CategoryNamesDistinct(details: seq<PiiDetail>)
    ensures Distinct(Names(CategoryCounts(details)))
  {
    if details != [] {
      var pre := details[..|details| - 1];
      var d := details[|details| - 1];
      CategoryNamesDistinct(pre);
      NamesBump(CategoryCounts(pre), CategoryType(d), OrOne(d.occurrences));
    }
  }

  /** Some element of `s` is mapped to `name` by `f`. */
  predicate SomeMapsTo<T>(s: seq<T>, f: T -> string, name: string) {
    exists i :: 0 <= i < |s| && f(s[i]) == name
  }

  /** Some detail has category `name`. */
  predicate HasCategory(details: seq<PiiDetail>, name: string) {
    SomeMapsTo(details, CategoryType, name)
  }

  lemma SomeMapsToStep<T>(s: seq<T>, f: T -> string, name: string)
    requires s != []
    ensures SomeMapsTo(s, f, name) <==> SomeMapsTo(s[..|s| - 1], f, name) || f(s[|s| - 1]) == name
  {
    var pre := s[..|s| - 1];
    if SomeMapsTo(pre, f, name) {
      var i :| 0 <= i < |pre| && f(pre[i]) == name;
      assert s[i] == pre[i];
    }
    if SomeMapsTo(s, f, name) {
      var i :| 0 <= i < |s| && f(s[i]) == name;
      if i < |pre| {
        assert pre[i] == s[i];
      }
    }
  }

  /** The entries name exactly the categories of the details. */
  lemma {:induction false} CategoryNamesExact(details: seq<PiiDetail>, name: string)
    ensures name in Names(CategoryCounts(details)) <==> HasCategory(details, name)
  {
    if details != [] {
      var pre := details[..|details| - 1];
      var d := details[|details| - 1];
      CategoryNamesExact(pre, name);
      NamesBump(CategoryCounts(pre), CategoryType(d), OrOne(d.occurrences));
      SomeMapsToStep(details, CategoryType, name);
    }
  }

  /** The counts add up to the total PII count. */
  lemma {:induction false} CategoryCountsSum(details: seq<PiiDetail>)
    ensures SumCounts(CategoryCounts(details)) == TotalPii(details)
  {
    if details != [] {
      var pre := details[..|details| - 1];
      var d := details[|details| - 1];
      CategoryCountsSum(pre);
      SumCountsBump(CategoryCounts(pre), CategoryType(d), OrOne(d.occurrences));
      assert details == pre + [d];
      TotalPiiAppend(pre, [d]);
      TotalPiiSingle(d);
    }
  }

  /** `categoryCount[name] || 0` */
  function CountOf(counts: seq<CategoryCount>, name: string): int {
    var i := IndexOfName(counts, name);
    if i < |counts| then counts[i].count else 0
  }

  /** The first entry named `name` is at index j. */
  lemma IndexOfNameIs(counts: seq<CategoryCount>, name: string, j: int)
    requires 0 <= j <= |counts|
    requires j < |counts| ==> counts[j].name == name
    requires forall k :: 0 <= k < j ==> counts[k].name != name
    ensures IndexOfName(counts, name) == j
  {
  }

  /** One update adds `n` to the count of its own name and leaves every other count as it was. */
  lemma CountOfBump(counts: seq<CategoryCount>, key: string, n: int, name: string)
    ensures CountOf(Bump(counts, key, n), name) == CountOf(counts, name) + if key == name then n else 0
  {
    var i := IndexOfName(counts, key);
    var j := IndexOfName(counts, name);
    var bumped := Bump(counts, key, n);
    if i < |counts| {
      assert |bumped| == |counts|;
      assert forall k :: 0 <= k < |counts| ==> bumped[k].name == counts[k].name;
      IndexOfNameIs(bumped, name, j);
    } else if key == name {
      IndexOfNameIs(bumped, name, |counts|);
    } else if j < |counts| {
      IndexOfNameIs(bumped, name, j);
    } else {
      IndexOfNameIs(bumped, name, |bumped|);
    }
  }

  /** The count of a category is the `occurrences || 1` total of exactly the details of that category. */
  lemma {:induction false} CategoryCountOf(details: seq<PiiDetail>, name: string)
    ensures CountOf(CategoryCounts(details), name) == TotalPii(Filter(details, (d: PiiDetail) => CategoryType(d) == name))
  {
    var p := (d: PiiDetail) => CategoryType(d) == name;
    if details != [] {
      var pre := details[..|details| - 1];
      var d := details[|details| - 1];
      CategoryCountOf(pre, name);
      var kept := if CategoryType(d) == name then [d] else [];
      assert Filter(details, p) == Filter(pre, p) + kept;
      TotalPiiAppend(Filter(pre, p), kept);
      TotalPiiSingle(d);
      CountOfBump(CategoryCounts(pre), CategoryType(d), OrOne(d.occurrences), name);
    }
  }

  /** Every entry holds the total of its own category. */
  lemma CategoryCountsExact(details: seq<PiiDetail>)
    ensures var cc := CategoryCounts(details);
      forall i :: 0 <= i < |cc| ==> cc[i].count == TotalPii(Filter(details, (d: PiiDetail) => CategoryType(d) == cc[i].name))
  {
    var cc := CategoryCounts(details);
    CategoryNamesDistinct(details);
    forall i | 0 <= i < |cc|
      ensures cc[i].count == TotalPii(Filter(details, (d: PiiDetail) => CategoryType(d) == cc[i].name))
    {
      assert forall k :: 0 <= k < i ==> Names(cc)[k] != Names(cc)[i];
      IndexOfNameIs(cc, cc[i].name, i);
      CategoryCountOf(details, cc[i].name);
    }
  }

  /** `PII_CONFIG[type]?.displayName`, or the title-cased key for an unknown type. */
  function DisplayName(piiType: string): string {
    if piiType in PiiConfigTable then PiiConfigTable[piiType].displayName else TitleLabel(piiType)
  }

  datatype PiiCategory = PiiCategory(name: string, displayName: string, count: int)

  function ToCategory(c: CategoryCount): PiiCategory {
    PiiCategory(c.name, DisplayName(c.name), c.count)
  }

  function ToCategories(counts: seq<CategoryCount>): (r: seq<PiiCategory>)
    ensures |r| == |counts| && forall i :: 0 <= i < |counts| ==> r[i] == ToCategory(counts[i])
  {
    seq(|counts|, i requires 0 <= i < |counts| => ToCategory(counts[i]))
  }

  function NegCount(c: PiiCategory): int {
    -c.count
  }

  /** `piiCategories`: the entries as categories, sorted by decreasing count (stable). */
  function PiiCategories(details: seq<PiiDetail>): seq<PiiCategory> {
    SortByKey(ToCategories(CategoryCounts(details)), NegCount)
  }

  function SumCategoryCounts(cs: seq<PiiCategory>): int {
    if cs == [] then 0 else cs[0].count + SumCategoryCounts(cs[1..])
  }

  lemma {:induction false} SumCategoryCountsInsert(x: PiiCategory, cs: seq<PiiCategory>)
    ensures SumCategoryCounts(InsertByKey(x, cs, NegCount)) == x.count + SumCategoryCounts(cs)
  {
    if cs != [] && NegCount(x) > NegCount(cs[0]) {
      SumCategoryCountsInsert(x, cs[1..]);
      assert InsertByKey(x, cs, NegCount)[1..] == InsertByKey(x, cs[1..], NegCount);
    }
  }

  lemma {:induction false} SumCategoryCountsSort(cs: seq<PiiCategory>)
    ensures SumCategoryCounts(SortByKey(cs, NegCount)) == SumCategoryCounts(cs)
  {
    if cs != [] {
      SumCategoryCountsSort(cs[1..]);
      SumCategoryCountsInsert(cs[0], SortByKey(cs[1..], NegCount));
    }
  }

  lemma {:induction false} SumCategoryCountsOf(counts: seq<CategoryCount>)
    ensures SumCategoryCounts(ToCategories(counts)) == SumCounts(counts)
  {
    if counts != [] {
      SumCategoryCountsOf(counts[1..]);
      assert ToCategories(counts)[1..] == ToCategories(counts[1..]);
    }
  }

  /**
   * The categories are the dictionary's entries reordered by non-increasing
   * count, and their counts add up to the total PII count.
   */
  lemma PiiCategoriesCorrect(details: seq<PiiDetail>)
    ensures var cs := PiiCategories(details);
      (forall i, j :: 0 <= i < j < |cs| ==> cs[i].count >= cs[j].count)
      && multiset(cs) == multiset(ToCategories(CategoryCounts(details)))
      && SumCategoryCounts(cs) == TotalPii(details)
  {
    var entries := ToCategories(CategoryCounts(details));
    SortByKeyCorrect(entries, NegCount);
    var cs := PiiCategories(details);
    forall i, j | 0 <= i < j < |cs| ensures cs[i].count >= cs[j].count {
      assert NegCount(cs[i]) <= NegCount(cs[j]);
    }
    SumCategoryCountsSort(entries);
    SumCategoryCountsOf(CategoryCounts(details));
    CategoryCountsSum(details);
  }

  /** A detail with no type is counted under "unknown", but selecting that category does not show it. */
  lemma UnknownCategoryNotSelectable(all: seq<PiiDetail>, occurrences: Option<int>)
    ensures CategoryType(PiiDetail(None, occurrences)) == "unknown"
    ensures PiiDetail(None, occurrences) !in FilteredPiiDetails(all, Some("unknown"), None)
  {
    FilteredPiiDetailsMembers(all, Some("unknown"), None, PiiDetail(None, occurrences));
  }

  /** An unknown type is labelled by title-casing its key. */
  lemma UnknownTypeLabel()
    ensures forall t :: t !in PiiConfigTable ==> DisplayName(t) == TitleLabel(t)
    ensures "a_b" !in PiiConfigTable && DisplayName("a_b") == "A B"
  {
    TitleLabelExamples();
  }

  // ---------------------------------------------------------------------
  // The family block
  // ---------------------------------------------------------------------

  /** A family member with the scans and PII total gathered for them. */
  datatype FamilyMember = FamilyMember(memberId: int, scans: seq<Scan>, totalPII: int)

  /** The member's `avgScore`: the rounded mean of `score || 0`, or 0 without scans. */
  function MemberAvgScore(m: FamilyMember): int {
    MeanScore(Scores(m.scans))
  }

  predicate HasScans(m: FamilyMember) {
    |m.scans| > 0
  }

  function TotalFamilyScans(members: seq<FamilyMember>): int {
    if members == [] then 0 else TotalFamilyScans(members[..|members| - 1]) + |members[|members| - 1].scans|
  }

  function TotalFamilyPii(members: seq<FamilyMember>): int {
    if members == [] then 0 else TotalFamilyPii(members[..|members| - 1]) + members[|members| - 1].totalPII
  }

  function AvgScores(members: seq<FamilyMember>): (r: seq<Option<int>>)
    ensures |r| == |members| && forall i :: 0 <= i < |members| ==> r[i] == Some(MemberAvgScore(members[i]))
  {
    seq(|members|, i requires 0 <= i < |members| => Some(MemberAvgScore(members[i])))
  }

  /** `familyAvgScore`: the rounded mean of the averages of the members that have scans, or 0. */
  function FamilyAvgScore(members: seq<FamilyMember>): int {
    MeanScore(AvgScores(Filter(members, HasScans)))
  }

  /** Members without scans do not count towards the family average; with none, it is 0. */
  lemma FamilyAvgScoreMembers(members: seq<FamilyMember>, m: FamilyMember)
    requires !HasScans(m)
    ensures FamilyAvgScore(members + [m]) == FamilyAvgScore(members)
    ensures FamilyAvgScore([m]) == 0
  {
    FilterAppend(members, [m], HasScans);
    assert Filter([m], HasScans) == [];
    assert members + [m] == (members + [m]);
    assert Filter(members, HasScans) + [] == Filter(members, HasScans);
  }

  /** No member with scans means a family average of 0. */
  lemma FamilyAvgScoreNoScans(members: seq<FamilyMember>)
    requires forall i :: 0 <= i < |members| ==> !HasScans(members[i])
    ensures FamilyAvgScore(members) == 0
  {
    var f := Filter(members, HasScans);
    if f != [] {
      FilterMembers(members, HasScans, f[0]);
    }
  }

  /** Scores in [0, 100] give member and family averages in [0, 100]. */
  lemma FamilyAvgScoreBounds(members: seq<FamilyMember>)
    requires forall i, j :: 0 <= i < |members| && 0 <= j < |members[i].scans| ==> 0 <= OrZero(members[i].scans[j].score) <= 100
    ensures 0 <= FamilyAvgScore(members) <= 100
  {
    var f := Filter(members, HasScans);
    if f != [] {
      forall k | 0 <= k < |f| ensures 0 <= MemberAvgScore(f[k]) <= 100 {
        FilterMembers(members, HasScans, f[k]);
        var i :| 0 <= i < |members| && members[i] == f[k];
        MeanScoreBounds(Scores(f[k].scans), 0, 100);
      }
      MeanScoreBounds(AvgScores(f), 0, 100);
    }
  }

  /** `Array.prototype.findIndex`, with `|s|` for "not found". */
  function FirstIndex<T>(s: seq<T>, p: T -> bool): (i: nat)
    ensures i <= |s|
    ensures i < |s| ==> p(s[i])
    ensures forall k :: 0 <= k < i ==> !p(s[k])
  {
    if s == [] then 0 else if p(s[0]) then 0 else 1 + FirstIndex(s[1..], p)
  }

  /** `Array.prototype.find` */
  function Find<T>(s: seq<T>, p: T -> bool): Option<T> {
    var i := FirstIndex(s, p);
    if i < |s| then Some(s[i]) else None
  }

  function Reverse<T>(s: seq<T>): (r: seq<T>)
    ensures |r| == |s| && forall i :: 0 <= i < |s| ==> r[i] == s[|s| - 1 - i]
  {
    seq(|s|, i requires 0 <= i < |s| => s[|s| - 1 - i])
  }

  /** `sortedByScore`: the members by ascending `avgScore` (stable). */
  function SortedByScore(members: seq<FamilyMember>): seq<FamilyMember> {
    SortByKey(members, MemberAvgScore)
  }

  function LowestScoreMember(members: seq<FamilyMember>): Option<FamilyMember> {
    Find(SortedByScore(members), HasScans)
  }

  function HighestScoreMember(members: seq<FamilyMember>): Option<FamilyMember> {
    Find(Reverse(SortedByScore(members)), HasScans)
  }

  /** The members sorted by score: ordered, and the same members. */
  lemma SortedByScoreCorrect(members: seq<FamilyMember>)
    ensures SortedByKey(SortedByScore(members), MemberAvgScore)
    ensures multiset(SortedByScore(members)) == multiset(members)
    ensures forall m :: m in SortedByScore(members) <==> m in members
  {
    SortByKeyCorrect(members, MemberAvgScore);
    forall m ensures m in SortedByScore(members) <==> m in members {
      assert m in SortedByScore(members) <==> m in multiset(SortedByScore(members));
      assert m in members <==> m in multiset(members);
    }
  }

  /** The lowest-scoring member has scans and the least average of all members that have scans. */
  lemma LowestScoreMemberCorrect(members: seq<FamilyMember>)
    ensures LowestScoreMember(members).None? <==> forall k :: 0 <= k < |members| ==> !HasScans(members[k])
    ensures LowestScoreMember(members).Some? ==>
      var m := LowestScoreMember(members).value;
      m in members && HasScans(m)
      && forall k :: 0 <= k < |members| && HasScans(members[k]) ==> MemberAvgScore(m) <= MemberAvgScore(members[k])
  {
    var sorted := SortedByScore(members);
    SortedByScoreCorrect(members);
    var i := FirstIndex(sorted, HasScans);
    forall k | 0 <= k < |members| && HasScans(members[k])
      ensures i < |sorted| && MemberAvgScore(sorted[i]) <= MemberAvgScore(members[k])
    {
      LowestBelowMember(sorted, members[k]);
    }
    if i < |sorted| {
      assert sorted[i] in sorted;
    }
  }

  lemma LowestBelowMember(sorted: seq<FamilyMember>, m: FamilyMember)
    requires SortedByKey(sorted, MemberAvgScore)
    requires m in sorted && HasScans(m)
    ensures var i := FirstIndex(sorted, HasScans); i < |sorted| && MemberAvgScore(sorted[i]) <= MemberAvgScore(m)
  {
    var i := FirstIndex(sorted, HasScans);
    var j :| 0 <= j < |sorted| && sorted[j] == m;
    assert i <= j;
  }

  /** The highest-scoring member has scans and the greatest average of all members that have scans. */
  lemma HighestScoreMemberCorrect(members: seq<FamilyMember>)
    ensures HighestScoreMember(members).None? <==> forall k :: 0 <= k < |members| ==> !HasScans(members[k])
    ensures HighestScoreMember(members).Some? ==>
      var m := HighestScoreMember(members).value;
      m in members && HasScans(m)
      && forall k :: 0 <= k < |members| && HasScans(members[k]) ==> MemberAvgScore(members[k]) <= MemberAvgScore(m)
  {
    var sorted := SortedByScore(members);
    SortedByScoreCorrect(members);
    var rev := Reverse(sorted);
    var i := FirstIndex(rev, HasScans);
    forall k | 0 <= k < |members| && HasScans(members[k])
      ensures i < |rev| && MemberAvgScore(members[k]) <= MemberAvgScore(rev[i])
    {
      HighestAboveMember(sorted, members[k]);
    }
    if i < |rev| {
      assert rev[i] == sorted[|sorted| - 1 - i];
      assert rev[i] in sorted;
    }
  }

  lemma HighestAboveMember(sorted: seq<FamilyMember>, m: FamilyMember)
    requires SortedByKey(sorted, MemberAvgScore)
    requires m in sorted && HasScans(m)
    ensures var rev := Reverse(sorted); var i := FirstIndex(rev, HasScans);
      i < |rev| && MemberAvgScore(m) <= MemberAvgScore(rev[i])
  {
    var rev := Reverse(sorted);
    var i := FirstIndex(rev, HasScans);
    var j :| 0 <= j < |sorted| && sorted[j] == m;
    assert rev[|sorted| - 1 - j] == m;
    assert i <= |sorted| - 1 - j;
    assert rev[i] == sorted[|sorted| - 1 - i];
  }

  /** Family totals add up member by member. */
  lemma {:induction false} FamilyTotalsAppend(members: seq<FamilyMember>, m: FamilyMember)
    ensures TotalFamilyScans(members + [m]) == TotalFamilyScans(members) + |m.scans|
    ensures TotalFamilyPii(members + [m]) == TotalFamilyPii(members) + m.totalPII
  {
    assert (members + [m])[..|members|] == members;
  }

  // ---------------------------------------------------------------------
  // Filter state
  // ---------------------------------------------------------------------

  datatype TimePeriod = Last7Days | Last30Days | Last90Days | AllTime

  /** `current === clicked ? null : clicked` */
  function Toggle(current: Option<string>, clicked: string): (r: Option<string>)
    ensures r == None <==> current == Some(clicked)
  {
    if current == Some(clicked) then None else Some(clicked)
  }

  /** Clicking the same button twice restores no selection, unless it was the selection already. */
  lemma ToggleTwice(current: Option<string>, clicked: string)
    ensures current != Some(clicked) ==> Toggle(Toggle(current, clicked), clicked) == None
    ensures current == Some(clicked) ==> Toggle(Toggle(current, clicked), clicked) == current
  {
  }

  /** `hasActiveFilters` */
  predicate HasActiveFilters(selectedCategory: Option<string>, selectedRiskFilter: Option<string>, timePeriod: TimePeriod) {
    Active(selectedCategory) || Active(selectedRiskFilter) || timePeriod != AllTime
  }

  class DashboardFilters {
    var selectedCategory: Option<string>
    var selectedRiskFilter: Option<string>
    var timePeriod: TimePeriod

    constructor ()
      ensures selectedCategory == None && selectedRiskFilter == None && timePeriod == AllTime
    {
      selectedCategory, selectedRiskFilter, timePeriod := None, None, AllTime;
    }

    /** `handleCategoryClick`: toggles the category; the risk filter is kept. */
    method HandleCategoryClick(categoryName: string)
      modifies this
      ensures selectedCategory == Toggle(old(selectedCategory), categoryName)
      ensures selectedRiskFilter == old(selectedRiskFilter) && timePeriod == old(timePeriod)
    {
      selectedCategory := if selectedCategory == Some(categoryName) then None else Some(categoryName);
    }

    /** `handleRiskFilterClick`: toggles the risk filter and clears the category. */
    method HandleRiskFilterClick(riskLevel: string)
      modifies this
      ensures selectedRiskFilter == Toggle(old(selectedRiskFilter), riskLevel)
      ensures selectedCategory == None && timePeriod == old(timePeriod)
    {
      selectedRiskFilter := if selectedRiskFilter == Some(riskLevel) then None else Some(riskLevel);
      selectedCategory := None;
    }

    /** `clearFilters`: no filter is active afterwards. */
    method ClearFilters()
      modifies this
      ensures selectedCategory == None && selectedRiskFilter == None && timePeriod == AllTime
      ensures !HasActiveFilters(selectedCategory, selectedRiskFilter, timePeriod)
    {
      selectedCategory := None;
      selectedRiskFilter := None;
      timePeriod := AllTime;
    }
  }
}
