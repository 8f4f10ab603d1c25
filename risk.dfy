/** `assessRisk`: the risk level, risk factors and protective factors read
    off the last seven check-ins. The level starts low; a low or
    below-average mean and a variable mood raise it, concerning words in
    the notes force it to crisis, and the protective factors are only
    listed. */
module Risk {
  import opened Wrappers
  import opened Seqs
  import opened Text
  import opened Storage
  import opened Stats
  import opened Mood
  import opened InsightData

  const ConcerningKeywords: seq<string> :=
    ["hopeless", "worthless", "suicide", "kill myself", "end it all", "no point", "give up"]

  const LowMoodFactor: string := "Consistently low mood scores"
  const BelowAverageFactor: string := "Below-average mood scores"
  const VariabilityFactor: string := "High mood variability"
  const ConcerningFactor: string := "Concerning language in journal entries"

  const TrackingFactor: string := "Consistent mood tracking"
  const GratitudeFactor: string := "Practicing gratitude"
  const PositiveFactor: string := "Generally positive mood"

  /** Notes, lower-cased, that contain one of the concerning keywords. */
  predicate Concerning(e: MoodEntry) {
    Truthy(e.details.notes) &&
    exists k :: 0 <= k < |ConcerningKeywords| && Contains(ToLower(e.details.notes.value), ConcerningKeywords[k])
  }

  /** `entries.slice(0, 7)`. */
  function RecentEntries(entries: seq<MoodEntry>): (recent: seq<MoodEntry>)
    ensures |recent| == if |entries| < 7 then |entries| else 7
    ensures recent <= entries
  {
    Take(entries, 7)
  }

  function RecentMoods(entries: seq<MoodEntry>): seq<int> {
    MoodScores(RecentEntries(entries))
  }

  /** The mean mood of the last seven check-ins. */
  function AverageMood(entries: seq<MoodEntry>): real
    requires |entries| >= 3
  {
    Mean(RecentMoods(entries))
  }

  predicate LowMood(entries: seq<MoodEntry>)
    requires |entries| >= 3
  {
    AverageMood(entries) < 3.0
  }

  predicate BelowAverage(entries: seq<MoodEntry>)
    requires |entries| >= 3
  {
    3.0 <= AverageMood(entries) < 5.0
  }

  /** `calculateVariability(moods) > 2.5`, squared: the variance exceeds 6.25. */
  predicate Variable(entries: seq<MoodEntry>) {
    Variance(RecentMoods(entries)) > 6.25
  }

  predicate ConcerningNotes(entries: seq<MoodEntry>) {
    var recent := RecentEntries(entries);
    exists i :: 0 <= i < |recent| && Concerning(recent[i])
  }

  /** Low becomes medium and every other level is kept: a rise to medium
      that never lowers a level. */
  function AtLeastMedium(level: RiskLevel): (r: RiskLevel)
    ensures Rank(r) >= Rank(level) && Rank(r) >= Rank(Medium)
    ensures Rank(level) >= Rank(Medium) ==> r == level
  {
    if level == Low then Medium else level
  }

  /** The level the rules settle on. */
  function RiskLevelOf(entries: seq<MoodEntry>): RiskLevel
    requires |entries| >= 3
  {
    if ConcerningNotes(entries) then Crisis
    else if LowMood(entries) then High
    else if BelowAverage(entries) || Variable(entries) then Medium
    else Low
  }

  function RiskFactorsOf(entries: seq<MoodEntry>): seq<string>
    requires |entries| >= 3
  {
    (if LowMood(entries) then [LowMoodFactor] else if BelowAverage(entries) then [BelowAverageFactor] else []) +
    (if Variable(entries) then [VariabilityFactor] else []) +
    (if ConcerningNotes(entries) then [ConcerningFactor] else [])
  }

  function ProtectiveFactorsOf(entries: seq<MoodEntry>): seq<string>
    requires |entries| >= 3
  {
    var recent := RecentEntries(entries);
    (if |recent| >= 5 then [TrackingFactor] else []) +
    (if exists i :: 0 <= i < |recent| && Truthy(recent[i].details.gratitude) then [GratitudeFactor] else []) +
    (if AverageMood(entries) >= 6.0 then [PositiveFactor] else [])
  }

  const CrisisAdvice: string :=
    "Immediate professional support recommended. Please contact a crisis hotline or emergency services."
  const HighAdvice: string :=
    "Consider reaching out to a mental health professional for support and guidance."
  const MediumAdvice: string :=
    "Focus on self-care, social connection, and monitor mood patterns closely."

  /** The advice for each level; none for a low level. */
  function RiskRecommendation(level: RiskLevel): (text: string)
    ensures text == "" <==> level == Low
  {
    match level
    case Crisis => CrisisAdvice
    case High => HighAdvice
    case Medium => MediumAdvice
    case Low => ""
  }

  /** The assessment `assessRisk` returns: none from fewer than three
      check-ins or when no risk factor was found. */
  function RiskAssessmentOf(entries: seq<MoodEntry>): Option<Assessment> {
    if |entries| < 3 then None
    else
      var level := RiskLevelOf(entries);
      var factors := RiskFactorsOf(entries);
      if factors == [] && level == Low then None
      else Some(Assessment(level, factors, ProtectiveFactorsOf(entries), RiskRecommendation(level), ConcerningNotes(entries)))
  }

  /** The level is the highest any finding calls for: crisis for
      concerning notes, high for a low mean, medium for a below-average
      mean or a variable mood, low otherwise. */
  lemma LevelIsHighestFinding(entries: seq<MoodEntry>)
    requires |entries| >= 3
    ensures var level := RiskLevelOf(entries);
      Rank(level) == Max(Max(if ConcerningNotes(entries) then Rank(Crisis) else 0,
                             if LowMood(entries) then Rank(High) else 0),
                         if BelowAverage(entries) || Variable(entries) then Rank(Medium) else 0)
  {
  }

  function Max(a: nat, b: nat): nat {
    if a < b then b else a
  }

  /** The level is low exactly when no risk factor is recorded, so the
      assessment is absent exactly when there are fewer than three
      check-ins or no risk factor; a present one is never low, names its
      factors, carries advice, and asks for intervention exactly at crisis. */
  lemma AssessmentRules(entries: seq<MoodEntry>)
    ensures |entries| >= 3 ==> (RiskLevelOf(entries) == Low <==> RiskFactorsOf(entries) == [])
    ensures RiskAssessmentOf(entries).Some? <==>
      |entries| >= 3 && (LowMood(entries) || BelowAverage(entries) || Variable(entries) || ConcerningNotes(entries))
    ensures RiskAssessmentOf(entries).Some? ==>
      var a := RiskAssessmentOf(entries).value;
      a.level != Low && a.riskFactors != [] && a.recommendations != "" &&
      (a.requiresIntervention <==> a.level == Crisis)
  {
    if |entries| >= 3 {
      var low, below := LowMood(entries), BelowAverage(entries);
      assert low ==> !below;
    }
  }

  /** The thresholds on sums: a mean below 3 is Σ < 3n, below 5 is Σ < 5n,
      and a standard deviation above 2.5 is 4·(n·Σx² − (Σx)²) > 25·n². */
  lemma RiskByCounts(entries: seq<MoodEntry>)
    requires |entries| >= 3
    ensures var moods := RecentMoods(entries);
      var s, n := Sum(moods), |moods|;
      (LowMood(entries) <==> s < 3 * n) &&
      (BelowAverage(entries) <==> 3 * n <= s < 5 * n) &&
      (Variable(entries) <==> 4 * ScaledVariance(moods) > 25 * (n * n))
  {
    var moods := RecentMoods(entries);
    MeanAtLeast(moods, 3);
    MeanAtLeast(moods, 5);
    VarianceAbove(moods);
  }

  /** The protective factors never change the assessment's level or its
      risk factors: two histories whose last seven check-ins agree on mood
      and on concerning notes get the same level and factors whatever
      their gratitude entries. */
  lemma ProtectiveFactorsDoNotCount(a: seq<MoodEntry>, b: seq<MoodEntry>)
    requires |a| >= 3 && |b| >= 3
    requires RecentMoods(a) == RecentMoods(b) && ConcerningNotes(a) == ConcerningNotes(b)
    ensures RiskLevelOf(a) == RiskLevelOf(b) && RiskFactorsOf(a) == RiskFactorsOf(b)
  {
  }

  /** `assessRisk` step by step: the level and both factor lists updated in
      the source's order. */
  method AssessRisk(entries: seq<MoodEntry>) returns (r: Option<Assessment>)
    ensures r == RiskAssessmentOf(entries)
  {
    if |entries| < 3 {
      return None;
    }
    var recent := RecentEntries(entries);
    var avgMood := AverageMood(entries);
    var riskFactors: seq<string> := [];
    var protectiveFactors: seq<string> := [];
    var riskLevel := Low;
    var requiresIntervention := false;

    if avgMood < 3.0 {
      riskFactors := riskFactors + [LowMoodFactor];
      riskLevel := High;
    } else if avgMood < 5.0 {
      riskFactors := riskFactors + [BelowAverageFactor];
      riskLevel := AtLeastMedium(riskLevel);
    }
    if Variable(entries) {
      riskFactors := riskFactors + [VariabilityFactor];
      riskLevel := AtLeastMedium(riskLevel);
    }
    assert riskFactors ==
      (if LowMood(entries) then [LowMoodFactor] else if BelowAverage(entries) then [BelowAverageFactor] else []) +
      (if Variable(entries) then [VariabilityFactor] else []);
    var concerning := HasConcerningContent(recent);
    assert concerning == ConcerningNotes(entries);
    if concerning {
      riskFactors := riskFactors + [ConcerningFactor];
      riskLevel := Crisis;
      requiresIntervention := true;
    }

    if |recent| >= 5 {
      protectiveFactors := protectiveFactors + [TrackingFactor];
    }
    if exists i :: 0 <= i < |recent| && Truthy(recent[i].details.gratitude) {
      protectiveFactors := protectiveFactors + [GratitudeFactor];
    }
    if avgMood >= 6.0 {
      protectiveFactors := protectiveFactors + [PositiveFactor];
    }

    assert riskFactors == RiskFactorsOf(entries);
    assert riskLevel == RiskLevelOf(entries);
    assert protectiveFactors == ProtectiveFactorsOf(entries);
    if |riskFactors| == 0 && riskLevel == Low {
      return None;
    }
    r := Some(Assessment(riskLevel, riskFactors, protectiveFactors, RiskRecommendation(riskLevel), requiresIntervention));
  }

  /** `recentEntries.some(...)`: whether some check-in's notes hold a
      concerning keyword, scanned in order. */
  method HasConcerningContent(recent: seq<MoodEntry>) returns (found: bool)
    ensures found <==> exists i :: 0 <= i < |recent| && Concerning(recent[i])
  {
    found := false;
    var i := 0;
    while i < |recent| && !found
      invariant 0 <= i <= |recent|
      invariant found <==> exists j :: 0 <= j < i && Concerning(recent[j])
    {
      found := Concerning(recent[i]);
      i := i + 1;
    }
  }
}
