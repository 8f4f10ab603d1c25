/** The insight and risk engine: from the check-ins of a person, newest
    first, it derives a mood-trend insight, a trigger pattern, a sleep–mood
    pattern, a weekly recommendation and a risk assessment. The language
    model's answers are parameters (`None` when no key is configured or
    the call failed); its templated fallbacks are what is modelled. */
module Insights {
  import opened Wrappers
  import opened Seqs
  import opened Text
  import opened Storage
  import opened Stats
  import opened Mood
  import opened InsightData
  import opened TriggerAnalysis

  /** The answers the language model gave to the three prompts. */
  datatype ModelAnswers = ModelAnswers(trend: Option<string>, triggers: Option<string>, recommendations: Option<string>)

  /** `Math.min(c + 0.1, 1.0)`: the confidence once the model's text is used. */
  function RaisedConfidence(c: real): (r: real)
    ensures r <= 1.0 && (c <= 1.0 ==> r >= c) && (c + 0.1 <= 1.0 ==> r == c + 0.1)
  {
    if c + 0.1 < 1.0 then c + 0.1 else 1.0
  }

  // ---------------------------------------------------------------------
  // analyzeMoodTrend

  /** The direction of `analyzeMoodTrend`: the last seven scores against the
      seven before (or against themselves when there are none); a change
      of less than half a point either way is stable. Fewer than three
      recent scores give none. */
  function InsightTrend(scores: seq<int>): Option<Trend> {
    var recent, previous := Recent(scores), Previous(scores);
    if |recent| < 3 then None
    else
      var recentAvg := Mean(recent);
      var previousAvg := if |previous| > 0 then Mean(previous) else recentAvg;
      var delta := recentAvg - previousAvg;
      if -0.5 < delta < 0.5 then Some(Stable)
      else if delta > 0.0 then Some(Improving)
      else Some(Declining)
  }

  /** The trend on sums and counts: present from three scores on, stable
      without a previous week, improving exactly when
      2·(Σr·np − Σp·nr) ≥ nr·np and declining exactly when it is at most
      −nr·np. */
  lemma InsightTrendByCounts(scores: seq<int>)
    ensures InsightTrend(scores).Some? <==> |scores| >= 3
    ensures 3 <= |scores| <= 7 ==> InsightTrend(scores) == Some(Stable)
    ensures |scores| > 7 ==>
      var sr, nr, sp, np := Sum(Recent(scores)), |Recent(scores)|, Sum(Previous(scores)), |Previous(scores)|;
      (InsightTrend(scores) == Some(Improving) <==> 2 * (sr * np - sp * nr) >= nr * np) &&
      (InsightTrend(scores) == Some(Declining) <==> 2 * (sr * np - sp * nr) <= -(nr * np))
  {
    if |scores| > 7 {
      var recent, previous := Recent(scores), Previous(scores);
      var sr, nr, sp, np := Sum(recent), |recent|, Sum(previous), |previous|;
      assert nr == 7 && np > 0;
      MeanDifferenceAbove(sr, nr, sp, np, -0.5);
      MeanDifferenceAbove(sp, np, sr, nr, -0.5);
      assert sp * nr - sr * np == -(sr * np - sp * nr);
      assert np * nr == nr * np;
    }
  }

  /** The two trends disagree at a change of exactly half a point: the
      insight engine calls it improving, the statistics of the mood
      service call it stable. */
  lemma HalfPointTrendsDisagree(scores: seq<int>)
    requires |scores| > 7
    requires var sr, nr, sp, np := Sum(Recent(scores)), |Recent(scores)|, Sum(Previous(scores)), |Previous(scores)|;
      2 * (sr * np - sp * nr) == nr * np
    ensures InsightTrend(scores) == Some(Improving)
    ensures MoodTrend(scores) == Stable
  {
    InsightTrendByCounts(scores);
    TrendByCounts(scores);
  }

  function BaseConfidence(t: Trend): real {
    match t
    case Stable => 0.8
    case Improving => 0.9
    case Declining => 0.85
  }

  const StableText: string :=
    "Your mood has been stable over the past week. Consistency in mood tracking is a positive sign of emotional awareness. Consider maintaining your current routines and coping strategies."

  const ImprovingText: string :=
    "Your mood has improved over the past week. This is encouraging progress! Reflect on what positive changes you've made recently and try to maintain them."

  const DecliningText: string :=
    "Your mood has declined over the past week. This might be a good time to reach out for support, practice self-care, or consider speaking with a mental health professional if the decline continues."

  function TrendText(t: Trend): string {
    match t
    case Stable => StableText
    case Improving => ImprovingText
    case Declining => DecliningText
  }

  /** `data_period_start` and `data_period_end`: the dates of the oldest
      and the newest check-in. */
  function Period(entries: seq<MoodEntry>): (p: (string, string))
    ensures entries != [] ==> p.0 <= entries[|entries| - 1].createdAt && p.1 <= entries[0].createdAt
  {
    if entries == [] then ("", "")
    else (DatePart(entries[|entries| - 1].createdAt), DatePart(entries[0].createdAt))
  }

  /** The insight `analyzeMoodTrend` returns. */
  function TrendInsight(entries: seq<MoodEntry>, answer: Option<string>): (r: Option<Insight>)
    ensures r.Some? <==> |entries| >= 3
    ensures r.Some? ==>
      var t := InsightTrend(MoodScores(entries)).value;
      r.value.insightType == MoodPattern && !r.value.isReviewed &&
      (Truthy(answer) ==> r.value.content == answer.value && r.value.confidence == RaisedConfidence(BaseConfidence(t))) &&
      (!Truthy(answer) ==> r.value.content == TrendText(t) && r.value.confidence == BaseConfidence(t)) &&
      (r.value.periodStart, r.value.periodEnd) == Period(entries)
  {
    InsightTrendByCounts(MoodScores(entries));
    match InsightTrend(MoodScores(entries))
    case None => None
    case Some(t) =>
      var period := Period(entries);
      if Truthy(answer) then Some(Insight(MoodPattern, answer.value, RaisedConfidence(BaseConfidence(t)), period.0, period.1, false))
      else Some(Insight(MoodPattern, TrendText(t), BaseConfidence(t), period.0, period.1, false))
  }

  /** The trend insight's confidence is 0.8 when stable, 0.9 when improving
      and 0.85 when declining, one tenth more with the model's text, and
      never above 1. */
  lemma TrendConfidenceRules(entries: seq<MoodEntry>, answer: Option<string>)
    requires |entries| >= 3
    ensures var c := TrendInsight(entries, answer).value.confidence;
      var t := InsightTrend(MoodScores(entries)).value;
      0.8 <= c <= 1.0 &&
      (!Truthy(answer) ==> (t == Stable <==> c == 0.8) && (t == Improving <==> c == 0.9) && (t == Declining <==> c == 0.85)) &&
      (Truthy(answer) ==> (t == Stable <==> c == 0.9) && (t == Improving <==> c == 1.0) && (t == Declining <==> c == 0.95))
  {
    var t := InsightTrend(MoodScores(entries)).value;
    var c := TrendInsight(entries, answer).value.confidence;
    if Truthy(answer) {
      assert c == RaisedConfidence(BaseConfidence(t));
      match t
      case Stable => assert c == 0.9;
      case Improving => assert c == 1.0;
      case Declining => assert c == 0.95;
    } else {
      assert c == BaseConfidence(t);
    }
  }

  // ---------------------------------------------------------------------
  // analyzeSleepMoodCorrelation

  /** `(sleep, mood)` of the check-ins whose sleep quality is set and positive. */
  function SleepPairs(entries: seq<MoodEntry>): (pairs: seq<(int, int)>)
    ensures forall k :: 0 <= k < |pairs| ==> pairs[k].0 > 0
  {
    var slept := Filter(entries, (e: MoodEntry) => e.scores.sleep.Some? && e.scores.sleep.value > 0);
    Map(slept, (e: MoodEntry) => (if e.scores.sleep.Some? then e.scores.sleep.value else 0, e.scores.mood))
  }

  function Sleeps(pairs: seq<(int, int)>): (r: seq<int>)
    ensures |r| == |pairs| && forall k :: 0 <= k < |pairs| ==> r[k] == pairs[k].0
  {
    seq(|pairs|, k requires 0 <= k < |pairs| => pairs[k].0)
  }

  function Moods(pairs: seq<(int, int)>): (r: seq<int>)
    ensures |r| == |pairs| && forall k :: 0 <= k < |pairs| ==> r[k] == pairs[k].1
  {
    seq(|pairs|, k requires 0 <= k < |pairs| => pairs[k].1)
  }

  /** Σ sleep·mood. */
  function SumOfProducts(pairs: seq<(int, int)>): int {
    if pairs == [] then 0
    else SumOfProducts(pairs[..|pairs| - 1]) + pairs[|pairs| - 1].0 * pairs[|pairs| - 1].1
  }

  /** The numerator of Pearson's r: n·Σsm − Σs·Σm. */
  function Covariance(pairs: seq<(int, int)>): int {
    |pairs| * SumOfProducts(pairs) - Sum(Sleeps(pairs)) * Sum(Moods(pairs))
  }

  /** The square of the denominator: (n·Σs² − (Σs)²)·(n·Σm² − (Σm)²). */
  function Spread(pairs: seq<(int, int)>): (d: int)
    ensures d >= 0
  {
    ScaledVarianceNonNegative(Sleeps(pairs));
    ScaledVarianceNonNegative(Moods(pairs));
    ScaledVariance(Sleeps(pairs)) * ScaledVariance(Moods(pairs))
  }

  datatype Direction = PositiveCorrelation | NegativeCorrelation

  /** |r| < 0.3 for a defined correlation r = num / √den: 100·num² < 9·den. */
  predicate Weak(num: int, den: int) {
    den > 0 && 100 * (num * num) < 9 * den
  }

  /** |r| > 0.3, which holds too for num ≠ 0 over a zero spread. */
  predicate Strong(num: int, den: int) {
    100 * (num * num) > 9 * den
  }

  /** The branch the function takes as written. With a spread of 0 the
      correlation is 0/0, NaN in floating point: it is not below 0.3, so
      nothing suppresses it, and it is not above 0.3, so it is reported
      as a negative correlation (a non-zero numerator would give an
      infinity of its sign). */
  function SleepDirectionAsWritten(pairs: seq<(int, int)>): (d: Option<Direction>)
    ensures d.Some? <==> |pairs| >= 5 && !Weak(Covariance(pairs), Spread(pairs))
    ensures d == Some(PositiveCorrelation) <==> |pairs| >= 5 && Covariance(pairs) > 0 && Strong(Covariance(pairs), Spread(pairs))
  {
    var num, den := Covariance(pairs), Spread(pairs);
    if |pairs| < 5 then None
    else if Weak(num, den) then None
    else if num > 0 && Strong(num, den) then Some(PositiveCorrelation)
    else Some(NegativeCorrelation)
  }

  /** The intended branch: no pattern when the correlation is undefined
      (every sleep score or every mood score the same), none when |r| <
      0.3, the positive pattern when r > 0.3, else the negative one. */
  function SleepDirection(pairs: seq<(int, int)>): (d: Option<Direction>)
    ensures d.Some? <==> |pairs| >= 5 && Spread(pairs) > 0 && !Weak(Covariance(pairs), Spread(pairs))
    ensures d == Some(PositiveCorrelation) <==>
      |pairs| >= 5 && Spread(pairs) > 0 && Covariance(pairs) > 0 && Strong(Covariance(pairs), Spread(pairs))
    ensures d.Some? ==> d == SleepDirectionAsWritten(pairs)
  {
    var num, den := Covariance(pairs), Spread(pairs);
    if |pairs| < 5 || den == 0 then None
    else if Weak(num, den) then None
    else if num > 0 && Strong(num, den) then Some(PositiveCorrelation)
    else Some(NegativeCorrelation)
  }

  /** The two rules differ only where the correlation is undefined: over
      a positive spread they agree, and whatever the intended rule
      reports, the rule as written reports too. */
  lemma DirectionsAgreeWhenDefined(pairs: seq<(int, int)>)
    ensures Spread(pairs) > 0 ==> SleepDirectionAsWritten(pairs) == SleepDirection(pairs)
    ensures SleepDirectionAsWritten(pairs).None? ==> SleepDirection(pairs).None?
  {
  }

  lemma {:induction false} ConstantSums(xs: seq<int>, c: int)
    requires forall k :: 0 <= k < |xs| ==> xs[k] == c
    ensures Sum(xs) == |xs| * c && SumOfSquares(xs) == |xs| * (c * c)
  {
    if xs != [] {
      ConstantSums(xs[..|xs| - 1], c);
    }
  }

  lemma {:induction false} ConstantSleepProducts(pairs: seq<(int, int)>, c: int)
    requires forall k :: 0 <= k < |pairs| ==> pairs[k].0 == c
    ensures SumOfProducts(pairs) == c * Sum(Moods(pairs))
  {
    if pairs != [] {
      var init := pairs[..|pairs| - 1];
      ConstantSleepProducts(init, c);
      assert Moods(pairs)[..|pairs| - 1] == Moods(init);
    }
  }

  /** Five or more nights of the same sleep score: as written the page is
      told of a negative correlation between sleep and mood; the intended
      branch reports nothing. */
  lemma UniformSleepReportedNegative(pairs: seq<(int, int)>, c: int)
    requires |pairs| >= 5
    requires forall k :: 0 <= k < |pairs| ==> pairs[k].0 == c
    ensures Spread(pairs) == 0 && Covariance(pairs) == 0
    ensures SleepDirectionAsWritten(pairs) == Some(NegativeCorrelation)
    ensures SleepDirection(pairs) == None
  {
    var n := |pairs|;
    ConstantSums(Sleeps(pairs), c);
    ConstantSleepProducts(pairs, c);
    assert ScaledVariance(Sleeps(pairs)) == n * (n * (c * c)) - (n * c) * (n * c);
    assert n * (n * (c * c)) == (n * c) * (n * c);
    assert Covariance(pairs) == n * (c * Sum(Moods(pairs))) - (n * c) * Sum(Moods(pairs));
  }

  /** A correlation of exactly 0.3 (100·num² = 9·den) is not weak and not
      above 0.3, so it takes the negative branch even when positive. */
  lemma ExactGateIsNegative(pairs: seq<(int, int)>)
    requires |pairs| >= 5 && Spread(pairs) > 0 && Covariance(pairs) > 0
    requires 100 * (Covariance(pairs) * Covariance(pairs)) == 9 * Spread(pairs)
    ensures SleepDirection(pairs) == Some(NegativeCorrelation)
    ensures SleepDirectionAsWritten(pairs) == Some(NegativeCorrelation)
  {
  }

  /** The strength the pattern reports, |r| = |num| / √den, with the square
      root given. */
  function Correlation(pairs: seq<(int, int)>, root: real): real {
    var num := Covariance(pairs);
    if root <= 0.0 then 0.0 else (if num >= 0 then num else -num) as real / root
  }

  const PositiveSleepRecommendations: seq<string> := [
    "Prioritize consistent sleep schedule",
    "Create a relaxing bedtime routine",
    "Limit screen time before bed",
    "Consider sleep hygiene practices"]

  const PositiveSleepDescription: string :=
    "There's a positive correlation between your sleep quality and mood. Better sleep tends to lead to better mood days."

  const NegativeSleepDescription: string :=
    "There's a negative correlation between your sleep and mood patterns. This might indicate sleep disruption during stressful periods."

  const NegativeSleepRecommendations: seq<string> := [
    "Practice stress management before bedtime",
    "Consider relaxation techniques for better sleep",
    "Track what affects your sleep quality",
    "Speak with a healthcare provider about sleep concerns"]

  /** The pattern reported for a correlation in direction `d` of the given
      strength. */
  function DirectionPattern(d: Direction, strength: real): (p: Pattern)
    ensures p.patternType == SleepMood && p.frequency == Daily && p.triggers == [] && p.strength == strength
    ensures d == PositiveCorrelation ==> p.recommendations == PositiveSleepRecommendations
    ensures d == NegativeCorrelation ==> p.recommendations == NegativeSleepRecommendations
  {
    match d
    case PositiveCorrelation =>
      Pattern(SleepMood, PositiveSleepDescription, strength, Daily, [], PositiveSleepRecommendations)
    case NegativeCorrelation =>
      Pattern(SleepMood, NegativeSleepDescription, strength, Daily, [], NegativeSleepRecommendations)
  }

  /** The pattern `analyzeSleepMoodCorrelation` returns, `root` being the
      square root of the spread: present exactly when the branch as
      written finds a correlation (an undefined one included), with the
      recommendations of its direction. */
  function SleepPattern(entries: seq<MoodEntry>, root: real): (r: Option<Pattern>)
    ensures var pairs := SleepPairs(entries);
      (r.Some? <==> |pairs| >= 5 && !Weak(Covariance(pairs), Spread(pairs))) &&
      (r.Some? && Covariance(pairs) > 0 && Strong(Covariance(pairs), Spread(pairs)) ==>
        r.value.recommendations == PositiveSleepRecommendations) &&
      (r.Some? && !(Covariance(pairs) > 0 && Strong(Covariance(pairs), Spread(pairs))) ==>
        r.value.recommendations == NegativeSleepRecommendations) &&
      (r.Some? ==> r.value == DirectionPattern(SleepDirectionAsWritten(pairs).value, Correlation(pairs, root)))
  {
    var pairs := SleepPairs(entries);
    match SleepDirectionAsWritten(pairs)
    case None => None
    case Some(d) => Some(DirectionPattern(d, Correlation(pairs, root)))
  }

  lemma PositiveProduct(x: real, y: real)
    requires x > 0.0 && y > 0.0
    ensures x * y > 0.0
  {
  }

  lemma SquareBelow(a: real, b: real)
    requires 0.0 <= a < b
    ensures a * a < b * b
  {
    PositiveProduct(b - a, b + a);
    assert b * b - a * a == (b - a) * (b + a);
  }

  /** a / √d ≥ 0.3 as soon as 100·a² ≥ 9·d. */
  lemma QuotientAtLeastGate(a: real, root: real)
    requires a >= 0.0 && root > 0.0
    requires 100.0 * (a * a) >= 9.0 * (root * root)
    ensures a / root >= 0.3
  {
    assert (0.3 * root) * (0.3 * root) == 0.09 * (root * root);
    if a < 0.3 * root {
      SquareBelow(a, 0.3 * root);
    }
    assert a >= 0.3 * root;
    assert a / root * root == a;
  }

  /** |num| / √den ≥ 0.3 when 100·num² ≥ 9·den > 0. */
  lemma RatioAtLeastGate(num: int, den: int, root: real)
    requires root >= 0.0 && root * root == den as real
    requires den > 0 && 100 * (num * num) >= 9 * den
    ensures root > 0.0 && (if num >= 0 then num else -num) as real / root >= 0.3
  {
    var a := (if num >= 0 then num else -num) as real;
    assert a * a == (num * num) as real;
    QuotientAtLeastGate(a, root);
  }

  /** A reported sleep pattern has a strength of at least 0.3, exactly the
      gate that suppresses weaker correlations. */
  lemma SleepStrengthAtLeastGate(entries: seq<MoodEntry>, root: real)
    requires root >= 0.0 && root * root == Spread(SleepPairs(entries)) as real
    requires Spread(SleepPairs(entries)) > 0
    requires SleepPattern(entries, root).Some?
    ensures SleepPattern(entries, root).value.strength >= 0.3
  {
    var pairs := SleepPairs(entries);
    assert Spread(pairs) > 0 && !Weak(Covariance(pairs), Spread(pairs));
    RatioAtLeastGate(Covariance(pairs), Spread(pairs), root);
  }

  // ---------------------------------------------------------------------
  // generateRecommendations

  datatype Band = PositiveBand | ModerateBand | LowerBand

  /** The band of the week's average: at least 7, at least 5, or lower; an
      empty week averages NaN, which is in no band but the last. */
  function WeekBand(scores: seq<int>): Band {
    var recent := Recent(scores);
    if |recent| == 0 then LowerBand
    else if Mean(recent) >= 7.0 then PositiveBand
    else if Mean(recent) >= 5.0 then ModerateBand
    else LowerBand
  }

  /** The band on sums: positive exactly when the week sums to at least
      7 per check-in, moderate when to at least 5 but less than 7. */
  lemma WeekBandByCounts(scores: seq<int>)
    requires scores != []
    ensures var s, n := Sum(Recent(scores)), |Recent(scores)|;
      (WeekBand(scores) == PositiveBand <==> s >= 7 * n) &&
      (WeekBand(scores) == ModerateBand <==> 5 * n <= s < 7 * n) &&
      (WeekBand(scores) == LowerBand <==> s < 5 * n)
  {
    MeanAtLeast(Recent(scores), 7);
    MeanAtLeast(Recent(scores), 5);
  }

  const PositiveWeekText: string :=
    "Your mood has been consistently positive this week! To maintain this wellbeing: continue your current self-care practices, celebrate your progress, and consider what specific activities or routines are contributing to your positive mood."

  const ModerateWeekText: string :=
    "Your mood has been moderate this week. Consider incorporating more activities that bring you joy, practicing mindfulness or gratitude, and ensuring you're getting adequate rest and social connection."

  const LowerWeekText: string :=
    "Your mood has been lower this week. This is a good time to prioritize self-care, reach out to supportive friends or family, and consider speaking with a mental health professional if these feelings persist."

  function BandText(b: Band): string {
    match b
    case PositiveBand => PositiveWeekText
    case ModerateBand => ModerateWeekText
    case LowerBand => LowerWeekText
  }

  /** The insight `generateRecommendations` returns: never absent. */
  function RecommendationFor(entries: seq<MoodEntry>, answer: Option<string>): (r: Insight)
    ensures r.insightType == RecommendationInsight && !r.isReviewed
    ensures Truthy(answer) ==> r.content == answer.value && r.confidence == 0.9
    ensures !Truthy(answer) ==> r.content == BandText(WeekBand(MoodScores(entries))) && r.confidence == 0.8
    ensures (r.periodStart, r.periodEnd) == Period(entries)
  {
    var period := Period(entries);
    if Truthy(answer) then Insight(RecommendationInsight, answer.value, 0.9, period.0, period.1, false)
    else Insight(RecommendationInsight, BandText(WeekBand(MoodScores(entries))), 0.8, period.0, period.1, false)
  }

  // ---------------------------------------------------------------------
  // analyzeMoodPatterns

  /** The list an optional result contributes when pushed if present. */
  function Found<T>(o: Option<T>): (r: seq<T>)
    ensures o.None? ==> r == []
    ensures o.Some? ==> r == [o.value]
  {
    if o.Some? then [o.value] else []
  }

  /** `analyzeMoodPatterns`: nothing from fewer than three check-ins, else
      exactly two insights, the trend then the recommendation, and up to
      two patterns, the trigger pattern and the sleep pattern, each when
      its analysis finds one. `root` stands for the square root of the sleep spread. */
  function MoodPatterns(entries: seq<MoodEntry>, answers: ModelAnswers, root: real): (r: (seq<Insight>, seq<Pattern>))
    ensures |entries| < 3 ==> r == ([], [])
  {
    if |entries| < 3 then ([], [])
    else
      (Found(TrendInsight(entries, answers.trend)) + [RecommendationFor(entries, answers.recommendations)],
       Found(TriggerPattern(entries, answers.triggers)) + Found(SleepPattern(entries, root)))
  }

  /** Whether the trigger analysis has something to rank: two check-ins
      with triggers, one of which is not an inherited key. */
  predicate TriggersCounted(entries: seq<MoodEntry>) {
    |WithTriggers(entries)| >= 2 &&
    exists m :: m in Mentions(WithTriggers(entries)) && !Inherited(m.key)
  }

  /** From three check-ins on: exactly two insights, the trend then the
      recommendation, and up to two patterns, the trigger pattern present
      exactly when two check-ins name triggers of which one has an entry
      in the dictionary, and the sleep pattern exactly when the
      correlation as the code computes it passes its gate. */
  lemma MoodPatternsShape(entries: seq<MoodEntry>, answers: ModelAnswers, root: real)
    requires |entries| >= 3
    ensures var r := MoodPatterns(entries, answers, root);
      |r.0| == 2 && r.0[0].insightType == MoodPattern && r.0[1].insightType == RecommendationInsight &&
      |r.1| == (if TriggersCounted(entries) then 1 else 0) + (if SleepDirectionAsWritten(SleepPairs(entries)).Some? then 1 else 0)
  {
    var trend := TrendInsight(entries, answers.trend);
    var recommendation := RecommendationFor(entries, answers.recommendations);
    InsightsShape(trend, recommendation);
    var triggers := TriggerPattern(entries, answers.triggers);
    TriggerPatternPresent(entries, answers.triggers);
    var sleep := SleepPattern(entries, root);
    assert MoodPatterns(entries, answers, root) == (Found(trend) + [recommendation], Found(triggers) + Found(sleep));
    FoundCount(triggers, sleep);
  }

  lemma InsightsShape(trend: Option<Insight>, recommendation: Insight)
    requires trend.Some?
    ensures |Found(trend) + [recommendation]| == 2
    ensures (Found(trend) + [recommendation])[0] == trend.value
    ensures (Found(trend) + [recommendation])[1] == recommendation
  {
  }

  lemma FoundCount<T>(a: Option<T>, b: Option<T>)
    ensures |Found(a) + Found(b)| == (if a.Some? then 1 else 0) + (if b.Some? then 1 else 0)
  {
  }

  /** `analyzeMoodPatterns` as it runs: each analysis in turn, its result
      pushed when there is one. */
  method AnalyzeMoodPatterns(entries: seq<MoodEntry>, answers: ModelAnswers, root: real)
    returns (insights: seq<Insight>, patterns: seq<Pattern>)
    ensures insights == MoodPatterns(entries, answers, root).0
    ensures patterns == MoodPatterns(entries, answers, root).1
  {
    if |entries| < 3 {
      return [], [];
    }
    var trend := TrendInsight(entries, answers.trend);
    var triggers := AnalyzeTriggerPatterns(entries, answers.triggers);
    var sleep := SleepPattern(entries, root);
    var recommendation := RecommendationFor(entries, answers.recommendations);
    insights, patterns := Collect(trend, triggers, sleep, recommendation);
  }

  /** The pushes of `analyzeMoodPatterns`: the trend insight and the two
      patterns when present, the recommendation last. */
  method Collect(trend: Option<Insight>, triggers: Option<Pattern>, sleep: Option<Pattern>, recommendation: Insight)
    returns (insights: seq<Insight>, patterns: seq<Pattern>)
    ensures insights == Found(trend) + [recommendation]
    ensures patterns == Found(triggers) + Found(sleep)
  {
    insights, patterns := [], [];
    if trend.Some? {
      insights := insights + [trend.value];
    }
    if triggers.Some? {
      patterns := patterns + [triggers.value];
    }
    if sleep.Some? {
      patterns := patterns + [sleep.value];
    }
    insights := insights + [recommendation];
  }
}
