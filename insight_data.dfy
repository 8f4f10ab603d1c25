/** The records the insight engine produces: insights, patterns and risk
    assessments, with the date part of a timestamp that marks the period
    an insight covers. */
module InsightData {
  import opened Text

  datatype InsightType = MoodPattern | TriggerAnalysis | ProgressSummary | RecommendationInsight | Warning

  /** `AIInsight` without its id and creation time, which the store assigns. */
  datatype Insight = Insight(
    insightType: InsightType,
    content: string,
    confidence: real,
    periodStart: string,
    periodEnd: string,
    isReviewed: bool)

  datatype PatternType = MoodCycle | TriggerCorrelation | SleepMood | EnergyMood | WeeklyPattern | StressResponse

  datatype Frequency = Daily | Weekly | Monthly | Irregular

  /** `PatternAnalysis` without its id and timestamps. */
  datatype Pattern = Pattern(
    patternType: PatternType,
    description: string,
    strength: real,
    frequency: Frequency,
    triggers: seq<string>,
    recommendations: seq<string>)

  datatype RiskLevel = Low | Medium | High | Crisis

  /** `RiskAssessment` without its id and creation time. */
  datatype Assessment = Assessment(
    level: RiskLevel,
    riskFactors: seq<string>,
    protectiveFactors: seq<string>,
    recommendations: string,
    requiresIntervention: bool)

  /** The order of the levels, lowest first. */
  function Rank(level: RiskLevel): nat {
    match level
    case Low => 0
    case Medium => 1
    case High => 2
    case Crisis => 3
  }

  /** `createdAt.split('T')[0]`: the text before the first 'T', which is a
      prefix of the timestamp and holds no 'T'. */
  function DatePart(createdAt: string): (date: string)
    ensures date <= createdAt
    ensures 'T' !in date
    ensures |date| < |createdAt| ==> createdAt[|date|] == 'T'
  {
    var parts := Split(createdAt, 'T');
    if |parts| == 1 then parts[0]
    else
      assert Join(parts, 'T') == parts[0] + ['T'] + Join(parts[1..], 'T');
      parts[0]
  }
}
