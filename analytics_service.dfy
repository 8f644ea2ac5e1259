// The analytics service: the schemas an LLM analysis must satisfy (HH:MM
// times, the difficulty and risk enums, scores in [0, 1], a positive whole
// session length), null on a failed call or a rejected reply, and the fixed
// notification strategy of a learning-time pattern. The model call's outcome
// is an input.
module AnalyticsService {
  import opened Wrappers
  import LlmSchemas
  import ContentGenerator

  datatype LearningPattern = LearningPattern(patternType: string, description: string, confidence: real,
                                             recommendations: seq<string>)

  datatype OptimalLearningTime = OptimalLearningTime(windowStart: string, windowEnd: string, reason: string,
                                                     notificationTime: string, engagementPrediction: real)

  datatype ContentOptimization = ContentOptimization(difficultyAdjustment: string, contentTypePreferences: seq<string>,
                                                     idealSessionLengthMinutes: real, pacingRecommendation: string)

  datatype StreakMaintenance = StreakMaintenance(riskLevel: string, riskFactors: seq<string>,
                                                 interventionStrategies: seq<string>, motivationalApproach: string)

  datatype UserAnalytics = UserAnalytics(learningPatterns: seq<LearningPattern>, optimalLearningTime: OptimalLearningTime,
                                         contentOptimization: ContentOptimization, streakMaintenance: StreakMaintenance,
                                         overallEngagementScore: real, keyInsights: seq<string>)

  const PATTERN_TYPES: set<string> := {"time_based", "performance_based", "engagement_based", "content_preference", "other"}
  const DIFFICULTY_ADJUSTMENTS: set<string> := {"increase", "maintain", "decrease"}
  const RISK_LEVELS: set<string> := {"low", "medium", "high"}

  /** A number in [0, 1]. */
  predicate UnitInterval(x: real)
  {
    0.0 <= x <= 1.0
  }

  /** `z.number().int().positive()`. */
  predicate PositiveWhole(x: real)
  {
    x > 0.0 && x == x.Floor as real
  }

  predicate ValidLearningPattern(p: LearningPattern)
  {
    p.patternType in PATTERN_TYPES && |p.description| >= 1 && UnitInterval(p.confidence)
    && LlmSchemas.NonEmptyStrings(p.recommendations)
  }

  predicate ValidOptimalLearningTime(t: OptimalLearningTime)
  {
    LlmSchemas.IsTimeString(t.windowStart) && LlmSchemas.IsTimeString(t.windowEnd) && |t.reason| >= 1
    && LlmSchemas.IsTimeString(t.notificationTime) && UnitInterval(t.engagementPrediction)
  }

  predicate ValidContentOptimization(c: ContentOptimization)
  {
    c.difficultyAdjustment in DIFFICULTY_ADJUSTMENTS && LlmSchemas.NonEmptyStrings(c.contentTypePreferences)
    && PositiveWhole(c.idealSessionLengthMinutes) && |c.pacingRecommendation| >= 1
  }

  predicate ValidStreakMaintenance(s: StreakMaintenance)
  {
    s.riskLevel in RISK_LEVELS && LlmSchemas.NonEmptyStrings(s.riskFactors)
    && LlmSchemas.NonEmptyStrings(s.interventionStrategies) && |s.motivationalApproach| >= 1
  }

  /** `UserAnalyticsSchema`. */
  predicate ValidUserAnalytics(a: UserAnalytics)
  {
    (forall i :: 0 <= i < |a.learningPatterns| ==> ValidLearningPattern(a.learningPatterns[i]))
    && ValidOptimalLearningTime(a.optimalLearningTime) && ValidContentOptimization(a.contentOptimization)
    && ValidStreakMaintenance(a.streakMaintenance) && UnitInterval(a.overallEngagementScore)
    && LlmSchemas.NonEmptyStrings(a.keyInsights)
  }

  /**
   * `analyzeUserLearningPatterns`: null when the call fails, the text is not JSON or the object
   * does not satisfy the schema; otherwise the object, whose times are clock times, whose
   * session length is a whole number of at least one minute and whose enums are known.
   */
  function AnalyzeUserLearningPatterns(reply: ContentGenerator.LlmReply<UserAnalytics>): (r: Option<UserAnalytics>)
    ensures r.Some? <==> reply.Parsed? && ValidUserAnalytics(reply.raw)
    ensures r.Some? ==> r == Some(reply.raw)
    ensures r.Some? ==> && LlmSchemas.MinuteOfDay(r.value.optimalLearningTime.notificationTime) < 24 * 60
                        && r.value.contentOptimization.idealSessionLengthMinutes.Floor >= 1
                        && r.value.contentOptimization.difficultyAdjustment in DIFFICULTY_ADJUSTMENTS
                        && r.value.streakMaintenance.riskLevel in RISK_LEVELS
                        && UnitInterval(r.value.overallEngagementScore)
  {
    if reply.Parsed? && ValidUserAnalytics(reply.raw) then
      LlmSchemas.TimeStringIsFormatted(reply.raw.optimalLearningTime.notificationTime);
      Some(reply.raw)
    else None
  }

  /** `predictChurnAndSuggestInterventions`: null on any failure, otherwise the validated analysis. */
  function PredictChurn(reply: ContentGenerator.LlmReply<StreakMaintenance>): (r: Option<StreakMaintenance>)
    ensures r.Some? <==> reply.Parsed? && ValidStreakMaintenance(reply.raw)
    ensures r.Some? ==> r == Some(reply.raw) && r.value.riskLevel in RISK_LEVELS
  {
    if reply.Parsed? && ValidStreakMaintenance(reply.raw) then Some(reply.raw) else None
  }

  // ---- Notification strategy ----

  datatype Strategy = Strategy(primaryTime: string, reminderTime: string, messageTone: string)

  const MORNING_LEARNER: Strategy := Strategy("08:00", "07:30", "energetic")

  /** The own entries of the strategy table. */
  function StrategyEntry(pattern: string): Option<Strategy>
  {
    if pattern == "morning_learner" then Some(MORNING_LEARNER)
    else if pattern == "lunch_learner" then Some(Strategy("12:30", "12:00", "friendly"))
    else if pattern == "evening_learner" then Some(Strategy("20:00", "19:30", "relaxed"))
    else if pattern == "night_owl" then Some(Strategy("22:00", "21:30", "calm"))
    else None
  }

  /** Both times are HH:MM and the reminder comes half an hour before the primary time. */
  predicate WellTimed(s: Strategy)
  {
    LlmSchemas.IsTimeString(s.primaryTime) && LlmSchemas.IsTimeString(s.reminderTime)
    && LlmSchemas.MinuteOfDay(s.reminderTime) + 30 == LlmSchemas.MinuteOfDay(s.primaryTime)
  }

  /**
   * `getNotificationStrategy` as intended: the pattern's own entry, the morning strategy for
   * any other pattern; every strategy is well timed.
   */
  function NotificationStrategy(pattern: string): (r: Strategy)
    ensures StrategyEntry(pattern).Some? ==> r == StrategyEntry(pattern).value
    ensures StrategyEntry(pattern).None? ==> r == MORNING_LEARNER
    ensures WellTimed(r)
  {
    StrategyEntry(pattern).GetOr(MORNING_LEARNER)
  }

  /** The members every plain object inherits from Object.prototype, each a truthy value. */
  const OBJECT_PROTOTYPE_MEMBERS: set<string> :=
    {"constructor", "__proto__", "toString", "toLocaleString", "valueOf", "hasOwnProperty", "isPrototypeOf",
     "propertyIsEnumerable", "__defineGetter__", "__defineSetter__", "__lookupGetter__", "__lookupSetter__"}

  /** What `strategies[pattern]` yields on the object literal: an own entry or an inherited member. */
  datatype StrategyLookup = OwnStrategy(strategy: Strategy) | InheritedMember(member: string)

  /** `strategies[userTimePattern] || strategies['morning_learner']` as written. */
  function NotificationStrategyAsWritten(pattern: string): (r: StrategyLookup)
    ensures pattern in OBJECT_PROTOTYPE_MEMBERS ==> r == InheritedMember(pattern)
  {
    if StrategyEntry(pattern).Some? then OwnStrategy(StrategyEntry(pattern).value)
    else if pattern in OBJECT_PROTOTYPE_MEMBERS then InheritedMember(pattern)
    else OwnStrategy(MORNING_LEARNER)
  }

  /** "toString" reaches a function on Object.prototype, which is returned instead of a strategy. */
  lemma StrategyPrototypeLeak()
    ensures NotificationStrategyAsWritten("toString").InheritedMember?
  {
  }

  /** Off the prototype members the code and the intended lookup agree. */
  lemma StrategyAgreesOffPrototype(pattern: string)
    requires pattern !in OBJECT_PROTOTYPE_MEMBERS
    ensures NotificationStrategyAsWritten(pattern) == OwnStrategy(NotificationStrategy(pattern))
  {
  }
}
