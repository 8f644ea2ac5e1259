// The Python analytics agent's helpers: the prompt that fills every missing
// metric with a stand-in, the notification strategy table read with
// `dict.get`, and the daily-analytics placeholder. The agent run itself is
// not modelled.
module AnalyticsAgent {
  import opened Wrappers
  import opened Text
  import AnalyticsService

  /** The user history as `str()` renders each value present. */
  type History = map<string, string>

  /** `user_history.get(key, default)`, rendered. */
  function Metric(history: History, key: string, default: string): (r: string)
    ensures key in history ==> r == history[key]
    ensures key !in history ==> r == default
  {
    if key in history then history[key] else default
  }

  /** The history keys the prompt reads. */
  const METRIC_KEYS: set<string> :=
    {"total_sessions", "avg_session_time", "common_times", "current_streak", "longest_streak", "completion_rate",
     "quiz_avg", "best_content_type", "struggle_areas", "days_since_last", "notification_response", "action_day_rate"}

  /** The lines of the `analyze_user_data` prompt; the prompt is these joined by newlines. */
  function PromptLines(userId: string, h: History): seq<string>
  {
    ["Analyze learning patterns for user " + userId + ":", ""]
    + SessionLines(h) + [""] + PerformanceLines(h) + [""] + EngagementLines(h)
    + ["", "Provide comprehensive analysis and actionable recommendations."]
  }

  /** The prompt's session-history block. */
  function SessionLines(h: History): (r: seq<string>)
    ensures |r| == 6
  {
    ["Session History:",
     "- Total sessions: " + Metric(h, "total_sessions", "0"),
     "- Average session time: " + Metric(h, "avg_session_time", "0") + " minutes",
     "- Preferred learning times: " + Metric(h, "common_times", "[]"),
     "- Current streak: " + Metric(h, "current_streak", "0") + " days",
     "- Longest streak: " + Metric(h, "longest_streak", "0") + " days"]
  }

  /** The prompt's performance block. */
  function PerformanceLines(h: History): (r: seq<string>)
    ensures |r| == 5
  {
    ["Performance Data:",
     "- Overall completion rate: " + Metric(h, "completion_rate", "0") + "%",
     "- Quiz average score: " + Metric(h, "quiz_avg", "0") + "%",
     "- Best performing content: " + Metric(h, "best_content_type", "unknown"),
     "- Struggle areas: " + Metric(h, "struggle_areas", "[]")]
  }

  /** The prompt's engagement block. */
  function EngagementLines(h: History): (r: seq<string>)
    ensures |r| == 4
  {
    ["Engagement Metrics:",
     "- Days since last session: " + Metric(h, "days_since_last", "0"),
     "- Response to notifications: " + Metric(h, "notification_response", "unknown"),
     "- Action day completion: " + Metric(h, "action_day_rate", "0") + "%"]
  }

  /** `analyze_user_data`: the prompt text, which opens by naming the user. */
  function AnalyzeUserData(userId: string, h: History): (r: string)
    ensures "Analyze learning patterns for user " + userId + ":" <= r
  {
    JoinWith(PromptLines(userId, h), "\n")
  }

  /**
   * An empty history reads as zero sessions, no times, no streak and unknown preferences: the
   * blocks below are lines 2-7, 9-13 and 15-18 of the prompt.
   */
  lemma EmptyHistoryDefaults()
    ensures SessionLines(map[])[1] == "- Total sessions: 0"
    ensures SessionLines(map[])[3] == "- Preferred learning times: []"
    ensures SessionLines(map[])[4] == "- Current streak: 0 days"
    ensures PerformanceLines(map[])[3] == "- Best performing content: unknown"
    ensures EngagementLines(map[])[2] == "- Response to notifications: unknown"
  {
    var h: History := map[];
    assert Metric(h, "total_sessions", "0") == "0";
    assert Metric(h, "common_times", "[]") == "[]";
    assert Metric(h, "current_streak", "0") == "0";
    assert Metric(h, "best_content_type", "unknown") == "unknown";
    assert Metric(h, "notification_response", "unknown") == "unknown";
  }

  /** Keys the prompt does not read change nothing in it. */
  lemma OtherKeysIgnored(userId: string, h: History, key: string, value: string)
    requires key !in METRIC_KEYS
    ensures PromptLines(userId, h[key := value]) == PromptLines(userId, h)
  {
  }

  /**
   * `get_notification_strategy`: the table read with `dict.get`, so an unknown pattern gets the
   * morning strategy; the timezone is not read. It agrees with the service's intended lookup.
   */
  function GetNotificationStrategy(pattern: string, timezone: string): (r: AnalyticsService.Strategy)
    ensures r == AnalyticsService.NotificationStrategy(pattern)
    ensures AnalyticsService.WellTimed(r)
  {
    var strategies := map[
      "morning_learner" := AnalyticsService.Strategy("08:00", "07:30", "energetic"),
      "lunch_learner" := AnalyticsService.Strategy("12:30", "12:00", "friendly"),
      "evening_learner" := AnalyticsService.Strategy("20:00", "19:30", "relaxed"),
      "night_owl" := AnalyticsService.Strategy("22:00", "21:30", "calm")];
    if pattern in strategies then strategies[pattern] else strategies["morning_learner"]
  }

  /** The timezone never changes the strategy. */
  lemma TimezoneIgnored(pattern: string, zone1: string, zone2: string)
    ensures GetNotificationStrategy(pattern, zone1) == GetNotificationStrategy(pattern, zone2)
  {
  }

  /** A clock time as Python's `time(hour, minute)`. */
  datatype ClockTime = ClockTime(hour: nat, minute: nat)

  function MinuteOf(t: ClockTime): nat
  {
    60 * t.hour + t.minute
  }

  datatype OptimalTime = OptimalTime(windowStart: ClockTime, windowEnd: ClockTime, reason: string,
                                     notificationTime: ClockTime, engagementPrediction: real)
  datatype Optimization = Optimization(difficultyAdjustment: string, contentTypePreferences: seq<string>,
                                       idealSessionLength: int, pacingRecommendation: string)
  datatype Analytics = Analytics(learningPatterns: seq<AnalyticsService.LearningPattern>, optimalTime: OptimalTime,
                                 contentOptimization: Optimization, streakMaintenance: AnalyticsService.StreakMaintenance,
                                 overallEngagementScore: real, keyInsights: seq<string>)

  /**
   * `run_daily_analytics`: the same placeholder whatever the user and session data; it is a
   * coherent analysis (the reminder before a 9-to-10 window, known enums, scores in [0, 1]).
   */
  function RunDailyAnalytics(userId: string, sessionData: History): (r: Analytics)
    ensures MinuteOf(r.optimalTime.notificationTime) < MinuteOf(r.optimalTime.windowStart)
              < MinuteOf(r.optimalTime.windowEnd) < 24 * 60
    ensures r.contentOptimization.difficultyAdjustment in AnalyticsService.DIFFICULTY_ADJUSTMENTS
    ensures r.streakMaintenance.riskLevel in AnalyticsService.RISK_LEVELS
    ensures AnalyticsService.UnitInterval(r.overallEngagementScore)
    ensures AnalyticsService.UnitInterval(r.optimalTime.engagementPrediction)
    ensures r.contentOptimization.idealSessionLength > 0 && r.learningPatterns == []
  {
    Analytics(
      [],
      OptimalTime(ClockTime(9, 0), ClockTime(10, 0), "Historical data shows best engagement", ClockTime(8, 45), 0.85),
      Optimization("maintain", ["quiz_mcq", "read"], 15, "current pace is optimal"),
      AnalyticsService.StreakMaintenance("low", [], [], "celebratory"),
      0.78,
      ["User is highly engaged", "Prefers morning sessions"])
  }

  /** The placeholder does not depend on its inputs. */
  lemma DailyAnalyticsIgnoresInputs(a: string, b: History, c: string, d: History)
    ensures RunDailyAnalytics(a, b) == RunDailyAnalytics(c, d)
  {
  }
}
