// The user statistics endpoints: days and completed days counted over the
// current plan's sections, the rounded progress percentage and daily XP
// average, the defaults for a missing streak record, and the 404 of the streak
// endpoint. The plan, streak and XP lookups are inputs.
module UserStats {
  import opened Wrappers
  import XpQueries

  datatype PlanDay = PlanDay(completionStatus: string)
  datatype PlanSection = PlanSection(days: Option<seq<PlanDay>>)
  datatype CurrentPlan = CurrentPlan(id: string, skillName: string, totalDurationWeeks: int, dailyTimeMinutes: int,
                                     sections: Option<seq<PlanSection>>)

  /** `Math.round(n / d)` for a non-negative ratio, in exact arithmetic: halves round up. */
  function RoundRatio(n: nat, d: nat): (r: nat)
    requires d > 0
    ensures (2 * r - 1) * d <= 2 * n < (2 * r + 1) * d
  {
    var r := (2 * n + d) / (2 * d);
    assert 2 * n + d == 2 * d * r + (2 * n + d) % (2 * d);
    r
  }

  /** The days of one section (none when it has no `days`). */
  function SectionTotal(s: PlanSection): nat
  {
    if s.days.Some? then |s.days.value| else 0
  }

  /** The days of one section whose status is exactly 'COMPLETED'. */
  function CompletedIn(days: seq<PlanDay>): (c: nat)
    ensures c <= |days|
  {
    if |days| == 0 then 0
    else CompletedIn(days[..|days| - 1]) + (if days[|days| - 1].completionStatus == "COMPLETED" then 1 else 0)
  }

  function SectionCompleted(s: PlanSection): (c: nat)
    ensures c <= SectionTotal(s)
  {
    if s.days.Some? then CompletedIn(s.days.value) else 0
  }

  /** The sum of the section day counts. */
  function TotalDays(sections: seq<PlanSection>): nat
  {
    if |sections| == 0 then 0 else TotalDays(sections[..|sections| - 1]) + SectionTotal(sections[|sections| - 1])
  }

  /** The sum of the completed-day counts. */
  function CompletedDays(sections: seq<PlanSection>): nat
  {
    if |sections| == 0 then 0 else CompletedDays(sections[..|sections| - 1]) + SectionCompleted(sections[|sections| - 1])
  }

  /** No plan counts more completed days than days. */
  lemma {:induction false} CompletedAtMostTotal(sections: seq<PlanSection>)
    ensures CompletedDays(sections) <= TotalDays(sections)
    decreases |sections|
  {
    if |sections| > 0 {
      CompletedAtMostTotal(sections[..|sections| - 1]);
    }
  }

  /** The `forEach` over the sections, accumulating both counts. */
  method CountDays(sections: seq<PlanSection>) returns (completedDays: nat, totalDays: nat)
    ensures completedDays == CompletedDays(sections) && totalDays == TotalDays(sections)
    ensures completedDays <= totalDays
  {
    completedDays, totalDays := 0, 0;
    var i := 0;
    while i < |sections|
      invariant 0 <= i <= |sections|
      invariant completedDays == CompletedDays(sections[..i]) && totalDays == TotalDays(sections[..i])
    {
      assert sections[..i + 1][..i] == sections[..i];
      if sections[i].days.Some? {
        totalDays := totalDays + |sections[i].days.value|;
        completedDays := completedDays + CompletedIn(sections[i].days.value);
      }
      i := i + 1;
    }
    assert sections[..i] == sections;
    CompletedAtMostTotal(sections);
  }

  /** The percentage: the rounded share of completed days, or 0 when there are no days. */
  function Progress(completedDays: nat, totalDays: nat): (p: nat)
    requires completedDays <= totalDays
    ensures p <= 100
    ensures totalDays == 0 ==> p == 0
    ensures totalDays > 0 ==> (2 * p - 1) * totalDays <= 200 * completedDays < (2 * p + 1) * totalDays
  {
    if totalDays > 0 then
      var p := RoundRatio(100 * completedDays, totalDays);
      MulMono(completedDays, totalDays, 200);
      MulCancel(2 * p - 1, 200, totalDays);
      p
    else 0
  }

  /** Multiplying by a non-negative factor keeps an inequality. */
  lemma MulMono(a: int, b: int, k: nat)
    requires a <= b
    ensures k * a <= k * b
  {
  }

  /** A positive factor common to both sides can be cancelled. */
  lemma MulCancel(a: int, b: int, t: int)
    requires t > 0 && a * t <= b * t
    ensures a <= b
  {
  }

  /** A finished plan is at 100 and an untouched one at 0. */
  lemma ProgressEnds(totalDays: nat)
    requires totalDays > 0
    ensures Progress(totalDays, totalDays) == 100 && Progress(0, totalDays) == 0
  {
    var p := Progress(totalDays, totalDays);
    assert (2 * p - 1) * totalDays <= 200 * totalDays < (2 * p + 1) * totalDays;
    assert 2 * p - 1 <= 200 < 2 * p + 1;
    var q := Progress(0, totalDays);
    assert 0 < (2 * q + 1) * totalDays;
    assert (2 * q - 1) * totalDays <= 0;
  }

  /** The daily XP average: the rounded XP per completed day, or 0 unless both are positive. */
  function DailyAverage(totalXP: int, completedDays: nat): (a: nat)
    ensures !(totalXP > 0 && completedDays > 0) ==> a == 0
    ensures totalXP > 0 && completedDays > 0 ==> (2 * a - 1) * completedDays <= 2 * totalXP < (2 * a + 1) * completedDays
  {
    if totalXP > 0 && completedDays > 0 then RoundRatio(totalXP, completedDays) else 0
  }

  datatype StreakStats = StreakStats(current: int, longest: int, lastContribution: Option<string>)
  datatype PlanSummary = PlanSummary(id: string, skillName: string, durationWeeks: int, dailyTimeMinutes: int)
  datatype Stats = Stats(streak: StreakStats, totalXP: int, dailyAverage: nat, percentage: nat,
                         completedDays: nat, totalDays: nat, currentPlan: Option<PlanSummary>)

  /**
   * The streak part with `||` defaults: a missing record, or a null or zero count, gives 0;
   * a missing or empty last-contribution date gives null.
   */
  function StreakOf(streakData: Option<XpQueries.StreakData>): (s: StreakStats)
    ensures streakData.None? ==> s == StreakStats(0, 0, None)
    ensures streakData.Some? ==> s.current == streakData.value.currentStreak.GetOr(0)
                                 && s.longest == streakData.value.longestStreak.GetOr(0)
    ensures s.lastContribution.Some? <==> streakData.Some? && streakData.value.lastContributionDate.Some?
                                          && streakData.value.lastContributionDate.value != ""
    ensures s.lastContribution.Some? ==> s.lastContribution == streakData.value.lastContributionDate
  {
    if streakData.None? then StreakStats(0, 0, None)
    else
      var d := streakData.value;
      var last := if d.lastContributionDate.Some? && d.lastContributionDate.value != "" then d.lastContributionDate else None;
      StreakStats(d.currentStreak.GetOr(0), d.longestStreak.GetOr(0), last)
  }

  /** `getUserStatsController` on a successful lookup of the plan, the streak and the total XP. */
  method GetUserStats(plan: Option<CurrentPlan>, streakData: Option<XpQueries.StreakData>, totalXP: int)
    returns (r: Stats)
    ensures plan.None? || plan.value.sections.None? ==> r.totalDays == 0 && r.completedDays == 0 && r.percentage == 0
    ensures plan.Some? && plan.value.sections.Some? ==>
              r.totalDays == TotalDays(plan.value.sections.value) && r.completedDays == CompletedDays(plan.value.sections.value)
    ensures r.completedDays <= r.totalDays
    ensures r.percentage == Progress(r.completedDays, r.totalDays) && r.percentage <= 100
    ensures r.totalXP == totalXP && r.dailyAverage == DailyAverage(totalXP, r.completedDays)
    ensures r.streak == StreakOf(streakData)
    ensures r.currentPlan.None? <==> plan.None?
    ensures plan.Some? ==> r.currentPlan == Some(PlanSummary(plan.value.id, plan.value.skillName,
                                                             plan.value.totalDurationWeeks, plan.value.dailyTimeMinutes))
  {
    var progress, completedDays, totalDays := 0, 0, 0;
    if plan.Some? && plan.value.sections.Some? {
      completedDays, totalDays := CountDays(plan.value.sections.value);
      progress := Progress(completedDays, totalDays);
    }
    var summary := if plan.Some? then Some(PlanSummary(plan.value.id, plan.value.skillName,
                                                       plan.value.totalDurationWeeks, plan.value.dailyTimeMinutes))
                   else None;
    r := Stats(StreakOf(streakData), totalXP, DailyAverage(totalXP, completedDays), progress,
               completedDays, totalDays, summary);
  }

  /** The answer of `getUserStreakController`. */
  datatype StreakReply = StreakNotFound(message: string) | StreakFound(data: XpQueries.StreakData)

  /** No streak record gives 404; otherwise the record is returned as stored, nulls included. */
  function GetUserStreak(streakData: Option<XpQueries.StreakData>): (r: StreakReply)
    ensures r.StreakNotFound? <==> streakData.None?
    ensures r.StreakNotFound? ==> r.message == "No streak data found for user."
    ensures r.StreakFound? ==> r.data == streakData.value
  {
    if streakData.None? then StreakNotFound("No streak data found for user.") else StreakFound(streakData.value)
  }
}
