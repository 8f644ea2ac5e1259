// The course orchestrator of the first agent package: the next-day search of
// `generate_next_day_content` and the first-day choice of
// `create_personalized_course`. The planner and content agents are oracles.
module CourseOrchestrator {
  import opened Wrappers
  import AdaptiveOrchestrator

  type Section = AdaptiveOrchestrator.Section
  type DayInfo = AdaptiveOrchestrator.DayInfo

  /** What a content-agent run gives back: a validated day (its dumped field count), or the text of the exception raised. */
  datatype AgentRun<T> = Returned(value: T) | Raised(message: string)

  /** The dict returned by `generate_next_day_content`. */
  datatype NextDayResult = NextDayResult(success: bool, error: Option<string>, dayContent: Option<nat>,
                                         dayNumber: Option<int>)

  /**
   * The search loop: every section in order, every day in order, stop at the first day
   * whose number is `target`. The inner `break` ends the section, the outer one the roadmap.
   */
  method SearchNextDay(sections: seq<Section>, target: int) returns (next: Option<DayInfo>)
    ensures next == AdaptiveOrchestrator.FindDayInfo(sections, target)
    ensures next.Some? ==> AdaptiveOrchestrator.FirstMatch(sections, target, next.value)
  {
    next := None;
    var i := 0;
    while i < |sections|
      invariant 0 <= i <= |sections|
      invariant next.None?
      invariant AdaptiveOrchestrator.FindDayInfo(sections, target) == AdaptiveOrchestrator.FindDayInfo(sections[i..], target)
    {
      var days := sections[i].days;
      var j := 0;
      while j < |days|
        invariant 0 <= j <= |days|
        invariant next.None?
        invariant AdaptiveOrchestrator.FirstInSection(days, target) == AdaptiveOrchestrator.FirstInSection(days[j..], target)
      {
        if days[j].dayNumber == target {
          next := Some(days[j]);
          break;
        }
        assert days[j..][1..] == days[j + 1..];
        j := j + 1;
      }
      if next.Some? {
        assert next == AdaptiveOrchestrator.FirstInSection(days, target);
        break;
      }
      assert sections[i..][1..] == sections[i + 1..];
      i := i + 1;
    }
    if next.Some? {
      AdaptiveOrchestrator.FindDayInfoIsFirst(sections, target);
    }
  }

  /**
   * `generate_next_day_content`. A roadmap without `sections` raises `KeyError`, whose text is
   * the quoted key; no day numbered `currentDay + 1` gives the fixed message; an exception from
   * the content agent is reported with its text.
   */
  method GenerateNextDayContent(roadmap: Option<seq<Section>>, currentDay: int, content: AgentRun<nat>)
    returns (r: NextDayResult)
    ensures roadmap.None? ==> r == NextDayResult(false, Some("'sections'"), None, None)
    ensures roadmap.Some? && AdaptiveOrchestrator.FindDayInfo(roadmap.value, currentDay + 1).None? ==>
              r == NextDayResult(false, Some("No hay más días disponibles"), None, None)
    ensures r.success ==> r.dayNumber == Some(currentDay + 1) && content.Returned? && r.dayContent == Some(content.value)
    ensures r.success <==> roadmap.Some? && AdaptiveOrchestrator.FindDayInfo(roadmap.value, currentDay + 1).Some?
                           && content.Returned?
    ensures roadmap.Some? && AdaptiveOrchestrator.FindDayInfo(roadmap.value, currentDay + 1).Some? && content.Raised? ==>
              r == NextDayResult(false, Some(content.message), None, None)
  {
    if roadmap.None? {
      return NextDayResult(false, Some("'sections'"), None, None);
    }
    var next := SearchNextDay(roadmap.value, currentDay + 1);
    if next.None? {
      return NextDayResult(false, Some("No hay más días disponibles"), None, None);
    }
    if content.Raised? {
      return NextDayResult(false, Some(content.message), None, None);
    }
    return NextDayResult(true, None, Some(content.value), Some(next.value.dayNumber));
  }

  /**
   * The dict returned by `create_personalized_course`: on success the dumped learning plan and
   * the dumped first-day content, otherwise the error text.
   */
  datatype CourseResult = CourseResult(success: bool, error: Option<string>, learningPlan: Option<seq<Section>>,
                                       firstDayContent: Option<nat>)

  /**
   * `learning_plan.sections[0].days[0]`: the day the content agent is asked for. `None` stands
   * for the `IndexError` of a plan with no section or a first section with no day.
   */
  function FirstDay(plan: seq<Section>): (r: Option<DayInfo>)
    ensures r.Some? <==> |plan| > 0 && |plan[0].days| > 0
    ensures r.Some? ==> r.value == plan[0].days[0]
  {
    if |plan| == 0 || |plan[0].days| == 0 then None else Some(plan[0].days[0])
  }

  /**
   * `create_personalized_course`. The content run is the content agent asked for `FirstDay` of the
   * plan; it happens only when the planner returned a plan that has one. Any exception, from the
   * planner, the indexing or the content agent, is reported with its text.
   */
  function CreatePersonalizedCourse(plan: AgentRun<seq<Section>>, content: AgentRun<nat>): (r: CourseResult)
    ensures r.success <==> plan.Returned? && FirstDay(plan.value).Some? && content.Returned?
    ensures r.success ==> r.error.None? && r.learningPlan == Some(plan.value) && r.firstDayContent == Some(content.value)
    ensures plan.Raised? ==> r == CourseResult(false, Some(plan.message), None, None)
    ensures plan.Returned? && FirstDay(plan.value).None? ==>
              r == CourseResult(false, Some("list index out of range"), None, None)
    ensures plan.Returned? && FirstDay(plan.value).Some? && content.Raised? ==>
              r == CourseResult(false, Some(content.message), None, None)
    ensures !r.success ==> r.error.Some? && r.learningPlan.None? && r.firstDayContent.None?
  {
    if plan.Raised? then CourseResult(false, Some(plan.message), None, None)
    else if FirstDay(plan.value).None? then CourseResult(false, Some("list index out of range"), None, None)
    else if content.Raised? then CourseResult(false, Some(content.message), None, None)
    else CourseResult(true, None, Some(plan.value), Some(content.value))
  }

  /** The day asked for is the one the next-day search finds for day 1 whenever the plan numbers its first day 1. */
  lemma FirstDayIsDayOne(plan: seq<Section>)
    requires |plan| > 0 && |plan[0].days| > 0 && plan[0].days[0].dayNumber == 1
    ensures FirstDay(plan) == AdaptiveOrchestrator.FindDayInfo(plan, 1)
  {
    assert AdaptiveOrchestrator.FirstInSection(plan[0].days, 1) == Some(plan[0].days[0]);
  }
}
