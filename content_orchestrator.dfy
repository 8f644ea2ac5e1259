// `generateAndSaveContentForDay`: the plan/owner/user checks, the end-of-plan
// success, the day lookup, LLM generation (an action task attached on action
// days), the save, and the IN_PROGRESS status update.
module ContentOrchestrator {
  import opened Wrappers
  import opened Text
  import opened DataTypes
  import opened LlmSchemas
  import ContentGenerator
  import DataConnect

  datatype DayMeta = DayMeta(id: string, dayNumber: int, title: string, isActionDay: bool)
  datatype SectionStructure = SectionStructure(days: Option<seq<DayMeta>>)
  datatype PlanStructure = PlanStructure(userFirebaseUid: string, skillName: string,
                                         sections: Option<seq<SectionStructure>>)

  datatype OrchestratorResult = OrchestratorResult(success: bool, message: string, statusCode: Option<int>,
                                                   data: Option<DayContent>)

  /** `plan.sections?.flatMap(s => s.days ?? [])`, with `[]` when there are no sections. */
  function AllDays(sections: seq<SectionStructure>): (r: seq<DayMeta>)
    decreases |sections|
  {
    if |sections| == 0 then []
    else (if sections[0].days.Some? then sections[0].days.value else []) + AllDays(sections[1..])
  }

  function PlanDays(plan: PlanStructure): seq<DayMeta>
  {
    if plan.sections.Some? then AllDays(plan.sections.value) else []
  }

  /** `days.find(d => d.dayNumber === dayNumber)`: the first match. */
  function FindDay(days: seq<DayMeta>, dayNumber: int): (r: Option<DayMeta>)
    ensures r.Some? ==> r.value in days && r.value.dayNumber == dayNumber
    ensures r.None? <==> forall k :: 0 <= k < |days| ==> days[k].dayNumber != dayNumber
    decreases |days|
  {
    if |days| == 0 then None
    else if days[0].dayNumber == dayNumber then Some(days[0])
    else FindDay(days[1..], dayNumber)
  }

  /** The first match really is the first: no earlier day carries the number. */
  lemma {:induction false} FindDayIsFirst(days: seq<DayMeta>, dayNumber: int)
    requires FindDay(days, dayNumber).Some?
    ensures exists k :: 0 <= k < |days| && days[k] == FindDay(days, dayNumber).value
                        && forall j :: 0 <= j < k ==> days[j].dayNumber != dayNumber
    decreases |days|
  {
    if days[0].dayNumber != dayNumber {
      FindDayIsFirst(days[1..], dayNumber);
      var k :| 0 <= k < |days[1..]| && days[1..][k] == FindDay(days[1..], dayNumber).value
               && forall j :: 0 <= j < k ==> days[1..][j].dayNumber != dayNumber;
      assert days[k + 1] == FindDay(days, dayNumber).value;
      forall j | 0 <= j < k + 1
        ensures days[j].dayNumber != dayNumber
      {
        if j > 0 {
          assert days[j] == days[1..][j - 1];
        }
      }
    } else {
      assert days[0] == FindDay(days, dayNumber).value;
    }
  }

  /** Where the checks before generation leave the request. */
  datatype Gate = Refused(code: int, message: string) | PlanCompleted | Proceed(day: DayMeta)

  /** Steps 2 and 3: missing plan 404, foreign plan 403, missing user 404, past the end success, unknown day 404. */
  function Validate(plan: Option<PlanStructure>, userId: string, userFound: bool, dayNumber: int): (r: Gate)
    ensures plan.None? ==> r == Refused(404, "Learning plan not found.")
    ensures plan.Some? && plan.value.userFirebaseUid != userId ==> r == Refused(403, "User is not authorized to modify this plan.")
    ensures plan.Some? && plan.value.userFirebaseUid == userId && !userFound ==> r == Refused(404, "User profile not found.")
    ensures r.PlanCompleted? <==>
            plan.Some? && plan.value.userFirebaseUid == userId && userFound && dayNumber > |PlanDays(plan.value)|
    ensures r.Proceed? ==> plan.Some? && r.day.dayNumber == dayNumber && r.day in PlanDays(plan.value)
    ensures plan.Some? && plan.value.userFirebaseUid == userId && userFound && dayNumber <= |PlanDays(plan.value)| ==>
              var found := FindDay(PlanDays(plan.value), dayNumber);
              && (found.None? ==> r == Refused(404, "Day " + IntToString(dayNumber) + " metadata not found in plan structure."))
              && (found.Some? ==> r == Proceed(found.value))
  {
    if plan.None? then Refused(404, "Learning plan not found.")
    else if plan.value.userFirebaseUid != userId then Refused(403, "User is not authorized to modify this plan.")
    else if !userFound then Refused(404, "User profile not found.")
    else
      var days := PlanDays(plan.value);
      if dayNumber > |days| then PlanCompleted
      else
        var meta := FindDay(days, dayNumber);
        if meta.None? then Refused(404, "Day " + IntToString(dayNumber) + " metadata not found in plan structure.")
        else Proceed(meta.value)
  }

  /** The content sent to the database: on an action day the freshly generated task (or null) replaces `action_task`. */
  function WithActionTask(content: DayContent, task: Option<ActionTask>): (r: DayContent)
    ensures content.isActionDay ==> r.actionTask == (if task.Some? then Present(task.value) else Null)
    ensures !content.isActionDay ==> r == content
    ensures r.(actionTask := content.actionTask) == content
  {
    if content.isActionDay then content.(actionTask := if task.Some? then Present(task.value) else Null) else content
  }

  /** The completion status of each day row, as `updateDayCompletionStatus` writes it. */
  class DayStatuses {
    var status: map<string, CompletionStatus>

    constructor(status: map<string, CompletionStatus>)
      ensures this.status == status
    {
      this.status := status;
    }

    method Update(dayId: string, s: CompletionStatus)
      modifies this
      ensures status == old(status)[dayId := s]
    {
      status := status[dayId := s];
    }
  }

  /** What the content generator hands back for a reply: the forced, validated structure or nothing. */
  function Generated(reply: ContentGenerator.LlmReply<RawDayContent>): Option<DayContent>
  {
    if !reply.Parsed? then None
    else
      var forced := ContentGenerator.ForceStructure(reply.raw);
      if forced.Some? && ParseDayContent(forced.value).Ok? then Some(ParseDayContent(forced.value).value) else None
  }

  /** The content that reaches the database: the generated day, with the day's action task on action days. */
  function ToSave(day: DayMeta, reply: ContentGenerator.LlmReply<RawDayContent>,
                  actionReply: ContentGenerator.LlmReply<RawActionTask>): (r: Option<DayContent>)
    ensures r.None? <==> Generated(reply).None?
    ensures r.Some? && !r.value.isActionDay ==> r == Generated(reply)
    ensures r.Some? && r.value.isActionDay ==>
              var task := ContentGenerator.GenerateActionDayTask(day.isActionDay, actionReply);
              && r.value.actionTask == (if task.Some? then Present(task.value) else Null)
              && r.value.(actionTask := Generated(reply).value.actionTask) == Generated(reply).value
  {
    var g := Generated(reply);
    if g.None? then None
    else if g.value.isActionDay then Some(WithActionTask(g.value, ContentGenerator.GenerateActionDayTask(day.isActionDay, actionReply)))
    else g
  }

  /**
   * Steps 4 to 7 of `generateAndSaveContentForDay` for a day that passed the checks:
   * generation through the content generator, the action task on action days, the
   * save through the composite insert, and the IN_PROGRESS update after a good save.
   */
  method GenerateAndSave(db: DataConnect.Db, statuses: DayStatuses, day: DayMeta, dayNumber: int,
                         reply: ContentGenerator.LlmReply<RawDayContent>,
                         actionReply: ContentGenerator.LlmReply<RawActionTask>)
    returns (r: OrchestratorResult)
    modifies db, statuses
    ensures var c := ToSave(day, reply, actionReply);
            && (c.None? ==> r == OrchestratorResult(false, "Failed to generate daily content structure from LLM.", Some(500), None)
                            && db.State() == old(db.State()))
            && (c.Some? ==> (db.State(), r.success) == DataConnect.SaveDailySpec(old(db.State()), day.id, c.value))
            && (c.Some? && !r.success ==> r == OrchestratorResult(false, "Failed to save generated content to the database.", Some(500), None))
            && (r.success ==> r.data == c && r.statusCode.None?)
    ensures r.success ==> statuses.status == old(statuses.status)[day.id := InProgress]
    ensures !r.success ==> statuses.status == old(statuses.status)
  {
    var generated := ContentGenerator.GenerateDailyContentStructure(reply);
    if generated.None? {
      return OrchestratorResult(false, "Failed to generate daily content structure from LLM.", Some(500), None);
    }
    var content := generated.value;
    if content.isActionDay {
      var task := ContentGenerator.GenerateActionDayTask(day.isActionDay, actionReply);
      content := WithActionTask(content, task);
    }
    assert Some(content) == ToSave(day, reply, actionReply);
    var saveSuccess := db.SaveDailyContentDetails(day.id, content);
    if !saveSuccess {
      return OrchestratorResult(false, "Failed to save generated content to the database.", Some(500), None);
    }
    statuses.Update(day.id, InProgress);
    r := OrchestratorResult(true, "Content for day " + IntToString(dayNumber) + " generated and saved successfully.",
                            None, Some(content));
  }

  /**
   * `generateAndSaveContentForDay`. The plan and user lookups, the two LLM replies
   * and the database's insert outcomes are inputs.
   */
  method GenerateAndSaveContentForDay(db: DataConnect.Db, statuses: DayStatuses,
                                      plan: Option<PlanStructure>, userId: string, userFound: bool, dayNumber: int,
                                      reply: ContentGenerator.LlmReply<RawDayContent>,
                                      actionReply: ContentGenerator.LlmReply<RawActionTask>)
    returns (r: OrchestratorResult)
    modifies db, statuses
    ensures var gate := Validate(plan, userId, userFound, dayNumber);
            && (gate.Refused? ==> r == OrchestratorResult(false, gate.message, Some(gate.code), None))
            && (gate.PlanCompleted? ==>
                  r == OrchestratorResult(true, "Learning plan successfully completed. No more content to generate.", None, None))
            && (!gate.Proceed? ==> db.State() == old(db.State()) && statuses.status == old(statuses.status))
            && (gate.Proceed? ==>
                  var c := ToSave(gate.day, reply, actionReply);
                  && (c.None? ==> !r.success && db.State() == old(db.State()))
                  && (c.Some? ==> (db.State(), r.success) == DataConnect.SaveDailySpec(old(db.State()), gate.day.id, c.value))
                  && (r.success ==> r.data == c && statuses.status == old(statuses.status)[gate.day.id := InProgress])
                  && (!r.success ==> r.statusCode == Some(500) && statuses.status == old(statuses.status)))
  {
    var gate := Validate(plan, userId, userFound, dayNumber);
    if gate.Refused? {
      return OrchestratorResult(false, gate.message, Some(gate.code), None);
    }
    if gate.PlanCompleted? {
      return OrchestratorResult(true, "Learning plan successfully completed. No more content to generate.", None, None);
    }
    assert gate.Proceed?;
    r := GenerateAndSave(db, statuses, gate.day, dayNumber, reply, actionReply);
  }

  /** The day count is the sum of the sections' day counts. */
  lemma {:induction false} AllDaysCount(sections: seq<SectionStructure>)
    ensures |AllDays(sections)| == SectionDayCount(sections)
    decreases |sections|
  {
    if |sections| > 0 {
      AllDaysCount(sections[1..]);
    }
  }

  function SectionDayCount(sections: seq<SectionStructure>): nat
    decreases |sections|
  {
    if |sections| == 0 then 0
    else (if sections[0].days.Some? then |sections[0].days.value| else 0) + SectionDayCount(sections[1..])
  }
}
