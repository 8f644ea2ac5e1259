// Turning an LLM reply into a validated DayContent or ActionTask: the forced
// structure applied to the raw JSON before validation, the overrides applied
// after it, and null on every failure.
module ContentGenerator {
  import opened Wrappers
  import opened DataTypes
  import opened LlmSchemas

  /** The chat-completion result: a failure (or empty content), text that is not a JSON object, or the parsed object. */
  datatype LlmReply<T> = CallFailed | NotJson | Parsed(raw: T)

  /**
   * The raw object after the pre-validation assignments: an action day loses its main
   * content and action task and keeps its exercises or null; a content day loses its
   * action task, must have main content (None: the call fails), and defaults exercises to [].
   */
  function ForceStructure(raw: RawDayContent): (r: Option<RawDayContent>)
    ensures raw.isActionDay == Some(true) ==> r.Some? && r.value.mainContent.Null? && r.value.actionTask.Null?
    ensures raw.isActionDay == Some(true) ==> r.value.exercises == (if raw.exercises.Present? then raw.exercises else Null)
    ensures raw.isActionDay != Some(true) ==> (r.None? <==> !raw.mainContent.Present?)
    ensures raw.isActionDay != Some(true) && r.Some? ==>
      r.value.actionTask.Null? && r.value.mainContent == raw.mainContent
      && r.value.exercises == (if raw.exercises.Present? then raw.exercises else Present([]))
    ensures r.Some? ==> r.value.title == raw.title && r.value.isActionDay == raw.isActionDay && r.value.objectives == raw.objectives
  {
    if raw.isActionDay == Some(true) then
      Some(raw.(mainContent := Null, exercises := if raw.exercises.Present? then raw.exercises else Null, actionTask := Null))
    else if !raw.mainContent.Present? then None
    else Some(raw.(actionTask := Null, exercises := if raw.exercises.Present? then raw.exercises else Present([])))
  }

  /** The post-validation overrides: an action day's main content and a content day's action task become null. */
  function Override(d: DayContent): (r: DayContent)
    ensures r.isActionDay ==> r.mainContent.None?
    ensures !r.isActionDay ==> r.actionTask.Null?
    ensures r.isActionDay == d.isActionDay && r.objectives == d.objectives && r.exercises == d.exercises
  {
    if d.isActionDay && d.mainContent.Some? then d.(mainContent := None)
    else if !d.isActionDay && !d.actionTask.Null? then d.(actionTask := Null)
    else d
  }

  /** The overrides never fire on content that passed the refinement. */
  lemma OverrideKeepsConsistentContent(d: DayContent)
    requires StructurallyConsistent(d)
    ensures Override(d) == d
  {
  }

  /** `generateDailyContentStructureWithOpenAI`, from the LLM reply on. */
  method GenerateDailyContentStructure(reply: LlmReply<RawDayContent>) returns (r: Option<DayContent>)
    ensures reply.CallFailed? || reply.NotJson? ==> r.None?
    ensures reply.Parsed? ==>
      r == (var forced := ForceStructure(reply.raw);
            if forced.Some? && ParseDayContent(forced.value).Ok? then Some(ParseDayContent(forced.value).value) else None)
    ensures r.Some? ==> StructurallyConsistent(r.value)
    ensures r.Some? && r.value.isActionDay ==> r.value.actionTask.Null? && r.value.mainContent.None?
    ensures r.Some? && !r.value.isActionDay ==> r.value.exercises.Present?
  {
    if !reply.Parsed? {
      return None;
    }
    var raw := reply.raw;
    if raw.isActionDay == Some(true) {
      raw := raw.(mainContent := Null);
      raw := raw.(exercises := if raw.exercises.Present? then raw.exercises else Null);
      raw := raw.(actionTask := Null);
    } else {
      raw := raw.(actionTask := Null);
      if !raw.mainContent.Present? {
        return None;
      }
      raw := raw.(exercises := if raw.exercises.Present? then raw.exercises else Present([]));
    }
    var validated := ParseDayContent(raw);
    if validated.Err? {
      return None;
    }
    OverrideKeepsConsistentContent(validated.value);
    r := Some(Override(validated.value));
  }

  /** A content day that validates is returned even with no exercises. */
  lemma ContentDayWithoutExercisesAccepted(raw: RawDayContent)
    requires raw.isActionDay == Some(false) && raw.mainContent.Present? && !raw.exercises.Present?
    requires ParseDayContent(ForceStructure(raw).value).Ok?
    ensures ParseDayContent(ForceStructure(raw).value).value.exercises == Present([])
  {
  }

  /** A content day without main content never validates, whatever else it holds. */
  lemma ContentDayNeedsMainContent(raw: RawDayContent)
    requires raw.isActionDay != Some(true) && !raw.mainContent.Present?
    ensures ForceStructure(raw).None?
  {
  }

  /** `generateActionDayTaskWithOpenAI`: `isActionDay` only produces a warning; null on any failure. */
  function GenerateActionDayTask(isActionDay: bool, reply: LlmReply<RawActionTask>): (r: Option<ActionTask>)
    ensures reply.Parsed? ==> (r.Some? <==> ParseActionTask(reply.raw).Ok?)
    ensures r.Some? ==> reply.Parsed? && r.value == ParseActionTask(reply.raw).value
    ensures !reply.Parsed? ==> r.None?
  {
    if !reply.Parsed? then None
    else
      var t := ParseActionTask(reply.raw);
      if t.Err? then None else Some(t.value)
  }

  /** The result does not depend on whether the day is marked as an action day. */
  lemma ActionTaskIgnoresFlag(reply: LlmReply<RawActionTask>)
    ensures GenerateActionDayTask(true, reply) == GenerateActionDayTask(false, reply)
  {
  }
}
