// The content agent's choice between preserving an existing course verbatim,
// remixing it, and writing fresh content, and the conversion of preserved plan
// steps into course blocks. The agent runs and the evaluation of a quiz step's
// prompt are inputs.
module ContentAgent {
  import opened Wrappers
  import opened Text
  import Course
  import Planner

  /** The three routes of `generate_course_content`. */
  datatype Route = Preserve | RemixExisting | Fresh

  /** The reasoning mentions an existing course: "curso", and "canónico" or "existente". */
  predicate BasedOnExisting(reasoning: string)
  {
    Contains(reasoning, "curso") && (Contains(reasoning, "canónico") || Contains(reasoning, "existente"))
  }

  /** The route is read off the plan's reasoning text alone. */
  function RouteOf(reasoning: string): (r: Route)
    ensures r.Preserve? <==> BasedOnExisting(reasoning) && Contains(reasoning, "sin modificaciones")
    ensures r.RemixExisting? <==> BasedOnExisting(reasoning) && !Contains(reasoning, "sin modificaciones")
    ensures r.Fresh? <==> !BasedOnExisting(reasoning)
  {
    if BasedOnExisting(reasoning) then
      if Contains(reasoning, "sin modificaciones") then Preserve else RemixExisting
    else Fresh
  }

  const PRESERVED_REASONING: string := "Contenido preservado del curso canónico existente sin modificaciones"

  /** Python truthiness of `step.content`: present and non-empty. */
  predicate HasContent(step: Planner.PlanStep)
  {
    step.content.Some? && step.content.value != ""
  }

  /**
   * The block a step with content becomes: a read block without title, an audio block with an
   * empty URL, or (for a type mentioning "quiz") what evaluating the step's prompt gives; any
   * other type misses its variant's required fields and fails validation.
   */
  function ConvertStep(step: Planner.PlanStep, quizBlock: Planner.PlanStep -> Result<Course.Block>): (r: Result<Course.Block>)
    requires HasContent(step)
    ensures step.stepType == "read" ==> r == Ok(Course.Read(10, None, step.content.value))
    ensures step.stepType == "audio" ==> r == Ok(Course.Audio(10, step.content.value, ""))
  {
    if step.stepType == "read" then Ok(Course.Read(10, None, step.content.value))
    else if step.stepType == "audio" then Ok(Course.Audio(10, step.content.value, ""))
    else if Contains(step.stepType, "quiz") then quizBlock(step)
    else Err("ValidationError")
  }

  /** The number of steps with content. */
  function ContentSteps(steps: seq<Planner.PlanStep>): nat
    decreases |steps|
  {
    if |steps| == 0 then 0
    else ContentSteps(steps[..|steps| - 1]) + (if HasContent(steps[|steps| - 1]) then 1 else 0)
  }

  /**
   * The preserved blocks, step by step: steps without content are skipped, and the first
   * conversion that fails ends the whole call with its error.
   */
  function Preserved(steps: seq<Planner.PlanStep>, quizBlock: Planner.PlanStep -> Result<Course.Block>): (r: Result<seq<Course.Block>>)
    ensures r.Ok? ==> |r.value| == ContentSteps(steps)
    decreases |steps|
  {
    if |steps| == 0 then Ok([])
    else
      var prev := Preserved(steps[..|steps| - 1], quizBlock);
      var last := steps[|steps| - 1];
      if prev.Err? then prev
      else if !HasContent(last) then prev
      else
        var b := ConvertStep(last, quizBlock);
        if b.Err? then Err(b.error) else Ok(prev.value + [b.value])
  }

  /** The preserve loop, with the block construction as evidently intended. */
  method PreserveBlocks(steps: seq<Planner.PlanStep>, quizBlock: Planner.PlanStep -> Result<Course.Block>)
    returns (r: Result<seq<Course.Block>>)
    ensures r == Preserved(steps, quizBlock)
  {
    var blocks: seq<Course.Block> := [];
    var i := 0;
    while i < |steps|
      invariant 0 <= i <= |steps|
      invariant Preserved(steps[..i], quizBlock) == Ok(blocks)
    {
      var step := steps[i];
      assert steps[..i + 1][..i] == steps[..i];
      if HasContent(step) {
        var b := ConvertStep(step, quizBlock);
        if b.Err? {
          PreservedErrSticks(steps, quizBlock, i + 1);
          return Err(b.error);
        }
        blocks := blocks + [b.value];
      }
      i := i + 1;
    }
    assert steps[..i] == steps;
    r := Ok(blocks);
  }

  /** Once a prefix has failed, the whole preserve pass fails with the same error. */
  lemma {:induction false} PreservedErrSticks(steps: seq<Planner.PlanStep>,
                                              quizBlock: Planner.PlanStep -> Result<Course.Block>, n: nat)
    requires n <= |steps|
    requires Preserved(steps[..n], quizBlock).Err?
    ensures Preserved(steps, quizBlock) == Preserved(steps[..n], quizBlock)
    decreases |steps| - n
  {
    if n < |steps| {
      assert steps[..n + 1][..n] == steps[..n];
      PreservedErrSticks(steps, quizBlock, n + 1);
    } else {
      assert steps[..n] == steps;
    }
  }

  /** Every read or audio block of a successful preserve pass is worth 10 xp and keeps the step's content. */
  lemma {:induction false} PreservedBlocksShape(steps: seq<Planner.PlanStep>,
                                                quizBlock: Planner.PlanStep -> Result<Course.Block>)
    requires forall k :: 0 <= k < |steps| ==> steps[k].stepType == "read" || steps[k].stepType == "audio"
    ensures Preserved(steps, quizBlock).Ok?
    ensures forall b :: b in Preserved(steps, quizBlock).value ==>
              (b.Read? && b.xp == 10 && b.title.None?) || (b.Audio? && b.xp == 10 && b.audioUrl == "")
    decreases |steps|
  {
    if |steps| > 0 {
      PreservedBlocksShape(steps[..|steps| - 1], quizBlock);
    }
  }

  /** The result of `generate_course_content`. */
  datatype ContentOutput = ContentOutput(blocks: seq<Course.Block>, reasoning: string)

  /**
   * `generate_course_content` with the preserve branch as evidently intended; the remix and
   * fresh routes hand the plan to the content agent, whose output is an input here.
   */
  function GenerateCourseContent(plan: Planner.PlanOutput, quizBlock: Planner.PlanStep -> Result<Course.Block>,
                                 agentOutput: Result<ContentOutput>): (r: Result<ContentOutput>)
    ensures RouteOf(plan.reasoning).Preserve? ==>
              (Preserved(plan.plan, quizBlock).Ok? <==> r.Ok?)
              && (r.Ok? ==> r.value == ContentOutput(Preserved(plan.plan, quizBlock).value, PRESERVED_REASONING))
    ensures !RouteOf(plan.reasoning).Preserve? ==> r == agentOutput
  {
    if RouteOf(plan.reasoning).Preserve? then
      var blocks := Preserved(plan.plan, quizBlock);
      if blocks.Err? then Err(blocks.error) else Ok(ContentOutput(blocks.value, PRESERVED_REASONING))
    else agentOutput
  }

  /**
   * The preserve branch as written: `Block` is a plain union of the block classes, and calling
   * a union raises `TypeError`, so the first step with content ends the call; only a plan with
   * no content at all comes through (with no blocks).
   */
  function PreservedAsWritten(steps: seq<Planner.PlanStep>): (r: Result<seq<Course.Block>>)
    ensures r.Ok? <==> ContentSteps(steps) == 0
    ensures r.Ok? ==> r.value == []
    decreases |steps|
  {
    if |steps| == 0 then Ok([])
    else
      var prev := PreservedAsWritten(steps[..|steps| - 1]);
      if prev.Err? then prev
      else if HasContent(steps[|steps| - 1]) then Err("TypeError: 'types.UnionType' object is not callable")
      else prev
  }

  /** The discrepancy: a single read step is preserved by the intended code and refused as written. */
  lemma PreserveAsWrittenFails(text: string, quizBlock: Planner.PlanStep -> Result<Course.Block>)
    requires text != ""
    ensures var steps := [Planner.PlanStep("read", text, Some(text))];
            && PreservedAsWritten(steps).Err?
            && Preserved(steps, quizBlock) == Ok([Course.Read(10, None, text)])
  {
    var steps := [Planner.PlanStep("read", text, Some(text))];
    assert steps[..0] == [];
    assert ConvertStep(steps[0], quizBlock) == Ok(Course.Read(10, None, text));
    assert [] + [Course.Read(10, None, text)] == [Course.Read(10, None, text)];
  }

  /** The planner's reuse reasoning takes the preserve route. */
  lemma ReuseReasoningPreserves()
    ensures RouteOf(Planner.REUSE_REASONING).Preserve?
  {
    var a := "Utilizando ";
    var b := " canónico existente ";
    var c := " debido a alta similitud semántica.";
    ContainsSuffix(a, "curso");
    ContainsAppend(a + "curso", "curso", b);
    ContainsAppend(a + "curso" + b, "curso", "sin modificaciones");
    ContainsAppend(a + "curso" + b + "sin modificaciones", "curso", c);
    ContainsPrefix("canónico", " existente ");
    assert b == " " + ("canónico" + " existente ");
    ContainsPrepend(" ", "canónico" + " existente ", "canónico");
    ContainsPrepend(a + "curso", b, "canónico");
    ContainsAppend(a + "curso" + b, "canónico", "sin modificaciones");
    ContainsAppend(a + "curso" + b + "sin modificaciones", "canónico", c);
    ContainsSuffix(a + "curso" + b, "sin modificaciones");
    ContainsAppend(a + "curso" + b + "sin modificaciones", "sin modificaciones", c);
  }

  /** The planner's remix reasoning names an existing course. */
  lemma RemixReasoningNamesCourse(isCanonical: bool)
    ensures BasedOnExisting(Planner.RemixReasoning(isCanonical))
  {
    var head := "Creando remix actualizado basado en ";
    var base := Planner.BaseReasoning(isCanonical);
    ContainsConcat(head, "curso", " " + base + " similar.");
    assert Planner.RemixReasoning(isCanonical) == head + "curso" + (" " + base + " similar.");
    if isCanonical {
      ContainsSuffix(head + "curso" + " ", "canónico");
      ContainsAppend(head + "curso" + " " + "canónico", "canónico", " similar.");
    } else {
      ContainsPrefix("existente", " no canónico");
      ContainsPrepend(head + "curso" + " ", base, "existente");
      ContainsAppend(head + "curso" + " " + base, "existente", " similar.");
    }
  }

  /** No piece of the remix reasoning has the letter 'f'. */
  lemma RemixPiecesLackF(isCanonical: bool)
    ensures 'f' !in "Creando remix actualizado basado en "
    ensures 'f' !in "curso" + " "
    ensures 'f' !in Planner.BaseReasoning(isCanonical)
    ensures 'f' !in " similar."
  {
  }

  /** The planner's remix reasoning has no letter 'f', so it cannot contain "sin modificaciones". */
  lemma RemixReasoningLacksMarker(isCanonical: bool)
    ensures !Contains(Planner.RemixReasoning(isCanonical), "sin modificaciones")
  {
    RemixPiecesLackF(isCanonical);
    var s := Planner.RemixReasoning(isCanonical);
    assert s == "Creando remix actualizado basado en " + ("curso" + " ") + Planner.BaseReasoning(isCanonical) + " similar.";
    assert 'f' !in s;
    assert "sin modificaciones"[8] == 'f';
    NotContainsByChar(s, "sin modificaciones", 'f');
  }

  /** The planner's remix reasoning, canonical or not, takes the remix route. */
  lemma RemixReasoningRemixes(isCanonical: bool)
    ensures RouteOf(Planner.RemixReasoning(isCanonical)).RemixExisting?
  {
    RemixReasoningNamesCourse(isCanonical);
    RemixReasoningLacksMarker(isCanonical);
  }
}
