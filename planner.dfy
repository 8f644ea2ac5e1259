// The planner's reuse / remix / generate decision: a similar course found at
// threshold 0.85 is reused verbatim when it is canonical and scores above 0.95,
// remixed when it scores above 0.85, and otherwise the planner agent writes a
// fresh plan. The agent's plan is an input.
module Planner {
  import opened Wrappers
  import VectorSearch

  const LOOKUP_THRESHOLD: real := 0.85
  const REUSE_THRESHOLD: real := 0.95

  datatype PlanStep = PlanStep(stepType: string, prompt: string, content: Option<string>)
  datatype PlanOutput = PlanOutput(plan: seq<PlanStep>, reasoning: string)

  /** The reuse reasoning, written in the pieces the content agent tests for. */
  const REUSE_REASONING: string :=
    "Utilizando " + "curso" + " canónico existente " + "sin modificaciones" + " debido a alta similitud semántica."

  /** The word the remix prompt and reasoning use for the base course. */
  function BaseReasoning(isCanonical: bool): string
  {
    if isCanonical then "canónico" else "existente" + " no canónico"
  }

  function RemixReasoning(isCanonical: bool): string
  {
    "Creando remix actualizado basado en " + "curso" + " " + BaseReasoning(isCanonical) + " similar."
  }

  /** How a lookup result is used. */
  datatype Decision = Reuse | Remix | Generate

  /** The two strict comparisons of `generate_course_plan`. */
  function Decide(similar: Option<VectorSearch.Match>): (d: Decision)
    ensures d.Reuse? <==> similar.Some? && similar.value.canonical && similar.value.similarityScore > REUSE_THRESHOLD
    ensures d.Remix? <==> similar.Some? && similar.value.similarityScore > LOOKUP_THRESHOLD
                          && !(similar.value.canonical && similar.value.similarityScore > REUSE_THRESHOLD)
  {
    if similar.None? then Generate
    else if similar.value.canonical && similar.value.similarityScore > REUSE_THRESHOLD then Reuse
    else if similar.value.similarityScore > LOOKUP_THRESHOLD then Remix
    else Generate
  }

  /** One reused step per stored block: the block's text (or "") as prompt, the text (or None) as content. */
  function ReuseSteps(blocks: seq<VectorSearch.StoredBlock>): (r: seq<PlanStep>)
    ensures |r| == |blocks|
    ensures forall i :: 0 <= i < |blocks| ==>
              r[i].stepType == blocks[i].blockType && r[i].content == blocks[i].text
              && r[i].prompt == blocks[i].text.GetOr("")
  {
    seq(|blocks|, i requires 0 <= i < |blocks| => PlanStep(blocks[i].blockType, blocks[i].text.GetOr(""), blocks[i].text))
  }

  /** One remix step per stored block, whose prompt asks for an update of the block's text. */
  function RemixSteps(blocks: seq<VectorSearch.StoredBlock>, isCanonical: bool): (r: seq<PlanStep>)
    ensures |r| == |blocks|
    ensures forall i :: 0 <= i < |blocks| ==>
              r[i].stepType == blocks[i].blockType && r[i].content == blocks[i].text
              && r[i].prompt == "Remix y actualización del contenido " + BaseReasoning(isCanonical) + ": "
                                + blocks[i].text.GetOr("")
  {
    seq(|blocks|, i requires 0 <= i < |blocks| =>
      PlanStep(blocks[i].blockType,
               "Remix y actualización del contenido " + BaseReasoning(isCanonical) + ": " + blocks[i].text.GetOr(""),
               blocks[i].text))
  }

  /**
   * `generate_course_plan` once the lookup at threshold 0.85 has run: the reused or remixed
   * plan, or the planner agent's own plan.
   */
  function PlanFor(similar: Option<VectorSearch.Match>, agentPlan: PlanOutput): (r: PlanOutput)
    ensures Decide(similar).Reuse? ==> r == PlanOutput(ReuseSteps(similar.value.blocks), REUSE_REASONING)
    ensures Decide(similar).Remix? ==>
              r == PlanOutput(RemixSteps(similar.value.blocks, similar.value.canonical), RemixReasoning(similar.value.canonical))
    ensures Decide(similar).Generate? ==> r == agentPlan
    ensures !Decide(similar).Generate? ==> |r.plan| == |similar.value.blocks|
  {
    match Decide(similar)
    case Reuse => PlanOutput(ReuseSteps(similar.value.blocks), REUSE_REASONING)
    case Remix => PlanOutput(RemixSteps(similar.value.blocks, similar.value.canonical), RemixReasoning(similar.value.canonical))
    case Generate => agentPlan
  }

  /**
   * The whole of `generate_course_plan`: the lookup, then the decision. Only the first neighbour
   * counts; its similarity is 1 - distance.
   */
  function GenerateCoursePlan(endpointConfigured: bool, nearest: seq<seq<VectorSearch.Neighbor>>,
                              agentPlan: PlanOutput): (r: PlanOutput)
    ensures !(endpointConfigured && |nearest| > 0 && |nearest[0]| > 0) ==> r == agentPlan
    ensures endpointConfigured && |nearest| > 0 && |nearest[0]| > 0 ==>
              var data := nearest[0][0].datapoint;
              var score := 1.0 - nearest[0][0].distance;
              var canonical := data.canonical.GetOr(false);
              var blocks := data.blocks.GetOr([]);
              && (canonical && score > REUSE_THRESHOLD ==> r == PlanOutput(ReuseSteps(blocks), REUSE_REASONING))
              && (score > LOOKUP_THRESHOLD && !(canonical && score > REUSE_THRESHOLD) ==>
                    r == PlanOutput(RemixSteps(blocks, canonical), RemixReasoning(canonical)))
              && (score <= LOOKUP_THRESHOLD ==> r == agentPlan)
  {
    PlanFor(VectorSearch.FindSimilarCourses(endpointConfigured, nearest, LOOKUP_THRESHOLD), agentPlan)
  }

  /** A score of exactly 0.85 passes the lookup but neither strict comparison: the agent plans afresh. */
  lemma ExactLookupThresholdGenerates(data: VectorSearch.CourseData, agentPlan: PlanOutput)
    ensures var nearest := [[VectorSearch.Neighbor(0.15, data)]];
            && VectorSearch.FindSimilarCourses(true, nearest, LOOKUP_THRESHOLD).Some?
            && GenerateCoursePlan(true, nearest, agentPlan) == agentPlan
  {
  }

  /** A non-canonical course is never reused, however similar: it is remixed. */
  lemma NonCanonicalNeverReused(similar: VectorSearch.Match, agentPlan: PlanOutput)
    requires !similar.canonical && similar.similarityScore > REUSE_THRESHOLD
    ensures PlanFor(Some(similar), agentPlan) == PlanOutput(RemixSteps(similar.blocks, false), RemixReasoning(false))
  {
  }

  /** Reuse and remix keep the matched course's block count and order of types. */
  lemma PlanFollowsBlocks(similar: VectorSearch.Match, agentPlan: PlanOutput)
    requires !Decide(Some(similar)).Generate?
    ensures var r := PlanFor(Some(similar), agentPlan);
            |r.plan| == |similar.blocks| && forall i :: 0 <= i < |r.plan| ==> r.plan[i].stepType == similar.blocks[i].blockType
  {
  }
}
