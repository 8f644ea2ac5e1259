// The chat orchestrator: the context text assembled line by line from what is
// known about the user, the message list sent to the model (system prompt,
// context, the last ten history entries, the user's input), and the two
// fixed fallback answers. The model call's outcome (failed, not JSON, or the
// parsed object) is an input; the system prompt is a parameter.
module Chat {
  import opened Wrappers
  import opened Text
  import DataTypes
  import LlmSchemas
  import ContentGenerator

  datatype ChatMessage = ChatMessage(role: string, content: string)

  datatype PlanSummary = PlanSummary(planId: string, skillName: string, totalDurationWeeks: int,
                                     currentDayNumber: Option<int>, currentSectionTitle: Option<string>,
                                     nextDayTitle: Option<string>, milestones: Option<seq<string>>)

  datatype KeyConceptSummary = KeyConceptSummary(term: string, definition: string)

  datatype DaySummary = DaySummary(dayTitle: string, objectives: seq<string>, focusArea: Option<string>,
                                   keyConcepts: Option<seq<KeyConceptSummary>>)

  /** The analytics fields the context reads; the engagement score is given in hundredths. */
  datatype AnalyticsSummary = AnalyticsSummary(keyInsights: Option<seq<string>>, engagementHundredths: Option<nat>,
                                               windowStart: Option<string>, windowEnd: Option<string>,
                                               windowReason: Option<string>, streakRisk: Option<string>,
                                               strategies: Option<seq<string>>, difficulty: Option<string>,
                                               sessionMinutes: Option<int>)

  /** The on-demand details, each already serialised to JSON text. */
  datatype DetailedContext = DetailedContext(learningPlanJson: Option<string>, dayContentJson: Option<string>)

  datatype ChatContext = ChatContext(userName: Option<string>, firebaseUid: string, userSkill: Option<string>,
                                     currentSkill: Option<string>, plan: Option<PlanSummary>,
                                     recentDay: Option<DaySummary>, analytics: Option<AnalyticsSummary>,
                                     detailed: Option<DetailedContext>)

  /** A JavaScript-truthy optional string: present and non-empty. */
  predicate Truthy(s: Option<string>)
  {
    s.Some? && s.value != ""
  }

  const CONTEXT_HEADER: string := Line("--- Relevant Context for Ski the Chatbot ---")
  const CONTEXT_FOOTER: string := Line("-------------------------------------------")
  const ANALYTICS_HEADER: string := Line("- User Learning Insights Summary:")
  const DETAILED_HEADER: string := Line("- Detailed Context (fetched on demand):")

  function UserLine(ctx: ChatContext): string
  {
    Line("User: " + (if Truthy(ctx.userName) then ctx.userName.value else "Learner") + " (FirebaseUID: " + ctx.firebaseUid + ")")
  }

  /** The skill the context names: the user's own skill first, the current skill second. */
  function SkillFocus(ctx: ChatContext): (r: Option<string>)
    ensures Truthy(ctx.userSkill) ==> r == ctx.userSkill
    ensures !Truthy(ctx.userSkill) && Truthy(ctx.currentSkill) ==> r == ctx.currentSkill
    ensures r.None? <==> !Truthy(ctx.userSkill) && !Truthy(ctx.currentSkill)
  {
    if Truthy(ctx.userSkill) then ctx.userSkill
    else if Truthy(ctx.currentSkill) then ctx.currentSkill
    else None
  }

  function SkillLine(skill: string): string
  {
    Line("- Current Skill Focus: " + skill)
  }

  function PlanHeadLine(p: PlanSummary): string
  {
    Line("- Active Learning Plan: '" + p.skillName + "' (ID: " + p.planId + ")")
  }

  /** `currentDayNumber || 'N/A'`: a missing or zero day reads N/A. */
  function ProgressLine(p: PlanSummary): string
  {
    Line("  - Progress: Around Day "
         + (if p.currentDayNumber.Some? && p.currentDayNumber.value != 0 then IntToString(p.currentDayNumber.value) else "N/A")
         + " of " + IntToString(p.totalDurationWeeks) + " weeks.")
  }

  function DayHeadLine(d: DaySummary): string
  {
    Line("- Recently Viewed Content Summary ('" + d.dayTitle + "'):")
  }

  function ConceptText(k: KeyConceptSummary): string
  {
    k.term + ": \"" + k.definition + "\""
  }

  function ConceptTexts(ks: seq<KeyConceptSummary>): (r: seq<string>)
    ensures |r| == |ks|
    ensures forall i :: 0 <= i < |ks| ==> r[i] == ConceptText(ks[i])
  {
    if |ks| == 0 then [] else [ConceptText(ks[0])] + ConceptTexts(ks[1..])
  }

  /** `score.toFixed(2)` for a score given in hundredths. */
  function Fixed2(hundredths: nat): string
  {
    NatToString(hundredths / 100) + "." + LlmSchemas.TwoDigits(hundredths % 100)
  }

  /** The first `length` characters, or all of them (`substring(0, length)`). */
  function Head(s: string, length: nat): (r: string)
    ensures |r| <= length && r <= s
    ensures |s| <= length ==> r == s
  {
    if |s| <= length then s else s[..length]
  }

  predicate EndsWithNewline(line: string)
  {
    |line| > 0 && line[|line| - 1] == '\n'
  }

  /** A line of the context: the text and its newline. */
  function Line(text: string): (l: string)
    ensures EndsWithNewline(l)
  {
    text + "\n"
  }

  /** The head line of the first section present, or the closing rule when there is none. */
  function FirstHead(ctx: ChatContext): string
  {
    if ctx.plan.Some? then PlanHeadLine(ctx.plan.value)
    else if ctx.recentDay.Some? then DayHeadLine(ctx.recentDay.value)
    else if ctx.analytics.Some? then ANALYTICS_HEADER
    else if ctx.detailed.Some? then DETAILED_HEADER
    else CONTEXT_FOOTER
  }

  predicate AllEndWithNewline(lines: seq<string>)
  {
    forall i :: 0 <= i < |lines| ==> EndsWithNewline(lines[i])
  }

  /** The one line an `if` appends when its condition holds, and nothing otherwise. */
  function Opt(condition: bool, line: string): (r: seq<string>)
    requires EndsWithNewline(line)
    ensures |r| == (if condition then 1 else 0) && AllEndWithNewline(r)
    ensures condition ==> r[0] == line
  {
    if condition then [line] else []
  }

  function CurrentSectionLine(title: string): string
  {
    Line("  - Current Section: '" + title + "'")
  }

  function NextDayLine(title: string): string
  {
    Line("  - Next Day Topic: '" + title + "'")
  }

  function MilestonesLine(milestones: seq<string>): string
  {
    Line("  - Key Plan Milestones: " + JoinWith(milestones, "; "))
  }

  /** The plan section: its head and progress lines, then the optional section, topic and milestones. */
  function PlanSection(p: PlanSummary): (r: seq<string>)
    ensures 2 <= |r| <= 5 && r[0] == PlanHeadLine(p) && r[1] == ProgressLine(p)
    ensures |r| == 2 + (if Truthy(p.currentSectionTitle) then 1 else 0) + (if Truthy(p.nextDayTitle) then 1 else 0)
                     + (if p.milestones.Some? && |p.milestones.value| > 0 then 1 else 0)
    ensures Truthy(p.currentSectionTitle) ==> r[2] == CurrentSectionLine(p.currentSectionTitle.value)
    ensures p.milestones.Some? && |p.milestones.value| > 0 ==> r[|r| - 1] == MilestonesLine(p.milestones.value)
    ensures AllEndWithNewline(r)
  {
    var head := [PlanHeadLine(p), ProgressLine(p)];
    var section := Opt(Truthy(p.currentSectionTitle), CurrentSectionLine(p.currentSectionTitle.GetOr("")));
    var next := Opt(Truthy(p.nextDayTitle), NextDayLine(p.nextDayTitle.GetOr("")));
    var milestones := Opt(p.milestones.Some? && |p.milestones.value| > 0, MilestonesLine(p.milestones.GetOr([])));
    AllEndConcat(head, section);
    AllEndConcat(head + section, next);
    AllEndConcat(head + section + next, milestones);
    head + section + next + milestones
  }

  /** The appends of the plan section, in order. */
  method PlanLines(p: PlanSummary) returns (section: seq<string>)
    ensures section == PlanSection(p)
  {
    section := [PlanHeadLine(p), ProgressLine(p)];
    if Truthy(p.currentSectionTitle) {
      section := section + [CurrentSectionLine(p.currentSectionTitle.value)];
    }
    if Truthy(p.nextDayTitle) {
      section := section + [NextDayLine(p.nextDayTitle.value)];
    }
    if p.milestones.Some? && |p.milestones.value| > 0 {
      section := section + [MilestonesLine(p.milestones.value)];
    }
  }

  function FocusLine(focusArea: string): string
  {
    Line("    - Focus Area: " + focusArea)
  }

  function ObjectivesLine(d: DaySummary): string
  {
    Line("    - Objectives: " + JoinWith(d.objectives, "; "))
  }

  function ConceptsLine(ks: seq<KeyConceptSummary>): string
  {
    Line("    - Key Concepts: " + JoinWith(ConceptTexts(ks), "; "))
  }

  /** The recent-day section: head, optional focus area, objectives (always), optional key concepts. */
  function DaySection(d: DaySummary): (r: seq<string>)
    ensures 2 <= |r| <= 4 && r[0] == DayHeadLine(d)
    ensures |r| == 2 + (if Truthy(d.focusArea) then 1 else 0) + (if d.keyConcepts.Some? && |d.keyConcepts.value| > 0 then 1 else 0)
    ensures Truthy(d.focusArea) ==> r[1] == FocusLine(d.focusArea.value)
    ensures r[if Truthy(d.focusArea) then 2 else 1] == ObjectivesLine(d)
    ensures AllEndWithNewline(r)
  {
    var head := [DayHeadLine(d)];
    var focus := Opt(Truthy(d.focusArea), FocusLine(d.focusArea.GetOr("")));
    var concepts := Opt(d.keyConcepts.Some? && |d.keyConcepts.value| > 0, ConceptsLine(d.keyConcepts.GetOr([])));
    AllEndConcat(head, focus);
    AllEndConcat(head + focus, [ObjectivesLine(d)]);
    AllEndConcat(head + focus + [ObjectivesLine(d)], concepts);
    head + focus + [ObjectivesLine(d)] + concepts
  }

  /** The appends of the recent-day section, in order. */
  method DayLines(d: DaySummary) returns (section: seq<string>)
    ensures section == DaySection(d)
  {
    section := [DayHeadLine(d)];
    if Truthy(d.focusArea) {
      section := section + [FocusLine(d.focusArea.value)];
    }
    section := section + [ObjectivesLine(d)];
    if d.keyConcepts.Some? && |d.keyConcepts.value| > 0 {
      section := section + [ConceptsLine(d.keyConcepts.value)];
    }
  }

  function InsightsLine(insights: seq<string>): string
  {
    Line("  - General Observations: " + JoinWith(insights, "; "))
  }

  function WindowLine(a: AnalyticsSummary): string
  {
    var reason := if Truthy(a.windowReason) then " (Reason: " + a.windowReason.value + ")" else "";
    Line("  - Optimal Learning Window: " + a.windowStart.GetOr("") + " - " + a.windowEnd.GetOr("") + reason)
  }

  /** `ideal_session_length_minutes` is truthy: present and not zero. */
  predicate HasSessionMinutes(a: AnalyticsSummary)
  {
    a.sessionMinutes.Some? && a.sessionMinutes.value != 0
  }

  function SuggestionsLine(a: AnalyticsSummary): string
  {
    var difficulty := if Truthy(a.difficulty) then " Difficulty: " + a.difficulty.value + "." else "";
    var session := if HasSessionMinutes(a) then " Ideal session: " + IntToString(a.sessionMinutes.value) + " mins." else "";
    Line("  - Content Suggestions:" + difficulty + session)
  }

  function StreakLine(a: AnalyticsSummary): string
  {
    var strategies := if a.strategies.Some? && |a.strategies.value| > 0
                      then " Strategies: " + JoinWith(a.strategies.value, ", ") + "." else "";
    Line("  - Streak Status: Risk level is '" + a.streakRisk.GetOr("") + "'." + strategies)
  }

  function EngagementLine(hundredths: nat): string
  {
    Line("  - Current Engagement Score: " + Fixed2(hundredths) + "/1.0")
  }

  /** The insights, learning-window, content-suggestion and streak lines, each only when its fields are set. */
  function Observations(a: AnalyticsSummary): (r: seq<string>)
    ensures |r| == (if a.keyInsights.Some? && |a.keyInsights.value| > 0 then 1 else 0)
                   + (if Truthy(a.windowStart) && Truthy(a.windowEnd) then 1 else 0)
                   + (if Truthy(a.difficulty) || HasSessionMinutes(a) then 1 else 0)
                   + (if Truthy(a.streakRisk) then 1 else 0)
    ensures AllEndWithNewline(r)
  {
    var insights := Opt(a.keyInsights.Some? && |a.keyInsights.value| > 0, InsightsLine(a.keyInsights.GetOr([])));
    var window := Opt(Truthy(a.windowStart) && Truthy(a.windowEnd), WindowLine(a));
    var suggestions := Opt(Truthy(a.difficulty) || HasSessionMinutes(a), SuggestionsLine(a));
    var streak := Opt(Truthy(a.streakRisk), StreakLine(a));
    AllEndConcat(insights, window);
    AllEndConcat(insights + window, suggestions);
    AllEndConcat(insights + window + suggestions, streak);
    insights + window + suggestions + streak
  }

  /** The appends of the observation lines, in order. */
  method ObservationLines(a: AnalyticsSummary) returns (lines: seq<string>)
    ensures lines == Observations(a)
  {
    lines := [];
    if a.keyInsights.Some? && |a.keyInsights.value| > 0 {
      lines := lines + [InsightsLine(a.keyInsights.value)];
    }
    ghost var sofar := Opt(a.keyInsights.Some? && |a.keyInsights.value| > 0, InsightsLine(a.keyInsights.GetOr([])));
    assert lines == sofar;
    if Truthy(a.windowStart) && Truthy(a.windowEnd) {
      lines := lines + [WindowLine(a)];
    }
    sofar := sofar + Opt(Truthy(a.windowStart) && Truthy(a.windowEnd), WindowLine(a));
    assert lines == sofar;
    if Truthy(a.difficulty) || HasSessionMinutes(a) {
      lines := lines + [SuggestionsLine(a)];
    }
    sofar := sofar + Opt(Truthy(a.difficulty) || HasSessionMinutes(a), SuggestionsLine(a));
    assert lines == sofar;
    if Truthy(a.streakRisk) {
      lines := lines + [StreakLine(a)];
    }
  }

  /** The analytics section: its header, the observations, and a numeric engagement score last. */
  function AnalyticsSection(a: AnalyticsSummary): (r: seq<string>)
    ensures 1 <= |r| <= 6 && r[0] == ANALYTICS_HEADER
    ensures |r| == 1 + |Observations(a)| + (if a.engagementHundredths.Some? then 1 else 0)
    ensures r[1..1 + |Observations(a)|] == Observations(a)
    ensures a.engagementHundredths.Some? ==> r[|r| - 1] == EngagementLine(a.engagementHundredths.value)
    ensures AllEndWithNewline(r)
  {
    var engagement := Opt(a.engagementHundredths.Some?, EngagementLine(a.engagementHundredths.GetOr(0)));
    AllEndConcat([ANALYTICS_HEADER], Observations(a));
    AllEndConcat([ANALYTICS_HEADER] + Observations(a), engagement);
    [ANALYTICS_HEADER] + Observations(a) + engagement
  }

  /** The appends of the analytics section, in order. */
  method AnalyticsLines(a: AnalyticsSummary) returns (section: seq<string>)
    ensures section == AnalyticsSection(a)
  {
    var observations := ObservationLines(a);
    section := [ANALYTICS_HEADER] + observations;
    if a.engagementHundredths.Some? {
      section := section + [EngagementLine(a.engagementHundredths.value)];
    }
  }

  function PlanDetailLine(json: string): string
  {
    Line("  - Full Learning Plan Details: (Summary/Relevant parts of " + Head(json, 300) + "...)")
  }

  function DayDetailLine(json: string): string
  {
    Line("  - Full Day Content Details: (Summary/Relevant parts of " + Head(json, 300) + "...)")
  }

  /** The on-demand section: its header, then the first 300 characters of each JSON text given. */
  function DetailedSection(dc: DetailedContext): (r: seq<string>)
    ensures 1 <= |r| <= 3 && r[0] == DETAILED_HEADER
    ensures |r| == 1 + (if dc.learningPlanJson.Some? then 1 else 0) + (if dc.dayContentJson.Some? then 1 else 0)
    ensures dc.learningPlanJson.Some? ==> r[1] == PlanDetailLine(dc.learningPlanJson.value)
    ensures dc.dayContentJson.Some? ==> r[|r| - 1] == DayDetailLine(dc.dayContentJson.value)
    ensures AllEndWithNewline(r)
  {
    var plan := Opt(dc.learningPlanJson.Some?, PlanDetailLine(dc.learningPlanJson.GetOr("")));
    var day := Opt(dc.dayContentJson.Some?, DayDetailLine(dc.dayContentJson.GetOr("")));
    AllEndConcat([DETAILED_HEADER], plan);
    AllEndConcat([DETAILED_HEADER] + plan, day);
    [DETAILED_HEADER] + plan + day
  }

  /** The appends of the on-demand section, in order. */
  method DetailedLines(dc: DetailedContext) returns (section: seq<string>)
    ensures section == DetailedSection(dc)
  {
    section := [DETAILED_HEADER];
    if dc.learningPlanJson.Some? {
      section := section + [PlanDetailLine(dc.learningPlanJson.value)];
    }
    if dc.dayContentJson.Some? {
      section := section + [DayDetailLine(dc.dayContentJson.value)];
    }
  }

  /** The header, the user line and the preferred skill line when there is one. */
  function Opening(ctx: ChatContext): (r: seq<string>)
    ensures |r| == (if SkillFocus(ctx).Some? then 3 else 2) && r[0] == CONTEXT_HEADER && r[1] == UserLine(ctx)
    ensures SkillFocus(ctx).Some? ==> r[2] == SkillLine(SkillFocus(ctx).value)
    ensures AllEndWithNewline(r)
  {
    [CONTEXT_HEADER, UserLine(ctx)] + (if SkillFocus(ctx).Some? then [SkillLine(SkillFocus(ctx).value)] else [])
  }

  /** The `if / else if` on the two skills, as appends. */
  method OpeningLines(ctx: ChatContext) returns (opening: seq<string>)
    ensures opening == Opening(ctx)
  {
    opening := [CONTEXT_HEADER, UserLine(ctx)];
    if Truthy(ctx.userSkill) {
      opening := opening + [SkillLine(ctx.userSkill.value)];
    } else if Truthy(ctx.currentSkill) {
      opening := opening + [SkillLine(ctx.currentSkill.value)];
    }
  }

  /** The head lines of the sections that are present are among `lines`. */
  predicate Covered(ctx: ChatContext, lines: seq<string>)
  {
    && (ctx.plan.Some? ==> PlanHeadLine(ctx.plan.value) in lines && ProgressLine(ctx.plan.value) in lines)
    && (ctx.recentDay.Some? ==> DayHeadLine(ctx.recentDay.value) in lines && ObjectivesLine(ctx.recentDay.value) in lines)
    && (ctx.analytics.Some? ==> ANALYTICS_HEADER in lines)
    && (ctx.detailed.Some? ==> DETAILED_HEADER in lines)
  }

  /** A section's lines when it is present, none otherwise. */
  function PlanPart(ctx: ChatContext): seq<string>
  {
    if ctx.plan.Some? then PlanSection(ctx.plan.value) else []
  }

  function DayPart(ctx: ChatContext): seq<string>
  {
    if ctx.recentDay.Some? then DaySection(ctx.recentDay.value) else []
  }

  function AnalyticsPart(ctx: ChatContext): seq<string>
  {
    if ctx.analytics.Some? then AnalyticsSection(ctx.analytics.value) else []
  }

  function DetailedPart(ctx: ChatContext): seq<string>
  {
    if ctx.detailed.Some? then DetailedSection(ctx.detailed.value) else []
  }

  /** The sections present, in source order, and the closing rule. */
  function Sections(ctx: ChatContext): seq<string>
  {
    PlanPart(ctx) + DayPart(ctx) + AnalyticsPart(ctx) + DetailedPart(ctx) + [CONTEXT_FOOTER]
  }

  /** The whole context, as the lines appended in order; the text sent is their concatenation. */
  function Context(ctx: ChatContext): seq<string>
  {
    Opening(ctx) + Sections(ctx)
  }

  /**
   * What the context promises: it opens with the header and the user line, names the preferred
   * skill next when there is one, then the first section present follows; every section present
   * contributes its head lines, the closing rule ends it, and every line ends with a newline.
   */
  lemma ContextShape(ctx: ChatContext)
    ensures var lines := Context(ctx);
            && |lines| >= 3 && lines[0] == CONTEXT_HEADER && lines[1] == UserLine(ctx)
            && lines[|Opening(ctx)|] == FirstHead(ctx)
            && (SkillFocus(ctx).Some? ==> lines[2] == SkillLine(SkillFocus(ctx).value))
            && Covered(ctx, lines)
            && lines[|lines| - 1] == CONTEXT_FOOTER
            && AllEndWithNewline(lines)
  {
    var o, s := Opening(ctx), Sections(ctx);
    SectionsFirst(ctx);
    SectionsShape(ctx);
    SectionsCovered(ctx);
    assert (o + s)[|o|] == s[0];
    InOpening(o, s, ctx);
    AllEndConcat(o, s);
  }

  /** The sections open with the first head present. */
  lemma SectionsFirst(ctx: ChatContext)
    ensures Sections(ctx)[0] == FirstHead(ctx)
  {
    LeadParts(ctx);
    TailParts(ctx);
    PartsInSections(PlanPart(ctx), DayPart(ctx), AnalyticsPart(ctx), DetailedPart(ctx), CONTEXT_FOOTER);
  }

  /** The sections end with the rule, and every line ends with a newline. */
  lemma SectionsShape(ctx: ChatContext)
    ensures var s := Sections(ctx); |s| >= 1 && s[|s| - 1] == CONTEXT_FOOTER && AllEndWithNewline(s)
  {
    var p, d, a, t := PlanPart(ctx), DayPart(ctx), AnalyticsPart(ctx), DetailedPart(ctx);
    LeadParts(ctx);
    TailParts(ctx);
    AllEndParts(p, d, a, t, CONTEXT_FOOTER);
  }

  /** Every section present keeps its head lines in the sections. */
  lemma SectionsCovered(ctx: ChatContext)
    ensures Covered(ctx, Sections(ctx))
  {
    LeadParts(ctx);
    TailParts(ctx);
    PartsInSections(PlanPart(ctx), DayPart(ctx), AnalyticsPart(ctx), DetailedPart(ctx), CONTEXT_FOOTER);
  }

  /** The plan and recent-day parts: empty when absent, otherwise holding their head lines, the first one first. */
  lemma LeadParts(ctx: ChatContext)
    ensures ctx.plan.None? <==> PlanPart(ctx) == []
    ensures ctx.plan.Some? ==> PlanPart(ctx)[0] == PlanHeadLine(ctx.plan.value)
                               && PlanHeadLine(ctx.plan.value) in PlanPart(ctx) && ProgressLine(ctx.plan.value) in PlanPart(ctx)
    ensures ctx.recentDay.None? <==> DayPart(ctx) == []
    ensures ctx.recentDay.Some? ==> DayPart(ctx)[0] == DayHeadLine(ctx.recentDay.value)
                                    && DayHeadLine(ctx.recentDay.value) in DayPart(ctx)
                                    && ObjectivesLine(ctx.recentDay.value) in DayPart(ctx)
    ensures AllEndWithNewline(PlanPart(ctx)) && AllEndWithNewline(DayPart(ctx))
  {
    if ctx.recentDay.Some? {
      var d := DayPart(ctx);
      assert d[if Truthy(ctx.recentDay.value.focusArea) then 2 else 1] in d;
    }
  }

  /** The analytics and on-demand parts: empty when absent, otherwise opening with their headers. */
  lemma TailParts(ctx: ChatContext)
    ensures ctx.analytics.None? <==> AnalyticsPart(ctx) == []
    ensures ctx.analytics.Some? ==> AnalyticsPart(ctx)[0] == ANALYTICS_HEADER && ANALYTICS_HEADER in AnalyticsPart(ctx)
    ensures ctx.detailed.None? <==> DetailedPart(ctx) == []
    ensures ctx.detailed.Some? ==> DetailedPart(ctx)[0] == DETAILED_HEADER && DETAILED_HEADER in DetailedPart(ctx)
    ensures AllEndWithNewline(AnalyticsPart(ctx)) && AllEndWithNewline(DetailedPart(ctx))
  {
    if ctx.analytics.Some? {
      var a := AnalyticsSection(ctx.analytics.value);
      assert a[0] in a;
    }
    if ctx.detailed.Some? {
      var t := DetailedSection(ctx.detailed.value);
      assert t[0] in t;
    }
  }

  /** Four newline-ended parts and a newline-ended closing line stay newline-ended together. */
  lemma AllEndParts(p: seq<string>, d: seq<string>, a: seq<string>, t: seq<string>, f: string)
    requires AllEndWithNewline(p) && AllEndWithNewline(d) && AllEndWithNewline(a) && AllEndWithNewline(t)
    requires EndsWithNewline(f)
    ensures AllEndWithNewline(p + d + a + t + [f])
  {
    AllEndConcat(p, d);
    AllEndConcat(p + d, a);
    AllEndConcat(p + d + a, t);
    AllEndConcat(p + d + a + t, [f]);
  }

  /** Four parts and a closing line put together: every line kept, the first nonempty part first, the closing line last. */
  lemma PartsInSections(p: seq<string>, d: seq<string>, a: seq<string>, t: seq<string>, f: string)
    ensures var s := p + d + a + t + [f];
            && (forall x :: x in p || x in d || x in a || x in t ==> x in s)
            && s[|s| - 1] == f
            && s[0] == (if |p| > 0 then p[0] else if |d| > 0 then d[0] else if |a| > 0 then a[0]
                        else if |t| > 0 then t[0] else f)
  {
    var s := p + d + a + t + [f];
    forall x | x in p || x in d || x in a || x in t
      ensures x in s
    {
      if x in p {
        var i :| 0 <= i < |p| && p[i] == x;
        assert s[i] == x;
      } else if x in d {
        var i :| 0 <= i < |d| && d[i] == x;
        assert s[|p| + i] == x;
      } else if x in a {
        var i :| 0 <= i < |a| && a[i] == x;
        assert s[|p| + |d| + i] == x;
      } else {
        var i :| 0 <= i < |t| && t[i] == x;
        assert s[|p| + |d| + |a| + i] == x;
      }
    }
  }

  /** The section lines keep their membership after the opening lines are put in front. */
  lemma InOpening(o: seq<string>, s: seq<string>, ctx: ChatContext)
    requires Covered(ctx, s)
    ensures Covered(ctx, o + s)
  {
    forall x | x in s
      ensures x in o + s
    {
      InConcat(o, s, x);
    }
  }

  /** The plan section's appends when there is a plan. */
  method PlanPartLines(ctx: ChatContext) returns (part: seq<string>)
    ensures part == PlanPart(ctx)
  {
    part := [];
    if ctx.plan.Some? {
      part := PlanLines(ctx.plan.value);
    }
  }

  /** The recent-day section's appends when there is a recent day. */
  method DayPartLines(ctx: ChatContext) returns (part: seq<string>)
    ensures part == DayPart(ctx)
  {
    part := [];
    if ctx.recentDay.Some? {
      part := DayLines(ctx.recentDay.value);
    }
  }

  /** The analytics section's appends when there are analytics. */
  method AnalyticsPartLines(ctx: ChatContext) returns (part: seq<string>)
    ensures part == AnalyticsPart(ctx)
  {
    part := [];
    if ctx.analytics.Some? {
      part := AnalyticsLines(ctx.analytics.value);
    }
  }

  /** The on-demand section's appends when there are details. */
  method DetailedPartLines(ctx: ChatContext) returns (part: seq<string>)
    ensures part == DetailedPart(ctx)
  {
    part := [];
    if ctx.detailed.Some? {
      part := DetailedLines(ctx.detailed.value);
    }
  }

  /** The appends of the sections present, in source order, and the closing rule. */
  method SectionLines(ctx: ChatContext) returns (sections: seq<string>)
    ensures sections == Sections(ctx)
  {
    var plan := PlanPartLines(ctx);
    sections := plan;
    var day := DayPartLines(ctx);
    sections := sections + day;
    var analytics := AnalyticsPartLines(ctx);
    sections := sections + analytics;
    var detailed := DetailedPartLines(ctx);
    sections := sections + detailed;
    sections := sections + [CONTEXT_FOOTER];
  }

  /** The context text's lines, as the `+=` statements append them. */
  method ContextLines(ctx: ChatContext) returns (lines: seq<string>)
    ensures lines == Context(ctx)
  {
    var opening := OpeningLines(ctx);
    var sections := SectionLines(ctx);
    lines := opening + sections;
  }

  /** A line of either part is a line of the two put together. */
  lemma InConcat(a: seq<string>, b: seq<string>, x: string)
    ensures x in a ==> x in a + b
    ensures x in b ==> x in a + b
  {
  }

  lemma AllEndConcat(a: seq<string>, b: seq<string>)
    requires AllEndWithNewline(a) && AllEndWithNewline(b)
    ensures AllEndWithNewline(a + b)
  {
  }

  /** The concatenation of the lines, in order. */
  function Concat(lines: seq<string>): string
  {
    if |lines| == 0 then "" else Concat(lines[..|lines| - 1]) + lines[|lines| - 1]
  }

  /** `history.slice(-n)`: the last `n` entries, or all of them when there are fewer. */
  function LastN(history: seq<ChatMessage>, n: nat): (r: seq<ChatMessage>)
    ensures |r| == if |history| < n then |history| else n
    ensures forall i :: 0 <= i < |r| ==> r[i] == history[|history| - |r| + i]
  {
    if |history| <= n then history else history[|history| - n..]
  }

  /** The most history entries forwarded. */
  const HISTORY_WINDOW: nat := 10

  /**
   * The message list: the system prompt, the context as a user message, the last ten history
   * entries in their original order, and the user's input as the final message.
   */
  function Messages(systemPrompt: string, context: string, history: seq<ChatMessage>, userInput: string)
    : (r: seq<ChatMessage>)
    ensures |r| == 3 + |LastN(history, HISTORY_WINDOW)| && |r| <= 3 + HISTORY_WINDOW
    ensures r[0] == ChatMessage("system", systemPrompt) && r[1] == ChatMessage("user", context)
    ensures r[|r| - 1] == ChatMessage("user", userInput)
    ensures forall i :: 2 <= i < |r| - 1 ==> r[i] == history[|history| - (|r| - 3) + (i - 2)]
  {
    [ChatMessage("system", systemPrompt), ChatMessage("user", context)] + LastN(history, HISTORY_WINDOW)
    + [ChatMessage("user", userInput)]
  }

  /** The pushes of the orchestrator, the forwarded history one message at a time. */
  method BuildMessages(systemPrompt: string, context: string, history: seq<ChatMessage>, userInput: string)
    returns (messages: seq<ChatMessage>)
    ensures messages == Messages(systemPrompt, context, history, userInput)
  {
    messages := [ChatMessage("system", systemPrompt)];
    messages := messages + [ChatMessage("user", context)];
    if |history| > 0 {
      var recent := LastN(history, HISTORY_WINDOW);
      var i := 0;
      while i < |recent|
        invariant 0 <= i <= |recent|
        invariant messages == [ChatMessage("system", systemPrompt), ChatMessage("user", context)] + recent[..i]
      {
        assert recent[..i + 1] == recent[..i] + [recent[i]];
        messages := messages + [ChatMessage(recent[i].role, recent[i].content)];
        i := i + 1;
      }
      assert recent[..i] == recent;
    }
    messages := messages + [ChatMessage("user", userInput)];
  }

  /** A short history is forwarded whole; a long one loses everything but its last ten entries. */
  lemma HistoryWindow(systemPrompt: string, context: string, history: seq<ChatMessage>, userInput: string)
    ensures |history| <= HISTORY_WINDOW ==> Messages(systemPrompt, context, history, userInput)[2..3 + |history| - 1] == history
    ensures |history| > HISTORY_WINDOW ==>
              Messages(systemPrompt, context, history, userInput)[2..12] == history[|history| - HISTORY_WINDOW..]
  {
    var m := Messages(systemPrompt, context, history, userInput);
    if |history| <= HISTORY_WINDOW {
      assert |m| == 3 + |history|;
      assert m[2..3 + |history| - 1] == LastN(history, HISTORY_WINDOW);
    } else {
      assert |m| == 13;
      assert m[2..12] == LastN(history, HISTORY_WINDOW);
    }
  }

  datatype SuggestedAction = SuggestedAction(actionType: string, displayText: string)

  /** A parsed JSON reply; `responseText` is None when it is missing or not a string. */
  datatype RawChatResponse = RawChatResponse(responseText: Option<string>,
                                             suggestedActions: DataTypes.Nullable<seq<SuggestedAction>>,
                                             needsMoreInfoPrompt: DataTypes.Nullable<string>)

  datatype ChatResponse = ChatResponse(responseText: string, needsMoreInfoPrompt: DataTypes.Nullable<string>,
                                       suggestedActions: Option<seq<SuggestedAction>>)

  /**
   * `ChatResponseSchema.parse`: the text must be a non-empty string; the actions may be omitted
   * but not null; the follow-up prompt may be omitted or null.
   */
  function ParseChatResponse(raw: RawChatResponse): (r: Option<ChatResponse>)
    ensures r.Some? <==> raw.responseText.Some? && raw.responseText.value != "" && !raw.suggestedActions.Null?
    ensures r.Some? ==> && r.value.responseText == raw.responseText.value
                        && r.value.needsMoreInfoPrompt == raw.needsMoreInfoPrompt
                        && (r.value.suggestedActions.Some? <==> raw.suggestedActions.Present?)
                        && (raw.suggestedActions.Present? ==> r.value.suggestedActions.value == raw.suggestedActions.value)
  {
    if raw.responseText.None? || raw.responseText.value == "" || raw.suggestedActions.Null? then None
    else
      var actions := if raw.suggestedActions.Present? then Some(raw.suggestedActions.value) else None;
      Some(ChatResponse(raw.responseText.value, raw.needsMoreInfoPrompt, actions))
  }

  const UNAVAILABLE_TEXT: string := "Lo siento, no puedo responder en este momento. Por favor, intenta de nuevo más tarde. 🦊"
  const REPHRASE_TEXT: string := "Tuve un pequeño problema procesando esa información. ¿Podrías intentar reformular tu pregunta? 🦊"

  /** A fallback answer: fixed text, no follow-up prompt, no actions. */
  function Fallback(text: string): (r: ChatResponse)
    ensures r.responseText == text && r.needsMoreInfoPrompt.Null? && r.suggestedActions == Some([])
  {
    ChatResponse(text, DataTypes.Null, Some([]))
  }

  datatype ChatTurnInput = ChatTurnInput(userInput: string, chatHistory: Option<seq<ChatMessage>>, chatContext: ChatContext)

  /**
   * `orchestrateChatResponse`: it always answers. A failed call or empty content gives the
   * "cannot answer" fallback; content that is not JSON or does not fit the schema gives the
   * "rephrase" fallback; otherwise the validated reply.
   */
  method OrchestrateChatResponse(input: ChatTurnInput, systemPrompt: string,
                                 reply: ContentGenerator.LlmReply<RawChatResponse>)
    returns (messages: seq<ChatMessage>, r: ChatResponse)
    ensures messages == Messages(systemPrompt, Concat(Context(input.chatContext)), input.chatHistory.GetOr([]), input.userInput)
    ensures reply.CallFailed? ==> r == Fallback(UNAVAILABLE_TEXT)
    ensures reply.NotJson? ==> r == Fallback(REPHRASE_TEXT)
    ensures reply.Parsed? && ParseChatResponse(reply.raw).None? ==> r == Fallback(REPHRASE_TEXT)
    ensures reply.Parsed? && ParseChatResponse(reply.raw).Some? ==> r == ParseChatResponse(reply.raw).value
  {
    var history := input.chatHistory.GetOr([]);
    var lines := ContextLines(input.chatContext);
    messages := BuildMessages(systemPrompt, Concat(lines), history, input.userInput);
    if reply.CallFailed? {
      return messages, Fallback(UNAVAILABLE_TEXT);
    }
    if reply.NotJson? {
      return messages, Fallback(REPHRASE_TEXT);
    }
    var validated := ParseChatResponse(reply.raw);
    if validated.None? {
      return messages, Fallback(REPHRASE_TEXT);
    }
    r := validated.value;
  }
}
