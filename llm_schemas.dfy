// The Zod schemas that validate LLM output: HH:MM times, day content with its
// action-day refinement, the exercise union, action tasks and learning days.
// Raw inputs carry JSON values of the expected primitive types; a field that
// may be omitted is an Option (or a Nullable when null is distinct).
module LlmSchemas {
  import opened Wrappers
  import opened Text
  import opened DataTypes

  // ---- HH:MM ----

  /** `^([01]\d|2[0-3]):([0-5]\d)$` */
  predicate IsTimeString(s: string)
  {
    && |s| == 5 && s[2] == ':'
    && IsDigit(s[0]) && IsDigit(s[1]) && IsDigit(s[3]) && IsDigit(s[4])
    && (s[0] == '0' || s[0] == '1' || (s[0] == '2' && s[1] <= '3'))
    && s[3] <= '5'
  }

  function TwoDigits(n: nat): (r: string)
    requires n < 100
    ensures |r| == 2 && IsDigit(r[0]) && IsDigit(r[1])
  {
    [DigitChar(n / 10), DigitChar(n % 10)]
  }

  /** The clock time `h:m` written as HH:MM. */
  function FormatTime(h: nat, m: nat): (s: string)
    requires h < 24 && m < 60
  {
    TwoDigits(h) + ":" + TwoDigits(m)
  }

  function DigitValue(c: char): nat
    requires IsDigit(c)
  {
    c as int - '0' as int
  }

  function Hours(s: string): nat
    requires IsTimeString(s)
  {
    10 * DigitValue(s[0]) + DigitValue(s[1])
  }

  function Minutes(s: string): nat
    requires IsTimeString(s)
  {
    10 * DigitValue(s[3]) + DigitValue(s[4])
  }

  /** Minutes since midnight. */
  function MinuteOfDay(s: string): nat
    requires IsTimeString(s)
  {
    60 * Hours(s) + Minutes(s)
  }

  /** Every clock time formats to a string the pattern accepts, and reads back unchanged. */
  lemma FormatTimeIsTimeString(h: nat, m: nat)
    requires h < 24 && m < 60
    ensures IsTimeString(FormatTime(h, m))
    ensures Hours(FormatTime(h, m)) == h && Minutes(FormatTime(h, m)) == m
  {
  }

  /** Every accepted string is the HH:MM form of a clock time with hour < 24 and minute < 60. */
  lemma TimeStringIsFormatted(s: string)
    requires IsTimeString(s)
    ensures Hours(s) < 24 && Minutes(s) < 60
    ensures s == FormatTime(Hours(s), Minutes(s))
  {
    var f := FormatTime(Hours(s), Minutes(s));
    assert f[0] == s[0] && f[1] == s[1] && f[2] == s[2] && f[3] == s[3] && f[4] == s[4];
  }

  predicate NonEmptyStrings(xs: seq<string>)
  {
    forall i :: 0 <= i < |xs| ==> |xs[i]| >= 1
  }

  // ---- Main content ----

  datatype KeyConcept = KeyConcept(term: string, definition: string, order: int)

  datatype RawMainContent = RawMainContent(title: string, textContent: string, funFact: string,
                                           keyConcepts: seq<KeyConcept>, xp: Option<int>)

  datatype MainContent = MainContent(title: string, textContent: string, funFact: string,
                                     keyConcepts: seq<KeyConcept>, xp: int)

  predicate ValidKeyConcept(k: KeyConcept)
  {
    |k.term| >= 1 && |k.definition| >= 1 && k.order > 0
  }

  /** `UnifiedMainContentSchema`: substantial text, at least one key concept, positive xp (30 by default). */
  function ParseMainContent(raw: RawMainContent): (r: Result<MainContent>)
    ensures r.Ok? <==> |raw.title| >= 1 && |raw.textContent| >= 10 && |raw.funFact| >= 1
                       && |raw.keyConcepts| >= 1 && (forall i :: 0 <= i < |raw.keyConcepts| ==> ValidKeyConcept(raw.keyConcepts[i]))
                       && (raw.xp.Some? ==> raw.xp.value > 0)
    ensures r.Ok? ==> r.value == MainContent(raw.title, raw.textContent, raw.funFact, raw.keyConcepts, raw.xp.GetOr(30))
                      && r.value.xp > 0
  {
    if |raw.title| < 1 || |raw.textContent| < 10 || |raw.funFact| < 1 then Err("main_content: invalid text")
    else if |raw.keyConcepts| < 1 then Err("At least one key concept is required.")
    else if exists i :: 0 <= i < |raw.keyConcepts| && !ValidKeyConcept(raw.keyConcepts[i]) then Err("main_content: invalid key concept")
    else if raw.xp.Some? && raw.xp.value <= 0 then Err("main_content: xp must be positive")
    else Ok(MainContent(raw.title, raw.textContent, raw.funFact, raw.keyConcepts, raw.xp.GetOr(30)))
  }

  // ---- Exercises ----

  datatype Pair = Pair(term: string, meaning: string)

  /** An exercise object as the LLM wrote it: a `type` tag and whichever fields it supplied. */
  datatype RawExercise = RawExercise(
    kind: string,
    question: Option<string>,
    statement: Option<string>,
    scenario: Option<string>,
    options: Option<seq<string>>,
    answerIndex: Option<int>,
    answerTruth: Option<bool>,
    explanation: Option<string>,
    pairs: Option<seq<Pair>>,
    xp: Option<int>)

  datatype Exercise =
    | QuizMcq(question: string, options: seq<string>, answer: int, explanation: string, xp: int)
    | TrueFalse(statement: string, truth: bool, explanation: string, xp: int)
    | MatchMeaning(pairs: seq<Pair>, xp: int)
    | ScenarioQuiz(scenario: string, question: string, options: seq<string>, answer: int, explanation: string, xp: int)
  {
    /** The discriminator literal of the variant. */
    function Kind(): string
    {
      match this
      case QuizMcq(_, _, _, _, _) => "quiz_mcq"
      case TrueFalse(_, _, _, _) => "quiz_truefalse"
      case MatchMeaning(_, _) => "match_meaning"
      case ScenarioQuiz(_, _, _, _, _, _) => "scenario_quiz"
    }
  }

  const MCQ_XP: int := 20
  const TRUE_FALSE_XP: int := 15
  const MATCH_MEANING_XP: int := 25
  const SCENARIO_XP: int := 30

  predicate PresentText(o: Option<string>) { o.Some? && |o.value| >= 1 }

  predicate ValidOptions(o: Option<seq<string>>) { o.Some? && |o.value| >= 2 && NonEmptyStrings(o.value) }

  predicate ValidPairs(o: Option<seq<Pair>>)
  {
    o.Some? && |o.value| >= 2 && forall i :: 0 <= i < |o.value| ==> |o.value[i].term| >= 1 && |o.value[i].meaning| >= 1
  }

  predicate ValidMcq(raw: RawExercise)
  {
    PresentText(raw.question) && ValidOptions(raw.options) && raw.answerIndex.Some? && raw.answerIndex.value >= 0
    && PresentText(raw.explanation)
  }

  predicate ValidTrueFalse(raw: RawExercise)
  {
    PresentText(raw.statement) && raw.answerTruth.Some? && PresentText(raw.explanation)
  }

  predicate ValidScenario(raw: RawExercise)
  {
    PresentText(raw.scenario) && ValidMcq(raw)
  }

  datatype ExerciseKind = McqKind | TrueFalseKind | MatchMeaningKind | ScenarioKind

  function ExerciseKindOfTag(tag: string): (r: Option<ExerciseKind>)
    ensures r == Some(McqKind) <==> tag == "quiz_mcq"
    ensures r == Some(TrueFalseKind) <==> tag == "quiz_truefalse"
    ensures r == Some(MatchMeaningKind) <==> tag == "match_meaning"
    ensures r == Some(ScenarioKind) <==> tag == "scenario_quiz"
  {
    if tag == "quiz_mcq" then Some(McqKind) else if tag == "quiz_truefalse" then Some(TrueFalseKind)
    else if tag == "match_meaning" then Some(MatchMeaningKind) else if tag == "scenario_quiz" then Some(ScenarioKind)
    else None
  }

  /** The xp an exercise of the given kind gets when the LLM leaves it out. */
  function DefaultExerciseXp(kind: ExerciseKind): int
  {
    match kind
    case McqKind => MCQ_XP
    case TrueFalseKind => TRUE_FALSE_XP
    case MatchMeaningKind => MATCH_MEANING_XP
    case ScenarioKind => SCENARIO_XP
  }

  /** The discriminated union `ExerciseBlockSchema`: the `type` tag picks the variant to check. */
  function ParseExercise(raw: RawExercise): (r: Result<Exercise>)
    ensures ExerciseKindOfTag(raw.kind).None? ==> r.Err?
    ensures r.Ok? ==> r.value.Kind() == raw.kind
    ensures r.Ok? ==> r.value.xp == raw.xp.GetOr(DefaultExerciseXp(ExerciseKindOfTag(raw.kind).value))
    ensures ExerciseKindOfTag(raw.kind) == Some(McqKind) ==> (r.Ok? <==> ValidMcq(raw))
    ensures ExerciseKindOfTag(raw.kind) == Some(TrueFalseKind) ==> (r.Ok? <==> ValidTrueFalse(raw))
    ensures ExerciseKindOfTag(raw.kind) == Some(MatchMeaningKind) ==> (r.Ok? <==> ValidPairs(raw.pairs))
    ensures ExerciseKindOfTag(raw.kind) == Some(ScenarioKind) ==> (r.Ok? <==> ValidScenario(raw))
    ensures r.Ok? && r.value.QuizMcq? ==>
              r.value == QuizMcq(raw.question.value, raw.options.value, raw.answerIndex.value, raw.explanation.value, r.value.xp)
    ensures r.Ok? && r.value.TrueFalse? ==>
              r.value == TrueFalse(raw.statement.value, raw.answerTruth.value, raw.explanation.value, r.value.xp)
    ensures r.Ok? && r.value.MatchMeaning? ==> r.value == MatchMeaning(raw.pairs.value, r.value.xp)
    ensures r.Ok? && r.value.ScenarioQuiz? ==>
              r.value == ScenarioQuiz(raw.scenario.value, raw.question.value, raw.options.value, raw.answerIndex.value,
                                      raw.explanation.value, r.value.xp)
  {
    match ExerciseKindOfTag(raw.kind)
    case None => Err("Invalid discriminator value. Expected 'quiz_mcq' | 'quiz_truefalse' | 'match_meaning' | 'scenario_quiz'")
    case Some(McqKind) =>
      if ValidMcq(raw)
      then Ok(QuizMcq(raw.question.value, raw.options.value, raw.answerIndex.value, raw.explanation.value, raw.xp.GetOr(MCQ_XP)))
      else Err("quiz_mcq: invalid fields")
    case Some(TrueFalseKind) =>
      if ValidTrueFalse(raw)
      then Ok(TrueFalse(raw.statement.value, raw.answerTruth.value, raw.explanation.value, raw.xp.GetOr(TRUE_FALSE_XP)))
      else Err("quiz_truefalse: invalid fields")
    case Some(MatchMeaningKind) =>
      if ValidPairs(raw.pairs) then Ok(MatchMeaning(raw.pairs.value, raw.xp.GetOr(MATCH_MEANING_XP)))
      else Err("match_meaning: invalid fields")
    case Some(ScenarioKind) =>
      if ValidScenario(raw)
      then Ok(ScenarioQuiz(raw.scenario.value, raw.question.value, raw.options.value, raw.answerIndex.value,
                           raw.explanation.value, raw.xp.GetOr(SCENARIO_XP)))
      else Err("scenario_quiz: invalid fields")
  }

  /** With xp omitted, the four variants are worth 20, 15, 25 and 30. */
  lemma ExerciseDefaultXp(raw: RawExercise)
    requires raw.xp.None? && ParseExercise(raw).Ok?
    ensures var e := ParseExercise(raw).value;
      && (e.QuizMcq? ==> e.xp == 20) && (e.TrueFalse? ==> e.xp == 15)
      && (e.MatchMeaning? ==> e.xp == 25) && (e.ScenarioQuiz? ==> e.xp == 30)
  {
  }

  /** MCQ and scenario exercises that parse have two or more options and a non-negative answer. */
  lemma ParsedChoiceExercisesHaveOptions(raw: RawExercise)
    requires ParseExercise(raw).Ok?
    ensures var e := ParseExercise(raw).value;
      (e.QuizMcq? || e.ScenarioQuiz?) ==> |e.options| >= 2 && e.answer >= 0
  {
  }

  /** The answer index is only checked to be non-negative: it may point past the options. */
  lemma McqAnswerNotCheckedAgainstOptions(q: string, a: string, b: string, e: string)
    requires |q| >= 1 && |a| >= 1 && |b| >= 1 && |e| >= 1
    ensures var raw := RawExercise("quiz_mcq", Some(q), None, None, Some([a, b]), Some(5), None, Some(e), None, None);
      ParseExercise(raw) == Ok(QuizMcq(q, [a, b], 5, e, MCQ_XP))
  {
  }

  function ParseExercises(raws: seq<RawExercise>): (r: Result<seq<Exercise>>)
    ensures r.Ok? <==> forall i :: 0 <= i < |raws| ==> ParseExercise(raws[i]).Ok?
    ensures r.Ok? ==> |r.value| == |raws| && forall i :: 0 <= i < |raws| ==> r.value[i] == ParseExercise(raws[i]).value
  {
    if |raws| == 0 then Ok([])
    else
      var head := ParseExercise(raws[0]);
      var tail := ParseExercises(raws[1..]);
      if head.Err? then Err(head.error)
      else if tail.Err? then Err(tail.error)
      else
        assert forall i :: 1 <= i < |raws| ==> raws[i] == raws[1..][i - 1];
        Ok([head.value] + tail.value)
  }

  // ---- Action task ----

  datatype Adaptation = Easier | Standard | Harder

  function AdaptationOfTag(tag: string): (r: Option<Adaptation>)
    ensures r == Some(Easier) <==> tag == "easier"
    ensures r == Some(Standard) <==> tag == "standard"
    ensures r == Some(Harder) <==> tag == "harder"
  {
    if tag == "easier" then Some(Easier) else if tag == "standard" then Some(Standard)
    else if tag == "harder" then Some(Harder) else None
  }

  datatype RawActionTask = RawActionTask(
    title: string, challengeDescription: string, steps: seq<string>, timeEstimate: string, tips: seq<string>,
    realWorldContext: string, successCriteria: seq<string>, skiMotivation: string,
    difficultyAdaptation: Nullable<string>, xp: Option<int>)

  datatype ActionTask = ActionTask(
    title: string, challengeDescription: string, steps: seq<string>, timeEstimate: string, tips: seq<string>,
    realWorldContext: string, successCriteria: seq<string>, skiMotivation: string,
    difficultyAdaptation: Nullable<Adaptation>, xp: int)

  const ACTION_TASK_XP: int := 75
  const ACTION_TASK_MIN_XP: int := 30
  const ACTION_TASK_MAX_XP: int := 150

  predicate ValidRawActionTask(raw: RawActionTask)
  {
    && |raw.title| >= 1 && |raw.challengeDescription| >= 1 && |raw.timeEstimate| >= 1
    && |raw.realWorldContext| >= 1 && |raw.skiMotivation| >= 1
    && |raw.steps| >= 1 && NonEmptyStrings(raw.steps)
    && NonEmptyStrings(raw.tips)
    && |raw.successCriteria| >= 1 && NonEmptyStrings(raw.successCriteria)
    && (raw.difficultyAdaptation.Present? ==> AdaptationOfTag(raw.difficultyAdaptation.value).Some?)
    && (raw.xp.Some? ==> ACTION_TASK_MIN_XP <= raw.xp.value <= ACTION_TASK_MAX_XP)
  }

  /** `ActionTaskSchema` */
  function ParseActionTask(raw: RawActionTask): (r: Result<ActionTask>)
    ensures r.Ok? <==> ValidRawActionTask(raw)
    ensures r.Ok? ==> ACTION_TASK_MIN_XP <= r.value.xp <= ACTION_TASK_MAX_XP && r.value.xp == raw.xp.GetOr(ACTION_TASK_XP)
    ensures r.Ok? ==> && r.value.title == raw.title && r.value.challengeDescription == raw.challengeDescription
                      && r.value.steps == raw.steps && r.value.timeEstimate == raw.timeEstimate && r.value.tips == raw.tips
                      && r.value.realWorldContext == raw.realWorldContext && r.value.successCriteria == raw.successCriteria
                      && r.value.skiMotivation == raw.skiMotivation
    ensures r.Ok? ==> |r.value.steps| >= 1 && |r.value.successCriteria| >= 1
    ensures r.Ok? ==> (r.value.difficultyAdaptation.Null? <==> raw.difficultyAdaptation.Null?)
                      && (r.value.difficultyAdaptation.Undefined? <==> raw.difficultyAdaptation.Undefined?)
    ensures r.Ok? && raw.difficultyAdaptation.Present? ==>
              r.value.difficultyAdaptation == Present(AdaptationOfTag(raw.difficultyAdaptation.value).value)
  {
    if !ValidRawActionTask(raw) then Err("ActionTask: invalid fields")
    else
      var adaptation: Nullable<Adaptation> := match raw.difficultyAdaptation
        case Undefined => Undefined
        case Null => Null
        case Present(tag) => Present(AdaptationOfTag(tag).value);
      Ok(ActionTask(raw.title, raw.challengeDescription, raw.steps, raw.timeEstimate, raw.tips, raw.realWorldContext,
                    raw.successCriteria, raw.skiMotivation, adaptation, raw.xp.GetOr(ACTION_TASK_XP)))
  }

  // ---- Day content ----

  datatype RawDayContent = RawDayContent(
    title: string,
    isActionDay: Option<bool>,
    objectives: seq<string>,
    mainContent: Nullable<RawMainContent>,
    exercises: Nullable<seq<RawExercise>>,
    actionTask: Nullable<RawActionTask>,
    totalXp: Option<int>,
    estimatedTime: Option<string>)

  datatype DayContent = DayContent(
    title: string,
    isActionDay: bool,
    objectives: seq<string>,
    mainContent: Option<MainContent>,
    exercises: Nullable<seq<Exercise>>,
    actionTask: Nullable<ActionTask>,
    totalXp: int,
    estimatedTime: string)

  /** The refinement: action days carry no main content; content days carry it and an explicit null action task. */
  predicate StructurallyConsistent(d: DayContent)
  {
    if d.isActionDay then d.mainContent.None? else d.mainContent.Some? && d.actionTask.Null?
  }

  function ParseNullableExercises(n: Nullable<seq<RawExercise>>): (r: Result<Nullable<seq<Exercise>>>)
    ensures r.Ok? ==> (r.value.Undefined? <==> n.Undefined?) && (r.value.Null? <==> n.Null?)
    ensures n.Present? ==> (r.Ok? <==> ParseExercises(n.value).Ok?)
    ensures n.Present? && r.Ok? ==> r.value == Present(ParseExercises(n.value).value)
    ensures !n.Present? ==> r.Ok?
  {
    match n
    case Undefined => Ok(Undefined)
    case Null => Ok(Null)
    case Present(xs) => var p := ParseExercises(xs); if p.Err? then Err(p.error) else Ok(Present(p.value))
  }

  function ParseNullableActionTask(n: Nullable<RawActionTask>): (r: Result<Nullable<ActionTask>>)
    ensures r.Ok? ==> (r.value.Undefined? <==> n.Undefined?) && (r.value.Null? <==> n.Null?)
    ensures n.Present? ==> (r.Ok? <==> ParseActionTask(n.value).Ok?)
    ensures n.Present? && r.Ok? ==> r.value == Present(ParseActionTask(n.value).value)
    ensures !n.Present? ==> r.Ok?
  {
    match n
    case Undefined => Ok(Undefined)
    case Null => Ok(Null)
    case Present(t) => var p := ParseActionTask(t); if p.Err? then Err(p.error) else Ok(Present(p.value))
  }

  /** `main_content`: required, nullable, and checked by `UnifiedMainContentSchema` when present. */
  function ParseMainField(n: Nullable<RawMainContent>): (r: Result<Option<MainContent>>)
    ensures r.Ok? <==> !n.Undefined? && (n.Present? ==> ParseMainContent(n.value).Ok?)
    ensures r.Ok? ==> (r.value.None? <==> n.Null?)
    ensures r.Ok? && n.Present? ==> r.value == Some(ParseMainContent(n.value).value)
  {
    match n
    case Undefined => Err("main_content: Required")
    case Null => Ok(None)
    case Present(m) => var p := ParseMainContent(m); if p.Err? then Err(p.error) else Ok(Some(p.value))
  }

  /** The object part of `DayContentSchema`: field checks and defaults, before the refinement. */
  function ParseDayFields(raw: RawDayContent): (r: Result<DayContent>)
    ensures r.Ok? <==> && |raw.title| >= 1 && raw.isActionDay.Some?
                       && |raw.objectives| >= 1 && NonEmptyStrings(raw.objectives)
                       && !raw.mainContent.Undefined?
                       && (raw.mainContent.Present? ==> ParseMainContent(raw.mainContent.value).Ok?)
                       && ParseNullableExercises(raw.exercises).Ok? && ParseNullableActionTask(raw.actionTask).Ok?
                       && (raw.totalXp.Some? ==> raw.totalXp.value >= 0)
                       && (raw.estimatedTime.Some? ==> |raw.estimatedTime.value| >= 1)
    ensures r.Ok? && raw.mainContent.Present? ==> r.value.mainContent == Some(ParseMainContent(raw.mainContent.value).value)
    ensures r.Ok? ==> r.value.exercises == ParseNullableExercises(raw.exercises).value
                      && r.value.actionTask == ParseNullableActionTask(raw.actionTask).value
    ensures r.Ok? ==> raw.isActionDay == Some(r.value.isActionDay) && r.value.title == raw.title
    ensures r.Ok? ==> |r.value.objectives| >= 1 && NonEmptyStrings(r.value.objectives) && r.value.objectives == raw.objectives
    ensures r.Ok? ==> r.value.totalXp == raw.totalXp.GetOr(0) && r.value.totalXp >= 0
    ensures r.Ok? ==> r.value.estimatedTime == raw.estimatedTime.GetOr("TBD")
    ensures r.Ok? ==> (r.value.exercises.Undefined? <==> raw.exercises.Undefined?) && (r.value.exercises.Null? <==> raw.exercises.Null?)
    ensures r.Ok? ==> (r.value.actionTask.Undefined? <==> raw.actionTask.Undefined?) && (r.value.actionTask.Null? <==> raw.actionTask.Null?)
    ensures r.Ok? ==> (r.value.mainContent.None? <==> raw.mainContent.Null?)
    ensures raw.mainContent.Undefined? ==> r.Err?
  {
    if |raw.title| < 1 then Err("title: String must contain at least 1 character(s)")
    else if raw.isActionDay.None? then Err("is_action_day: Required")
    else if |raw.objectives| < 1 || !NonEmptyStrings(raw.objectives) then Err("At least one objective is required.")
    else
      var main := ParseMainField(raw.mainContent);
      var exercises := ParseNullableExercises(raw.exercises);
      var task := ParseNullableActionTask(raw.actionTask);
      if main.Err? then Err(main.error)
      else if exercises.Err? then Err(exercises.error)
      else if task.Err? then Err(task.error)
      else if raw.totalXp.Some? && raw.totalXp.value < 0 then Err("total_xp: Number must be greater than or equal to 0")
      else if raw.estimatedTime.Some? && |raw.estimatedTime.value| < 1 then Err("estimated_time: String must contain at least 1 character(s)")
      else
        Ok(DayContent(raw.title, raw.isActionDay.value, raw.objectives, main.value, exercises.value, task.value,
                      raw.totalXp.GetOr(0), raw.estimatedTime.GetOr("TBD")))
  }

  /** `DayContentSchema.parse`: the object checks, then the structural refinement. */
  function ParseDayContent(raw: RawDayContent): (r: Result<DayContent>)
    ensures r.Ok? <==> ParseDayFields(raw).Ok? && StructurallyConsistent(ParseDayFields(raw).value)
    ensures r.Ok? ==> r.value == ParseDayFields(raw).value
  {
    var d := ParseDayFields(raw);
    if d.Err? then d
    else if !StructurallyConsistent(d.value) then Err("Structural inconsistency for DayContent")
    else d
  }

  /** A content day whose `action_task` key is omitted fails the refinement: `undefined !== null`. */
  lemma OmittedActionTaskRejected(raw: RawDayContent)
    requires raw.isActionDay == Some(false) && raw.actionTask.Undefined?
    ensures ParseDayContent(raw).Err?
  {
  }

  /** An action day with main content fails the refinement. */
  lemma ActionDayWithMainContentRejected(raw: RawDayContent)
    requires raw.isActionDay == Some(true) && raw.mainContent.Present?
    ensures ParseDayContent(raw).Err?
  {
  }

  // ---- Learning day ----

  datatype RawLearningDay = RawLearningDay(
    dayNumber: int, title: string, focusArea: string, isActionDay: bool, objectives: seq<string>,
    generatedBy: Nullable<string>, generatedAt: Nullable<string>, completionStatus: Option<string>, order: int)

  datatype LearningDay = LearningDay(
    dayNumber: int, title: string, focusArea: string, isActionDay: bool, objectives: seq<string>,
    generatedBy: Nullable<string>, generatedAt: Nullable<string>, completionStatus: CompletionStatus, order: int)

  /** The four statuses the planner schema accepts (FAILED is not among them). */
  function PlannerStatusOfTag(tag: string): (r: Option<CompletionStatus>)
    ensures r.Some? <==> tag in {"PENDING", "IN_PROGRESS", "COMPLETED", "SKIPPED"}
    ensures r.Some? ==> StatusName(r.value) == tag && r.value != Failed
  {
    if tag == "PENDING" then Some(Pending) else if tag == "IN_PROGRESS" then Some(InProgress)
    else if tag == "COMPLETED" then Some(Completed) else if tag == "SKIPPED" then Some(Skipped) else None
  }

  /**
   * `LearningDaySchema`. Zod's ISO date-time check of `generatedAt` (offsets allowed) is the
   * parameter `isDateTime`.
   */
  function ParseLearningDay(raw: RawLearningDay, isDateTime: string -> bool): (r: Result<LearningDay>)
    ensures r.Ok? <==> raw.dayNumber > 0 && |raw.title| >= 1 && |raw.focusArea| >= 1 && |raw.objectives| >= 1
                       && NonEmptyStrings(raw.objectives) && raw.order > 0
                       && (raw.generatedAt.Present? ==> isDateTime(raw.generatedAt.value))
                       && (raw.completionStatus.Some? ==> PlannerStatusOfTag(raw.completionStatus.value).Some?)
    ensures r.Ok? ==> r.value.dayNumber >= 1 && r.value.dayNumber == raw.dayNumber
    ensures r.Ok? ==> && r.value.title == raw.title && r.value.focusArea == raw.focusArea
                      && r.value.isActionDay == raw.isActionDay && r.value.objectives == raw.objectives
                      && r.value.generatedBy == raw.generatedBy && r.value.generatedAt == raw.generatedAt
                      && r.value.order == raw.order
    ensures r.Ok? && raw.completionStatus.None? ==> r.value.completionStatus == Pending
    ensures r.Ok? && raw.completionStatus.Some? ==> StatusName(r.value.completionStatus) == raw.completionStatus.value
  {
    if raw.dayNumber <= 0 || |raw.title| < 1 || |raw.focusArea| < 1 || |raw.objectives| < 1
       || !NonEmptyStrings(raw.objectives) || raw.order <= 0
    then Err("LearningDay: invalid fields")
    else if raw.generatedAt.Present? && !isDateTime(raw.generatedAt.value) then Err("generatedAt: Invalid datetime")
    else if raw.completionStatus.Some? && PlannerStatusOfTag(raw.completionStatus.value).None? then Err("completionStatus: invalid enum value")
    else
      var status := if raw.completionStatus.Some? then PlannerStatusOfTag(raw.completionStatus.value).value else Pending;
      Ok(LearningDay(raw.dayNumber, raw.title, raw.focusArea, raw.isActionDay, raw.objectives, raw.generatedBy,
                     raw.generatedAt, status, raw.order))
  }
}
