// The composite Data Connect writes: a learning plan, or one day's generated
// content, turned into an ordered sequence of inserts. The database is an
// in-memory log of attempted inserts; whether each insert returns an id is
// scripted in advance, and the id of a successful insert is its log position.
module DataConnect {
  import opened Wrappers
  import opened Text
  import opened DataTypes
  import opened LlmSchemas

  /** One row handed to a create mutation. */
  datatype Insert =
    | PlanBaseRow(userUid: string, skillName: string, generatedBy: string, totalDurationWeeks: int,
                  dailyTimeMinutes: int, flexibilityOptions: seq<string>)
    | SkillAnalysisRow(learningPlanId: nat, skillCategory: string, marketDemand: string, isSkillValid: bool,
                       learningPathRecommendation: string, generatedBy: string)
    | SkillComponentRow(skillAnalysisId: nat, component: SkillComponent)
    | PedagogicalAnalysisRow(learningPlanId: nat, cognitiveLoadAssessment: string, scaffoldingQuality: string,
                             generatedBy: string)
    | LearningObjectiveRow(pedagogicalAnalysisId: nat, objective: string, measurable: bool, timeframe: string, order: int)
    | PlanSectionRow(learningPlanId: nat, title: string, description: Nullable<string>, order: int)
    | PlanDayRow(sectionId: nat, dayNumber: int, title: string, focusArea: string, isActionDay: bool,
                 objectives: seq<string>, completionStatus: CompletionStatus)
    | MainContentRow(dayContentId: string, title: string, textContent: string, funFact: string, xp: int)
    | KeyConceptRow(mainContentItemId: nat, concept: string, explanation: string)
    | ActionTaskRow(dayContentId: string, title: string, challengeDescription: string, timeEstimate: string,
                    tips: seq<string>, realWorldContext: string, successCriteria: seq<string>, motivation: string,
                    difficultyAdaptation: Nullable<Adaptation>, xp: int)
    | QuizDetailsRow(quizDescription: string)
    | ExerciseDetailsRow(instructions: string, exerciseType: string)
    | MatchPairRow(exerciseId: nat, prompt: string, correctAnswer: string)
    | ContentBlockRow(dayContentId: string, blockType: string, title: string, xp: int, order: int,
                      quizDetailsId: Option<nat>, exerciseDetailsId: Option<nat>)

  /** An attempted insert and whether it returned an id. */
  datatype Attempt = Attempt(row: Insert, ok: bool)

  /** The log so far and the outcomes of the inserts still to come (none left: every further insert fails). */
  datatype DbState = DbState(log: seq<Attempt>, script: seq<bool>)

  // ---- Inputs ----

  datatype SkillComponent = SkillComponent(name: string, description: string, order: int)
  datatype SkillAnalysis = SkillAnalysis(skillName: string, skillCategory: string, marketDemand: string, isSkillValid: bool,
                                         learningPathRecommendation: string, generatedBy: string,
                                         components: seq<SkillComponent>)
  datatype LearningObjective = LearningObjective(objective: string, measurable: bool, timeframe: string, order: int)
  datatype PedagogicalAnalysis = PedagogicalAnalysis(cognitiveLoadAssessment: string, scaffoldingQuality: string,
                                                     generatedBy: string, objectives: seq<LearningObjective>)
  datatype PlanSection = PlanSection(title: string, description: Nullable<string>, order: int, days: seq<LearningDay>)
  datatype LearningPlan = LearningPlan(skillName: string, generatedBy: string, totalDurationWeeks: int,
                                       dailyTimeMinutes: int, flexibilityOptions: Nullable<seq<string>>,
                                       sections: seq<PlanSection>)

  /** What `createFullLearningPlanInDB` returns on success: the plan id and its skill name. */
  datatype CreatedPlan = CreatedPlan(id: nat, skillName: string)

  // ---- One insert, and fire-and-forget sequences of inserts ----

  /** One insert against a state: the attempt is logged, and the id is the log position when it succeeds. */
  function Step(st: DbState, row: Insert): (r: (DbState, Option<nat>))
    ensures r.0.log == st.log + [Attempt(row, r.1.Some?)]
    ensures r.1.Some? <==> |st.script| > 0 && st.script[0]
    ensures r.1.Some? ==> r.1.value == |st.log|
  {
    var ok := |st.script| > 0 && st.script[0];
    (DbState(st.log + [Attempt(row, ok)], if |st.script| > 0 then st.script[1..] else []),
     if ok then Some(|st.log|) else None)
  }

  /** Each row inserted in order, every result ignored. */
  function InsertAll(st: DbState, rows: seq<Insert>): DbState
    decreases |rows|
  {
    if |rows| == 0 then st else InsertAll(Step(st, rows[0]).0, rows[1..])
  }

  /** `t`'s log continues `s`'s. */
  predicate Grows(s: DbState, t: DbState)
  {
    |s.log| <= |t.log| && t.log[..|s.log|] == s.log
  }

  lemma {:induction false} InsertAllFacts(st: DbState, rows: seq<Insert>)
    ensures Grows(st, InsertAll(st, rows))
    ensures |InsertAll(st, rows).log| == |st.log| + |rows|
    ensures forall k :: 0 <= k < |rows| ==> InsertAll(st, rows).log[|st.log| + k].row == rows[k]
    decreases |rows|
  {
    if |rows| > 0 {
      var s1 := Step(st, rows[0]).0;
      InsertAllFacts(s1, rows[1..]);
      var fin := InsertAll(s1, rows[1..]);
      assert fin.log[..|s1.log|] == s1.log;
      assert fin.log[..|st.log|] == s1.log[..|st.log|];
      forall k | 0 <= k < |rows|
        ensures fin.log[|st.log| + k].row == rows[k]
      {
        if k == 0 {
          assert fin.log[|st.log|] == s1.log[|st.log|];
        } else {
          assert fin.log[|s1.log| + (k - 1)].row == rows[1..][k - 1];
        }
      }
    }
  }

  // ---- Which inserts decide the result of saving a day ----

  /** The inserts whose missing id makes `saveDailyContentDetailsInDB` report failure. */
  predicate Critical(row: Insert)
  {
    row.MainContentRow? || row.ActionTaskRow? || row.ContentBlockRow?
  }

  /** Every critical insert logged at positions `a` to `b` returned an id (CriticalOkMeans states it with a quantifier). */
  predicate CriticalOk(log: seq<Attempt>, a: nat, b: nat)
    requires a <= b <= |log|
    decreases b - a
  {
    a == b || (CriticalOk(log, a, b - 1) && (Critical(log[b - 1].row) ==> log[b - 1].ok))
  }

  lemma {:induction false} CriticalOkMeans(log: seq<Attempt>, a: nat, b: nat)
    requires a <= b <= |log|
    ensures CriticalOk(log, a, b) <==> forall k :: a <= k < b && Critical(log[k].row) ==> log[k].ok
    decreases b - a
  {
    if a < b {
      CriticalOkMeans(log, a, b - 1);
    }
  }

  lemma GrowsTrans(s: DbState, t: DbState, u: DbState)
    requires Grows(s, t) && Grows(t, u)
    ensures Grows(s, u)
  {
    assert u.log[..|s.log|] == u.log[..|t.log|][..|s.log|];
  }

  /** CriticalOk over two adjacent stretches of a growing log. */
  lemma CriticalOkSplit(s: DbState, t: DbState, u: DbState)
    requires Grows(s, t) && Grows(t, u)
    ensures CriticalOk(u.log, |s.log|, |u.log|)
            <==> CriticalOk(t.log, |s.log|, |t.log|) && CriticalOk(u.log, |t.log|, |u.log|)
  {
    CriticalOkMeans(u.log, |s.log|, |u.log|);
    CriticalOkMeans(t.log, |s.log|, |t.log|);
    CriticalOkMeans(u.log, |t.log|, |u.log|);
    forall k | |s.log| <= k < |t.log|
      ensures u.log[k] == t.log[k]
    {
      assert u.log[k] == u.log[..|t.log|][k];
    }
  }

  /** Two consecutive stretches of inserts, each reporting whether its critical inserts succeeded. */
  lemma Compose(st: DbState, s1: DbState, s2: DbState, ok1: bool, ok2: bool)
    requires Grows(st, s1) && Grows(s1, s2)
    requires ok1 <==> CriticalOk(s1.log, |st.log|, |s1.log|)
    requires ok2 <==> CriticalOk(s2.log, |s1.log|, |s2.log|)
    ensures Grows(st, s2)
    ensures ok1 && ok2 <==> CriticalOk(s2.log, |st.log|, |s2.log|)
  {
    GrowsTrans(st, s1, s2);
    CriticalOkSplit(st, s1, s2);
  }

  /** Rows inserted fire-and-forget that are not critical leave CriticalOk true. */
  lemma NonCriticalInsertAll(st: DbState, rows: seq<Insert>)
    requires forall k :: 0 <= k < |rows| ==> !Critical(rows[k])
    ensures Grows(st, InsertAll(st, rows))
    ensures CriticalOk(InsertAll(st, rows).log, |st.log|, |InsertAll(st, rows).log|)
  {
    InsertAllFacts(st, rows);
    var fin := InsertAll(st, rows);
    forall k | |st.log| <= k < |fin.log|
      ensures !Critical(fin.log[k].row)
    {
      assert fin.log[|st.log| + (k - |st.log|)].row == rows[k - |st.log|];
    }
    CriticalOkMeans(fin.log, |st.log|, |fin.log|);
  }

  // ---- saveDailyContentDetailsInDB, as a specification ----

  function KeyConceptRows(mainContentItemId: nat, concepts: seq<KeyConcept>): (r: seq<Insert>)
    ensures |r| == |concepts|
    ensures forall k :: 0 <= k < |r| ==> !Critical(r[k])
  {
    seq(|concepts|, k requires 0 <= k < |concepts| =>
      KeyConceptRow(mainContentItemId, concepts[k].term, concepts[k].definition))
  }

  function MatchPairRows(exerciseId: nat, pairs: seq<Pair>): (r: seq<Insert>)
    ensures |r| == |pairs|
    ensures forall k :: 0 <= k < |r| ==> !Critical(r[k]) && r[k].MatchPairRow?
  {
    seq(|pairs|, k requires 0 <= k < |pairs| => MatchPairRow(exerciseId, pairs[k].term, pairs[k].meaning))
  }

  /** Step 1: the main content item, then its key concepts when it got an id. */
  function MainContentSpec(st: DbState, dayContentId: string, mc: Option<MainContent>): (DbState, bool)
  {
    if mc.None? then (st, true)
    else
      var (s1, id) := Step(st, MainContentRow(dayContentId, mc.value.title, mc.value.textContent, mc.value.funFact, mc.value.xp));
      if id.None? then (s1, false) else (InsertAll(s1, KeyConceptRows(id.value, mc.value.keyConcepts)), true)
  }

  /** Step 2: the action task item; only its own id matters. */
  function ActionTaskSpec(st: DbState, dayContentId: string, at: Nullable<ActionTask>): (DbState, bool)
  {
    if !at.Present? then (st, true)
    else
      var t := at.value;
      var (s1, id) := Step(st, ActionTaskRow(dayContentId, t.title, t.challengeDescription, t.timeEstimate, t.tips,
                                             t.realWorldContext, t.successCriteria, t.skiMotivation,
                                             t.difficultyAdaptation, t.xp));
      (s1, id.Some?)
  }

  /** `exercise.type.toUpperCase()` */
  function BlockType(e: Exercise): string
  {
    Upper(e.Kind())
  }

  function Question(e: Exercise): string
  {
    match e
    case QuizMcq(q, _, _, _, _) => q
    case ScenarioQuiz(_, q, _, _, _, _) => q
    case _ => ""
  }

  function Statement(e: Exercise): string
  {
    if e.TrueFalse? then e.statement else ""
  }

  /** The quiz-details description: the question, else the statement, else 'Quiz' (empty text is falsy). */
  function QuizDescription(e: Exercise): (r: string)
    ensures |r| >= 1
  {
    if Question(e) != "" then Question(e) else if Statement(e) != "" then Statement(e) else "Quiz"
  }

  /** The content block title: the question, else the statement, else 'Ejercicio Interactivo'. */
  function BlockTitle(e: Exercise): (r: string)
    ensures |r| >= 1
    ensures e.MatchMeaning? ==> r == "Ejercicio Interactivo"
    ensures e.TrueFalse? && e.statement != "" ==> r == e.statement
    ensures (e.QuizMcq? || e.ScenarioQuiz?) && e.question != "" ==> r == e.question
  {
    if Question(e) != "" then Question(e) else if Statement(e) != "" then Statement(e) else "Ejercicio Interactivo"
  }

  /**
   * The detail entities created before the block: quiz details for a QUIZ* type, exercise
   * details (and one pair per term when they got an id) for MATCH_MEANING, nothing otherwise
   * (BlockTypeLiterals ties the variants to those type names). Returns the new state and the
   * two detail ids.
   */
  function DetailsSpec(st: DbState, e: Exercise): (DbState, Option<nat>, Option<nat>)
  {
    match e
    case QuizMcq(_, _, _, _, _) =>
      var (s1, quizId) := Step(st, QuizDetailsRow(QuizDescription(e)));
      (s1, quizId, None)
    case TrueFalse(_, _, _, _) =>
      var (s1, quizId) := Step(st, QuizDetailsRow(QuizDescription(e)));
      (s1, quizId, None)
    case MatchMeaning(pairs, _) =>
      var (s1, exId) := Step(st, ExerciseDetailsRow("Une los conceptos", "MATCHING"));
      if exId.Some? then (InsertAll(s1, MatchPairRows(exId.value, pairs)), None, exId) else (s1, None, exId)
    case ScenarioQuiz(_, _, _, _, _, _) => (st, None, None)
  }

  function BlockRow(dayContentId: string, e: Exercise, index: nat, quizId: Option<nat>, exId: Option<nat>): Insert
  {
    ContentBlockRow(dayContentId, BlockType(e), BlockTitle(e), e.xp, index + 1, quizId, exId)
  }

  /** Exercise `index`: its details, then its content block, whose id alone is reported. */
  function ExerciseSpec(st: DbState, dayContentId: string, e: Exercise, index: nat): (DbState, bool)
  {
    var (s1, quizId, exId) := DetailsSpec(st, e);
    var (s2, blockId) := Step(s1, BlockRow(dayContentId, e, index, quizId, exId));
    (s2, blockId.Some?)
  }

  /** Step 3: exercises `index` onwards. */
  function ExercisesSpec(st: DbState, dayContentId: string, exercises: seq<Exercise>, index: nat): (DbState, bool)
    requires index <= |exercises|
    decreases |exercises| - index
  {
    if index == |exercises| then (st, true)
    else
      var (s1, ok1) := ExerciseSpec(st, dayContentId, exercises[index], index);
      var (s2, ok2) := ExercisesSpec(s1, dayContentId, exercises, index + 1);
      (s2, ok1 && ok2)
  }

  function ExercisesOf(content: DayContent): seq<Exercise>
  {
    if content.exercises.Present? then content.exercises.value else []
  }

  /** `saveDailyContentDetailsInDB`: the final state and `allOperationsSucceeded`. */
  function SaveDailySpec(st: DbState, dayContentId: string, content: DayContent): (DbState, bool)
  {
    var (s1, ok1) := MainContentSpec(st, dayContentId, content.mainContent);
    var (s2, ok2) := ActionTaskSpec(s1, dayContentId, content.actionTask);
    var (s3, ok3) := ExercisesSpec(s2, dayContentId, ExercisesOf(content), 0);
    (s3, ok1 && ok2 && ok3)
  }

  // ---- Properties of saving a day ----

  lemma MainContentOk(st: DbState, dayContentId: string, mc: Option<MainContent>)
    ensures Grows(st, MainContentSpec(st, dayContentId, mc).0)
    ensures var (s, ok) := MainContentSpec(st, dayContentId, mc); ok <==> CriticalOk(s.log, |st.log|, |s.log|)
  {
    if mc.Some? {
      var (s1, id) := Step(st, MainContentRow(dayContentId, mc.value.title, mc.value.textContent, mc.value.funFact, mc.value.xp));
      assert Grows(st, s1);
      if id.Some? {
        var rows := KeyConceptRows(id.value, mc.value.keyConcepts);
        NonCriticalInsertAll(s1, rows);
        GrowsTrans(st, s1, InsertAll(s1, rows));
        CriticalOkSplit(st, s1, InsertAll(s1, rows));
      } else {
        assert !CriticalOk(s1.log, |st.log|, |s1.log|) by { assert Critical(s1.log[|st.log|].row); }
      }
    }
  }

  lemma DetailsNonCritical(st: DbState, e: Exercise)
    ensures Grows(st, DetailsSpec(st, e).0)
    ensures CriticalOk(DetailsSpec(st, e).0.log, |st.log|, |DetailsSpec(st, e).0.log|)
  {
    if !e.MatchMeaning? {
      CriticalOkMeans(DetailsSpec(st, e).0.log, |st.log|, |DetailsSpec(st, e).0.log|);
    } else {
      var (s1, exId) := Step(st, ExerciseDetailsRow("Une los conceptos", "MATCHING"));
      CriticalOkMeans(s1.log, |st.log|, |s1.log|);
      if exId.Some? {
        var rows := MatchPairRows(exId.value, e.pairs);
        NonCriticalInsertAll(s1, rows);
        GrowsTrans(st, s1, InsertAll(s1, rows));
        CriticalOkSplit(st, s1, InsertAll(s1, rows));
      }
    }
  }

  lemma ExerciseOk(st: DbState, dayContentId: string, e: Exercise, index: nat)
    ensures Grows(st, ExerciseSpec(st, dayContentId, e, index).0)
    ensures ExerciseSpec(st, dayContentId, e, index).1
            <==> CriticalOk(ExerciseSpec(st, dayContentId, e, index).0.log, |st.log|,
                            |ExerciseSpec(st, dayContentId, e, index).0.log|)
  {
    var (s1, quizId, exId) := DetailsSpec(st, e);
    DetailsNonCritical(st, e);
    var (s2, blockId) := Step(s1, BlockRow(dayContentId, e, index, quizId, exId));
    assert Grows(s1, s2);
    GrowsTrans(st, s1, s2);
    CriticalOkSplit(st, s1, s2);
    assert Critical(s2.log[|s1.log|].row);
  }

  lemma {:induction false} ExercisesOk(st: DbState, dayContentId: string, exercises: seq<Exercise>, index: nat)
    requires index <= |exercises|
    ensures Grows(st, ExercisesSpec(st, dayContentId, exercises, index).0)
    ensures ExercisesSpec(st, dayContentId, exercises, index).1
            <==> CriticalOk(ExercisesSpec(st, dayContentId, exercises, index).0.log, |st.log|,
                            |ExercisesSpec(st, dayContentId, exercises, index).0.log|)
    decreases |exercises| - index
  {
    if index < |exercises| {
      var first := ExerciseSpec(st, dayContentId, exercises[index], index);
      ExerciseOk(st, dayContentId, exercises[index], index);
      ExercisesOk(first.0, dayContentId, exercises, index + 1);
      var rest := ExercisesSpec(first.0, dayContentId, exercises, index + 1);
      assert ExercisesSpec(st, dayContentId, exercises, index) == (rest.0, first.1 && rest.1);
      Compose(st, first.0, rest.0, first.1, rest.1);
    } else {
      assert st.log[..|st.log|] == st.log;
    }
  }

  /**
   * The result is true exactly when the main content, the action task and every content
   * block that were attempted got an id; detail, concept and pair inserts never matter.
   */
  lemma SaveDailyOkIffCriticalInsertsSucceeded(st: DbState, dayContentId: string, content: DayContent)
    ensures Grows(st, SaveDailySpec(st, dayContentId, content).0)
    ensures var (s, ok) := SaveDailySpec(st, dayContentId, content);
            ok <==> forall k :: |st.log| <= k < |s.log| && Critical(s.log[k].row) ==> s.log[k].ok
  {
    var (s1, ok1) := MainContentSpec(st, dayContentId, content.mainContent);
    MainContentOk(st, dayContentId, content.mainContent);
    var (s2, ok2) := ActionTaskSpec(s1, dayContentId, content.actionTask);
    assert Grows(s1, s2);
    assert ok2 <==> CriticalOk(s2.log, |s1.log|, |s2.log|) by {
      if content.actionTask.Present? { assert Critical(s2.log[|s1.log|].row); }
    }
    var (s3, ok3) := ExercisesSpec(s2, dayContentId, ExercisesOf(content), 0);
    ExercisesOk(s2, dayContentId, ExercisesOf(content), 0);
    Compose(st, s1, s2, ok1, ok2);
    Compose(st, s2, s3, ok1 && ok2, ok3);
    CriticalOkMeans(s3.log, |st.log|, |s3.log|);
  }

  /** Exercise `index` ends with its content block: order index + 1, the upper-cased type, the fallback title. */
  lemma ExerciseBlockShape(st: DbState, dayContentId: string, e: Exercise, index: nat)
    ensures var s := ExerciseSpec(st, dayContentId, e, index).0;
            |s.log| > |st.log|
            && var row := s.log[|s.log| - 1].row;
            row.ContentBlockRow? && row.order == index + 1 && row.blockType == Upper(e.Kind())
            && row.title == BlockTitle(e) && row.xp == e.xp && row.dayContentId == dayContentId
  {
    DetailsNonCritical(st, e);
  }

  /** The upper-cased type of each variant. */
  lemma BlockTypeLiterals(e: Exercise)
    ensures e.QuizMcq? ==> BlockType(e) == "QUIZ_MCQ"
    ensures e.TrueFalse? ==> BlockType(e) == "QUIZ_TRUEFALSE"
    ensures e.MatchMeaning? ==> BlockType(e) == "MATCH_MEANING"
    ensures e.ScenarioQuiz? ==> BlockType(e) == "SCENARIO_QUIZ"
  {
    var t := BlockType(e);
    match e
    case QuizMcq(_, _, _, _, _) =>
      assert t == "QUIZ_MCQ";
    case TrueFalse(_, _, _, _) =>
      assert t == "QUIZ_TRUEFALSE";
    case MatchMeaning(_, _) =>
      assert t == "MATCH_MEANING";
    case ScenarioQuiz(_, _, _, _, _, _) =>
      assert t == "SCENARIO_QUIZ";
  }

  /** Exactly the two quiz variants have a block type starting with QUIZ (SCENARIO_QUIZ does not). */
  lemma QuizPrefix(e: Exercise)
    ensures "QUIZ" <= BlockType(e) <==> e.QuizMcq? || e.TrueFalse?
    ensures BlockType(e) == "MATCH_MEANING" <==> e.MatchMeaning?
  {
    BlockTypeLiterals(e);
    var t := BlockType(e);
    if e.MatchMeaning? {
      assert t[0] == 'M';
    } else if e.ScenarioQuiz? {
      assert t[0] == 'S';
    }
  }

  /** QUIZ_* types get quiz details, MATCH_MEANING gets exercise details and its pairs, SCENARIO_QUIZ neither. */
  lemma DetailsByType(st: DbState, e: Exercise)
    ensures (e.QuizMcq? || e.TrueFalse?) ==>
            var d := DetailsSpec(st, e);
            |d.0.log| == |st.log| + 1 && d.0.log[|st.log|].row == QuizDetailsRow(QuizDescription(e)) && d.2.None?
    ensures e.MatchMeaning? ==>
            var d := DetailsSpec(st, e);
            |d.0.log| == |st.log| + 1 + (if d.2.Some? then |e.pairs| else 0)
            && d.0.log[|st.log|].row == ExerciseDetailsRow("Une los conceptos", "MATCHING") && d.1.None?
    ensures e.ScenarioQuiz? ==> DetailsSpec(st, e) == (st, None, None)
  {
    BlockTypeLiterals(e);
    if e.MatchMeaning? {
      var (s1, exId) := Step(st, ExerciseDetailsRow("Une los conceptos", "MATCHING"));
      if exId.Some? {
        InsertAllFacts(s1, MatchPairRows(exId.value, e.pairs));
        var fin := InsertAll(s1, MatchPairRows(exId.value, e.pairs));
        assert fin.log[|st.log|] == fin.log[..|s1.log|][|st.log|];
      }
    }
  }

  // ---- createFullLearningPlanInDB, as a specification ----

  function ComponentRows(skillAnalysisId: nat, components: seq<SkillComponent>): (r: seq<Insert>)
    ensures |r| == |components|
  {
    seq(|components|, k requires 0 <= k < |components| => SkillComponentRow(skillAnalysisId, components[k]))
  }

  function ObjectiveRows(pedagogicalAnalysisId: nat, objectives: seq<LearningObjective>): (r: seq<Insert>)
    ensures |r| == |objectives|
  {
    seq(|objectives|, k requires 0 <= k < |objectives| =>
      LearningObjectiveRow(pedagogicalAnalysisId, objectives[k].objective, objectives[k].measurable,
                           objectives[k].timeframe, objectives[k].order))
  }

  /** A day row: the planner's day without its `order`. */
  function DayRow(sectionId: nat, d: LearningDay): Insert
  {
    PlanDayRow(sectionId, d.dayNumber, d.title, d.focusArea, d.isActionDay, d.objectives, d.completionStatus)
  }

  function DayRows(sectionId: nat, days: seq<LearningDay>): (r: seq<Insert>)
    ensures |r| == |days|
  {
    seq(|days|, k requires 0 <= k < |days| => DayRow(sectionId, days[k]))
  }

  /** The skill analysis row: `skillName` and `components` dropped, plan id and 'LLM_SERVICE' added. */
  function AnalysisRow(learningPlanId: nat, sa: SkillAnalysis): Insert
  {
    SkillAnalysisRow(learningPlanId, sa.skillCategory, sa.marketDemand, sa.isSkillValid,
                     sa.learningPathRecommendation, "LLM_SERVICE")
  }

  /** Step 2: the skill analysis, then one component row per component when it got an id. */
  function SkillAnalysisSpec(st: DbState, learningPlanId: nat, sa: SkillAnalysis): DbState
  {
    var (s1, id) := Step(st, AnalysisRow(learningPlanId, sa));
    if id.Some? then InsertAll(s1, ComponentRows(id.value, sa.components)) else s1
  }

  /** Step 3: the pedagogical analysis when present, then its objectives when it got an id. */
  function PedagogicalSpec(st: DbState, learningPlanId: nat, pa: Option<PedagogicalAnalysis>): DbState
  {
    if pa.None? then st
    else
      var (s1, id) := Step(st, PedagogicalAnalysisRow(learningPlanId, pa.value.cognitiveLoadAssessment,
                                                      pa.value.scaffoldingQuality, "LLM_SERVICE"));
      if id.Some? then InsertAll(s1, ObjectiveRows(id.value, pa.value.objectives)) else s1
  }

  /** One section, then its days when the section got an id. */
  function SectionSpec(st: DbState, learningPlanId: nat, section: PlanSection): DbState
  {
    var (s1, id) := Step(st, PlanSectionRow(learningPlanId, section.title, section.description, section.order));
    if id.Some? then InsertAll(s1, DayRows(id.value, section.days)) else s1
  }

  /** Step 4: the sections in order. */
  function SectionsSpec(st: DbState, learningPlanId: nat, sections: seq<PlanSection>): DbState
    decreases |sections|
  {
    if |sections| == 0 then st else SectionsSpec(SectionSpec(st, learningPlanId, sections[0]), learningPlanId, sections[1..])
  }

  function PlanBase(userUid: string, plan: LearningPlan): Insert
  {
    PlanBaseRow(userUid, plan.skillName, plan.generatedBy, plan.totalDurationWeeks, plan.dailyTimeMinutes,
                if plan.flexibilityOptions.Present? then plan.flexibilityOptions.value else [])
  }

  /** `createFullLearningPlanInDB`: the final state and the created plan, None when the base insert got no id. */
  function CreatePlanSpec(st: DbState, userUid: string, plan: LearningPlan, sa: SkillAnalysis,
                          pa: Option<PedagogicalAnalysis>): (DbState, Option<CreatedPlan>)
  {
    var (s1, planId) := Step(st, PlanBase(userUid, plan));
    if planId.None? then (s1, None)
    else
      var s2 := SkillAnalysisSpec(s1, planId.value, sa);
      var s3 := PedagogicalSpec(s2, planId.value, pa);
      (SectionsSpec(s3, planId.value, plan.sections), Some(CreatedPlan(planId.value, plan.skillName)))
  }

  // ---- Properties of creating a plan ----

  /** Without a plan id the result is None and the base insert is the only one attempted. */
  lemma PlanBaseFailureStops(st: DbState, userUid: string, plan: LearningPlan, sa: SkillAnalysis,
                             pa: Option<PedagogicalAnalysis>)
    ensures var (s, r) := CreatePlanSpec(st, userUid, plan, sa, pa);
            (r.None? <==> !(|st.script| > 0 && st.script[0]))
            && (r.None? ==> s.log == st.log + [Attempt(PlanBase(userUid, plan), false)])
            && (r.Some? ==> r.value.id == |st.log| && r.value.skillName == plan.skillName && Grows(st, s))
  {
    var (s, r) := CreatePlanSpec(st, userUid, plan, sa, pa);
    if r.Some? {
      var (s1, planId) := Step(st, PlanBase(userUid, plan));
      var s2 := SkillAnalysisSpec(s1, planId.value, sa);
      var s3 := PedagogicalSpec(s2, planId.value, pa);
      SkillAnalysisGrows(s1, planId.value, sa);
      PedagogicalGrows(s2, planId.value, pa);
      SectionsGrow(s3, planId.value, plan.sections);
      assert Grows(st, s1);
      GrowsTrans(st, s1, s2);
      GrowsTrans(st, s2, s3);
      GrowsTrans(st, s3, s);
    }
  }

  /**
   * The analysis row goes in first; one component row per component follows exactly
   * when the analysis got an id, carrying that id.
   */
  lemma SkillAnalysisInserts(st: DbState, learningPlanId: nat, sa: SkillAnalysis)
    ensures var s := SkillAnalysisSpec(st, learningPlanId, sa);
            var got := |st.script| > 0 && st.script[0];
            |s.log| == |st.log| + 1 + (if got then |sa.components| else 0)
            && s.log[|st.log|] == Attempt(AnalysisRow(learningPlanId, sa), got)
            && (got ==> forall k :: 0 <= k < |sa.components| ==>
                          s.log[|st.log| + 1 + k].row == SkillComponentRow(|st.log|, sa.components[k]))
  {
    var (s1, id) := Step(st, AnalysisRow(learningPlanId, sa));
    if id.Some? {
      var rows := ComponentRows(id.value, sa.components);
      InsertAllFacts(s1, rows);
      var fin := InsertAll(s1, rows);
      assert fin.log[|st.log|] == fin.log[..|s1.log|][|st.log|];
      forall k | 0 <= k < |sa.components|
        ensures fin.log[|st.log| + 1 + k].row == SkillComponentRow(|st.log|, sa.components[k])
      {
        assert fin.log[|s1.log| + k].row == rows[k];
      }
    }
  }

  lemma SkillAnalysisGrows(st: DbState, learningPlanId: nat, sa: SkillAnalysis)
    ensures Grows(st, SkillAnalysisSpec(st, learningPlanId, sa))
  {
    var (s1, id) := Step(st, AnalysisRow(learningPlanId, sa));
    assert Grows(st, s1);
    if id.Some? {
      InsertAllFacts(s1, ComponentRows(id.value, sa.components));
      GrowsTrans(st, s1, InsertAll(s1, ComponentRows(id.value, sa.components)));
    }
  }

  /** No pedagogical analysis: nothing is inserted; otherwise its objectives follow only when it got an id. */
  lemma PedagogicalInserts(st: DbState, learningPlanId: nat, pa: Option<PedagogicalAnalysis>)
    ensures pa.None? ==> PedagogicalSpec(st, learningPlanId, pa) == st
    ensures pa.Some? ==> var s := PedagogicalSpec(st, learningPlanId, pa);
            var got := |st.script| > 0 && st.script[0];
            |s.log| == |st.log| + 1 + (if got then |pa.value.objectives| else 0)
            && s.log[|st.log|].row.PedagogicalAnalysisRow? && s.log[|st.log|].row.generatedBy == "LLM_SERVICE"
  {
    if pa.Some? {
      var (s1, id) := Step(st, PedagogicalAnalysisRow(learningPlanId, pa.value.cognitiveLoadAssessment,
                                                      pa.value.scaffoldingQuality, "LLM_SERVICE"));
      if id.Some? {
        var rows := ObjectiveRows(id.value, pa.value.objectives);
        InsertAllFacts(s1, rows);
        var fin := InsertAll(s1, rows);
        assert fin.log[|st.log|] == fin.log[..|s1.log|][|st.log|];
      }
    }
  }

  lemma PedagogicalGrows(st: DbState, learningPlanId: nat, pa: Option<PedagogicalAnalysis>)
    ensures Grows(st, PedagogicalSpec(st, learningPlanId, pa))
  {
    if pa.Some? {
      var (s1, id) := Step(st, PedagogicalAnalysisRow(learningPlanId, pa.value.cognitiveLoadAssessment,
                                                      pa.value.scaffoldingQuality, "LLM_SERVICE"));
      assert Grows(st, s1);
      if id.Some? {
        InsertAllFacts(s1, ObjectiveRows(id.value, pa.value.objectives));
        GrowsTrans(st, s1, InsertAll(s1, ObjectiveRows(id.value, pa.value.objectives)));
      }
    }
  }

  /** A section's days are inserted, carrying the section's id, exactly when the section got one. */
  lemma SectionInserts(st: DbState, learningPlanId: nat, section: PlanSection)
    ensures var s := SectionSpec(st, learningPlanId, section);
            var got := |st.script| > 0 && st.script[0];
            |s.log| == |st.log| + 1 + (if got then |section.days| else 0)
            && s.log[|st.log|].row.PlanSectionRow?
            && (got ==> forall k :: 0 <= k < |section.days| ==>
                          s.log[|st.log| + 1 + k].row == DayRow(|st.log|, section.days[k]))
    ensures Grows(st, SectionSpec(st, learningPlanId, section))
  {
    var (s1, id) := Step(st, PlanSectionRow(learningPlanId, section.title, section.description, section.order));
    assert Grows(st, s1);
    if id.Some? {
      var rows := DayRows(id.value, section.days);
      InsertAllFacts(s1, rows);
      var fin := InsertAll(s1, rows);
      assert fin.log[|st.log|] == fin.log[..|s1.log|][|st.log|];
      forall k | 0 <= k < |section.days|
        ensures fin.log[|st.log| + 1 + k].row == DayRow(|st.log|, section.days[k])
      {
        assert fin.log[|s1.log| + k].row == rows[k];
      }
      GrowsTrans(st, s1, fin);
    }
  }

  lemma {:induction false} SectionsGrow(st: DbState, learningPlanId: nat, sections: seq<PlanSection>)
    ensures Grows(st, SectionsSpec(st, learningPlanId, sections))
    decreases |sections|
  {
    if |sections| > 0 {
      var s1 := SectionSpec(st, learningPlanId, sections[0]);
      SectionInserts(st, learningPlanId, sections[0]);
      SectionsGrow(s1, learningPlanId, sections[1..]);
      GrowsTrans(st, s1, SectionsSpec(s1, learningPlanId, sections[1..]));
    }
  }

  // ---- The database and the two operations ----

  /** The Data Connect database as seen by the create mutations. */
  class Db {
    var log: seq<Attempt>
    var script: seq<bool>

    constructor(script: seq<bool>)
      ensures log == [] && this.script == script
    {
      log := [];
      this.script := script;
    }

    function State(): DbState
      reads this
    {
      DbState(log, script)
    }

    /** One create mutation; its id when the database returned one. */
    method Insert(row: Insert) returns (id: Option<nat>)
      modifies this
      ensures (State(), id) == Step(old(State()), row)
    {
      var ok := |script| > 0 && script[0];
      id := if ok then Some(|log|) else None;
      log := log + [Attempt(row, ok)];
      script := if |script| > 0 then script[1..] else [];
    }

    /** A `for ... of` loop awaiting one create mutation per row and ignoring the results. */
    method InsertEach(rows: seq<Insert>)
      modifies this
      ensures State() == InsertAll(old(State()), rows)
    {
      var i := 0;
      while i < |rows|
        invariant 0 <= i <= |rows|
        invariant InsertAll(old(State()), rows) == InsertAll(State(), rows[i..])
      {
        assert rows[i..][1..] == rows[i + 1..];
        var _ := Insert(rows[i]);
        i := i + 1;
      }
    }

    /** Step 1 of saving a day: the main content item and, when it got an id, its key concepts. */
    method SaveMainContent(dayContentId: string, mainContent: Option<MainContent>) returns (ok: bool)
      modifies this
      ensures (State(), ok) == MainContentSpec(old(State()), dayContentId, mainContent)
    {
      ok := true;
      if mainContent.Some? {
        var mc := mainContent.value;
        var mainContentItemId := Insert(MainContentRow(dayContentId, mc.title, mc.textContent, mc.funFact, mc.xp));
        if mainContentItemId.Some? {
          InsertEach(KeyConceptRows(mainContentItemId.value, mc.keyConcepts));
        } else {
          ok := false;
        }
      }
    }

    /** Step 2 of saving a day: the action task item. */
    method SaveActionTask(dayContentId: string, actionTask: Nullable<ActionTask>) returns (ok: bool)
      modifies this
      ensures (State(), ok) == ActionTaskSpec(old(State()), dayContentId, actionTask)
    {
      ok := true;
      if actionTask.Present? {
        var t := actionTask.value;
        var actionTaskId := Insert(ActionTaskRow(dayContentId, t.title, t.challengeDescription, t.timeEstimate, t.tips,
                                                 t.realWorldContext, t.successCriteria, t.skiMotivation,
                                                 t.difficultyAdaptation, t.xp));
        ok := actionTaskId.Some?;
      }
    }

    /** One turn of the exercise loop: the detail entities, then the content block; true iff the block got an id. */
    method SaveExercise(dayContentId: string, exercise: Exercise, index: nat) returns (ok: bool)
      modifies this
      ensures (State(), ok) == ExerciseSpec(old(State()), dayContentId, exercise, index)
    {
      var blockType := BlockType(exercise);
      QuizPrefix(exercise);
      var quizDetailsId: Option<nat> := None;
      var exerciseDetailsId: Option<nat> := None;
      if "QUIZ" <= blockType {
        quizDetailsId := Insert(QuizDetailsRow(QuizDescription(exercise)));
      } else if blockType == "MATCH_MEANING" {
        exerciseDetailsId := Insert(ExerciseDetailsRow("Une los conceptos", "MATCHING"));
        if exerciseDetailsId.Some? && exercise.MatchMeaning? {
          InsertEach(MatchPairRows(exerciseDetailsId.value, exercise.pairs));
        }
      }
      var blockId := Insert(BlockRow(dayContentId, exercise, index, quizDetailsId, exerciseDetailsId));
      ok := blockId.Some?;
    }

    /** `saveDailyContentDetailsInDB` */
    method SaveDailyContentDetails(dayContentId: string, content: DayContent) returns (allOperationsSucceeded: bool)
      modifies this
      ensures (State(), allOperationsSucceeded) == SaveDailySpec(old(State()), dayContentId, content)
    {
      var mainOk := SaveMainContent(dayContentId, content.mainContent);
      var actionOk := SaveActionTask(dayContentId, content.actionTask);
      allOperationsSucceeded := mainOk && actionOk;
      var exercises := ExercisesOf(content);
      var index := 0;
      while index < |exercises|
        invariant 0 <= index <= |exercises|
        invariant SaveDailySpec(old(State()), dayContentId, content)
                  == (ExercisesSpec(State(), dayContentId, exercises, index).0,
                      allOperationsSucceeded && ExercisesSpec(State(), dayContentId, exercises, index).1)
        decreases |exercises| - index
      {
        var ok := SaveExercise(dayContentId, exercises[index], index);
        if !ok {
          allOperationsSucceeded := false;
        }
        index := index + 1;
      }
    }

    /** `createFullLearningPlanInDB` */
    method CreateFullLearningPlan(userUid: string, plan: LearningPlan, sa: SkillAnalysis, pa: Option<PedagogicalAnalysis>)
      returns (r: Option<CreatedPlan>)
      modifies this
      ensures (State(), r) == CreatePlanSpec(old(State()), userUid, plan, sa, pa)
    {
      var learningPlanId := Insert(PlanBase(userUid, plan));
      if learningPlanId.None? {
        return None;
      }
      var planId := learningPlanId.value;
      var skillAnalysisId := Insert(AnalysisRow(planId, sa));
      if skillAnalysisId.Some? {
        InsertEach(ComponentRows(skillAnalysisId.value, sa.components));
      }
      if pa.Some? {
        var paId := Insert(PedagogicalAnalysisRow(planId, pa.value.cognitiveLoadAssessment,
                                                  pa.value.scaffoldingQuality, "LLM_SERVICE"));
        if paId.Some? {
          InsertEach(ObjectiveRows(paId.value, pa.value.objectives));
        }
      }
      var sections := plan.sections;
      var i := 0;
      ghost var beforeSections := State();
      while i < |sections|
        invariant 0 <= i <= |sections|
        invariant SectionsSpec(beforeSections, planId, sections) == SectionsSpec(State(), planId, sections[i..])
      {
        assert sections[i..][1..] == sections[i + 1..];
        var section := sections[i];
        var sectionId := Insert(PlanSectionRow(planId, section.title, section.description, section.order));
        if sectionId.Some? {
          InsertEach(DayRows(sectionId.value, section.days));
        }
        i := i + 1;
      }
      r := Some(CreatedPlan(planId, plan.skillName));
    }
  }
}
