// The bridge adapter that reshapes agent output into Data Connect records:
// the day's blocks in group order with running `order` values, the learning
// plan with its defaults, and the case-insensitive enum lookups.
module Adapter {
  import opened Wrappers
  import opened Text

  // ---- JavaScript `||` defaults ----

  /** `s || d` for an optional string: missing or empty gives the default. */
  function OrText(s: Option<string>, d: string): (r: string)
    ensures s.Some? && s.value != "" ==> r == s.value
    ensures s.None? || s.value == "" ==> r == d
  {
    if s.Some? && s.value != "" then s.value else d
  }

  /** `n || d` for an optional number: missing or zero gives the default. */
  function OrInt(n: Option<int>, d: int): (r: int)
    ensures n.Some? && n.value != 0 ==> r == n.value
    ensures n.None? || n.value == 0 ==> r == d
  {
    if n.Some? && n.value != 0 then n.value else d
  }

  /** `Math.ceil(seconds / 60)` */
  function CeilMinutes(seconds: int): (r: int)
    ensures 60 * (r - 1) < seconds <= 60 * r
  {
    -((-seconds) / 60)
  }

  /** `x.field || x`: the field when it is a non-empty string, otherwise the whole input item. */
  datatype FieldOrSelf<T> = Field(text: string) | Self(item: T)

  // ---- transformDayContent ----

  datatype AudioIn = AudioIn(title: Option<string>, xp: Option<int>, duration: Option<int>, audioUrl: Option<string>,
                             transcript: Option<string>, voice: Option<string>)
  datatype ConceptIn = PlainConcept(text: string) | ConceptRecord(term: Option<string>, definition: Option<string>)
  datatype ReadIn = ReadIn(title: Option<string>, xp: Option<int>, content: Option<string>, estimatedTime: Option<int>,
                           keyConcepts: Option<seq<ConceptIn>>)
  datatype QuestionIn = QuestionIn(question: string, correctAnswer: string, explanation: Option<string>, options: seq<string>)
  datatype QuizIn = QuizIn(title: Option<string>, xp: Option<int>, estimatedTime: Option<int>, questions: seq<QuestionIn>)
  datatype DeliverableIn = PlainDeliverable(text: string)
                         | DeliverableRecord(description: Option<string>, kind: Option<string>)
  datatype ActionIn = ActionIn(title: Option<string>, xp: Option<int>, estimatedTime: Option<int>, kind: Option<string>,
                               description: Option<string>, instructions: Option<string>, steps: Option<seq<string>>,
                               deliverables: Option<seq<DeliverableIn>>)
  datatype DayIn = DayIn(objectives: Option<seq<string>>, audioBlocks: Option<seq<AudioIn>>, readBlocks: Option<seq<ReadIn>>,
                         quizBlocks: Option<seq<QuizIn>>, actionTasks: Option<seq<ActionIn>>)

  datatype BlockKind = Audio | Read | Quiz | Action
  {
    function Name(): string
    {
      match this
      case Audio => "AUDIO"
      case Read => "READ"
      case Quiz => "QUIZ_MCQ"
      case Action => "ACTION_TASK"
    }

    /** Position of the group in the output. */
    function Rank(): nat
    {
      match this
      case Audio => 0
      case Read => 1
      case Quiz => 2
      case Action => 3
    }
  }

  datatype ConceptOut = ConceptOut(concept: FieldOrSelf<ConceptIn>, definition: string, order: nat)
  datatype OptionOut = OptionOut(optionText: string, isCorrect: bool, order: nat)
  datatype QuestionOut = QuestionOut(question: string, correctAnswer: string, explanation: string, order: nat,
                                     options: seq<OptionOut>)
  datatype StepOut = StepOut(instruction: string, order: nat)
  datatype DeliverableOut = DeliverableOut(description: FieldOrSelf<DeliverableIn>, kind: string, order: nat)

  datatype BlockContent =
    | AudioContent(audioUrl: string, transcript: string, duration: int, voiceType: string)
    | ReadContent(content: Option<string>, estimatedReadTime: int, keyConcepts: seq<ConceptOut>)
    | QuizContent(questions: seq<QuestionOut>)
    | ActionContent(taskType: string, description: Option<string>, instructions: string, estimatedTime: int,
                    steps: seq<StepOut>, deliverables: seq<DeliverableOut>)

  datatype BlockOut = BlockOut(kind: BlockKind, title: Option<string>, xp: int, order: nat, estimatedMinutes: int,
                               content: BlockContent)

  datatype DayOut = DayOut(objectives: seq<string>, blocks: seq<BlockOut>)

  function AudioBlock(a: AudioIn, order: nat): BlockOut
  {
    var duration := OrInt(a.duration, 180);
    BlockOut(Audio, a.title, OrInt(a.xp, 10), order, CeilMinutes(duration),
             AudioContent(OrText(a.audioUrl, ""), OrText(a.transcript, ""), duration, OrText(a.voice, "es-ES-Standard-A")))
  }

  function ConceptOf(c: ConceptIn, order: nat): ConceptOut
  {
    match c
    case PlainConcept(_) => ConceptOut(Self(c), "", order)
    case ConceptRecord(term, definition) =>
      ConceptOut(if term.Some? && term.value != "" then Field(term.value) else Self(c), OrText(definition, ""), order)
  }

  function ReadBlock(r: ReadIn, order: nat): BlockOut
  {
    var concepts := if r.keyConcepts.Some? then r.keyConcepts.value else [];
    var minutes := OrInt(r.estimatedTime, 5);
    BlockOut(Read, r.title, OrInt(r.xp, 15), order, minutes,
             ReadContent(r.content, minutes, seq(|concepts|, k requires 0 <= k < |concepts| => ConceptOf(concepts[k], k))))
  }

  /** The options of a question, each marked correct iff it equals the correct answer. */
  function OptionsOf(q: QuestionIn): (r: seq<OptionOut>)
    ensures |r| == |q.options|
    ensures forall k :: 0 <= k < |r| ==> r[k].optionText == q.options[k] && r[k].order == k
                                         && (r[k].isCorrect <==> q.options[k] == q.correctAnswer)
  {
    seq(|q.options|, k requires 0 <= k < |q.options| => OptionOut(q.options[k], q.options[k] == q.correctAnswer, k))
  }

  function QuestionOf(q: QuestionIn, order: nat): QuestionOut
  {
    QuestionOut(q.question, q.correctAnswer, OrText(q.explanation, ""), order, OptionsOf(q))
  }

  function QuizBlock(q: QuizIn, order: nat): BlockOut
  {
    BlockOut(Quiz, Some(OrText(q.title, "Quiz de comprensión")), OrInt(q.xp, 20), order, OrInt(q.estimatedTime, 3),
             QuizContent(seq(|q.questions|, k requires 0 <= k < |q.questions| => QuestionOf(q.questions[k], k))))
  }

  function DeliverableOf(d: DeliverableIn, order: nat): DeliverableOut
  {
    match d
    case PlainDeliverable(_) => DeliverableOut(Self(d), "document", order)
    case DeliverableRecord(description, kind) =>
      DeliverableOut(if description.Some? && description.value != "" then Field(description.value) else Self(d),
                     OrText(kind, "document"), order)
  }

  function ActionBlock(t: ActionIn, order: nat): BlockOut
  {
    var steps := if t.steps.Some? then t.steps.value else [];
    var deliverables := if t.deliverables.Some? then t.deliverables.value else [];
    var minutes := OrInt(t.estimatedTime, 30);
    BlockOut(Action, t.title, OrInt(t.xp, 50), order, minutes,
             ActionContent(OrText(t.kind, "practice"), t.description, OrText(t.instructions, ""), minutes,
                           seq(|steps|, k requires 0 <= k < |steps| => StepOut(steps[k], k)),
                           seq(|deliverables|, k requires 0 <= k < |deliverables| => DeliverableOf(deliverables[k], k))))
  }

  function AudiosOf(d: DayIn): seq<AudioIn> { if d.audioBlocks.Some? then d.audioBlocks.value else [] }
  function ReadsOf(d: DayIn): seq<ReadIn> { if d.readBlocks.Some? then d.readBlocks.value else [] }
  function QuizzesOf(d: DayIn): seq<QuizIn> { if d.quizBlocks.Some? then d.quizBlocks.value else [] }
  function ActionsOf(d: DayIn): seq<ActionIn> { if d.actionTasks.Some? then d.actionTasks.value else [] }

  function AudioPart(a: seq<AudioIn>, offset: nat): (r: seq<BlockOut>)
    ensures |r| == |a|
  {
    seq(|a|, i requires 0 <= i < |a| => AudioBlock(a[i], offset + i))
  }

  function ReadPart(r: seq<ReadIn>, offset: nat): (p: seq<BlockOut>)
    ensures |p| == |r|
  {
    seq(|r|, i requires 0 <= i < |r| => ReadBlock(r[i], offset + i))
  }

  function QuizPart(q: seq<QuizIn>, offset: nat): (p: seq<BlockOut>)
    ensures |p| == |q|
  {
    seq(|q|, i requires 0 <= i < |q| => QuizBlock(q[i], offset + i))
  }

  function ActionPart(t: seq<ActionIn>, offset: nat): (p: seq<BlockOut>)
    ensures |p| == |t|
  {
    seq(|t|, i requires 0 <= i < |t| => ActionBlock(t[i], offset + i))
  }

  /** The blocks `transformDayContent` emits, stated group by group: audio, read, quiz, action. */
  function DayBlocks(d: DayIn): seq<BlockOut>
  {
    var a, r, q := AudiosOf(d), ReadsOf(d), QuizzesOf(d);
    AudioPart(a, 0) + ReadPart(r, |a|) + QuizPart(q, |a| + |r|) + ActionPart(ActionsOf(d), |a| + |r| + |q|)
  }

  /** The audio `forEach`: `order: idx`, which is also the running length since the audio blocks come first. */
  method PushAudio(a: seq<AudioIn>) returns (out: seq<BlockOut>)
    ensures out == AudioPart(a, 0)
  {
    out := [];
    var idx := 0;
    while idx < |a|
      invariant 0 <= idx <= |a|
      invariant out == AudioPart(a[..idx], 0)
    {
      out := out + [AudioBlock(a[idx], idx)];
      idx := idx + 1;
      assert AudioPart(a[..idx], 0) == AudioPart(a[..idx - 1], 0) + [AudioBlock(a[idx - 1], idx - 1)];
    }
    assert a[..idx] == a;
  }

  /** The read `forEach`: `order: blocks.length`. */
  method PushReads(blocks: seq<BlockOut>, r: seq<ReadIn>) returns (out: seq<BlockOut>)
    ensures out == blocks + ReadPart(r, |blocks|)
  {
    out := blocks;
    var idx := 0;
    while idx < |r|
      invariant 0 <= idx <= |r|
      invariant out == blocks + ReadPart(r[..idx], |blocks|)
    {
      out := out + [ReadBlock(r[idx], |out|)];
      idx := idx + 1;
      assert ReadPart(r[..idx], |blocks|) == ReadPart(r[..idx - 1], |blocks|) + [ReadBlock(r[idx - 1], |blocks| + idx - 1)];
    }
    assert r[..idx] == r;
  }

  /** The quiz `forEach`: `order: blocks.length`. */
  method PushQuizzes(blocks: seq<BlockOut>, q: seq<QuizIn>) returns (out: seq<BlockOut>)
    ensures out == blocks + QuizPart(q, |blocks|)
  {
    out := blocks;
    var idx := 0;
    while idx < |q|
      invariant 0 <= idx <= |q|
      invariant out == blocks + QuizPart(q[..idx], |blocks|)
    {
      out := out + [QuizBlock(q[idx], |out|)];
      idx := idx + 1;
      assert QuizPart(q[..idx], |blocks|) == QuizPart(q[..idx - 1], |blocks|) + [QuizBlock(q[idx - 1], |blocks| + idx - 1)];
    }
    assert q[..idx] == q;
  }

  /** The action-task `forEach`: `order: blocks.length`. */
  method PushActions(blocks: seq<BlockOut>, t: seq<ActionIn>) returns (out: seq<BlockOut>)
    ensures out == blocks + ActionPart(t, |blocks|)
  {
    out := blocks;
    var idx := 0;
    while idx < |t|
      invariant 0 <= idx <= |t|
      invariant out == blocks + ActionPart(t[..idx], |blocks|)
    {
      out := out + [ActionBlock(t[idx], |out|)];
      idx := idx + 1;
      assert ActionPart(t[..idx], |blocks|) == ActionPart(t[..idx - 1], |blocks|) + [ActionBlock(t[idx - 1], |blocks| + idx - 1)];
    }
    assert t[..idx] == t;
  }

  /** `transformDayContent` */
  method TransformDayContent(d: DayIn) returns (out: DayOut)
    ensures out.blocks == DayBlocks(d)
    ensures out.objectives == (if d.objectives.Some? then d.objectives.value else [])
  {
    var blocks := PushAudio(AudiosOf(d));
    blocks := PushReads(blocks, ReadsOf(d));
    blocks := PushQuizzes(blocks, QuizzesOf(d));
    blocks := PushActions(blocks, ActionsOf(d));
    out := DayOut(if d.objectives.Some? then d.objectives.value else [], blocks);
  }

  /** Every block's `order` is its index in the output, and the groups come audio, read, quiz, action. */
  lemma DayBlocksOrdered(d: DayIn)
    ensures |DayBlocks(d)| == |AudiosOf(d)| + |ReadsOf(d)| + |QuizzesOf(d)| + |ActionsOf(d)|
    ensures forall i :: 0 <= i < |DayBlocks(d)| ==> DayBlocks(d)[i].order == i
    ensures forall i, j :: 0 <= i < j < |DayBlocks(d)| ==> DayBlocks(d)[i].kind.Rank() <= DayBlocks(d)[j].kind.Rank()
  {
    var b := DayBlocks(d);
    var a := |AudiosOf(d)|;
    var r := |ReadsOf(d)|;
    var q := |QuizzesOf(d)|;
    forall i | 0 <= i < |b|
      ensures b[i].order == i
      ensures b[i].kind.Rank() == (if i < a then 0 else if i < a + r then 1 else if i < a + r + q then 2 else 3)
    {
    }
  }

  /** Within each group the input order is kept: the k-th block of a group comes from the k-th input. */
  lemma DayBlocksKeepInputOrder(d: DayIn)
    ensures var a, r, q := AudiosOf(d), ReadsOf(d), QuizzesOf(d);
            (forall k :: 0 <= k < |a| ==> DayBlocks(d)[k] == AudioBlock(a[k], k))
            && (forall k :: 0 <= k < |r| ==> DayBlocks(d)[|a| + k] == ReadBlock(r[k], |a| + k))
            && (forall k :: 0 <= k < |q| ==> DayBlocks(d)[|a| + |r| + k] == QuizBlock(q[k], |a| + |r| + k))
            && (forall k :: 0 <= k < |ActionsOf(d)| ==>
                  DayBlocks(d)[|a| + |r| + |q| + k] == ActionBlock(ActionsOf(d)[k], |a| + |r| + |q| + k))
  {
    var a, r, q, t := AudiosOf(d), ReadsOf(d), QuizzesOf(d), ActionsOf(d);
    var front := AudioPart(a, 0) + ReadPart(r, |a|);
    var head := front + QuizPart(q, |a| + |r|);
    assert DayBlocks(d) == head + ActionPart(t, |a| + |r| + |q|);
    assert |front| == |a| + |r| && |head| == |a| + |r| + |q|;
  }

  /** An audio block lasts ceil(duration / 60) minutes, 180 seconds standing in for a missing or zero duration. */
  lemma AudioMinutes(a: AudioIn, order: nat)
    ensures a.duration.None? || a.duration == Some(0) ==> AudioBlock(a, order).estimatedMinutes == 3
    ensures a.duration.Some? && a.duration.value > 0 ==>
            var m := AudioBlock(a, order).estimatedMinutes;
            60 * (m - 1) < a.duration.value <= 60 * m
  {
  }

  /** The default xp of each group. */
  lemma DefaultBlockXp(a: AudioIn, r: ReadIn, q: QuizIn, t: ActionIn, order: nat)
    requires a.xp.None? && r.xp.None? && q.xp.None? && t.xp.None?
    ensures AudioBlock(a, order).xp == 10 && ReadBlock(r, order).xp == 15
    ensures QuizBlock(q, order).xp == 20 && ActionBlock(t, order).xp == 50
  {
  }

  /** Each quiz question has exactly one correct option iff its correct answer occurs once among the options. */
  lemma CorrectOptionsAreTheAnswer(q: QuestionIn)
    ensures forall k :: 0 <= k < |OptionsOf(q)| ==> (OptionsOf(q)[k].isCorrect <==> q.options[k] == q.correctAnswer)
    ensures q.correctAnswer !in q.options ==> forall k :: 0 <= k < |OptionsOf(q)| ==> !OptionsOf(q)[k].isCorrect
  {
  }

  // ---- Enum lookups ----

  /** What `mapping[key]` yields on a plain object literal: an own entry, or a member inherited from Object.prototype. */
  datatype Lookup = Own(value: string) | Inherited(member: string) | Absent

  /** The lower-case Object.prototype member names a lower-cased key can reach. */
  predicate PrototypeKey(key: string)
  {
    key == "constructor" || key == "__proto__"
  }

  function SkillCategoryEntry(key: string): Option<string>
  {
    if key == "technical" then Some("TECHNICAL")
    else if key == "creative" then Some("CREATIVE")
    else if key == "business" then Some("BUSINESS")
    else if key == "personal" then Some("PERSONAL_DEVELOPMENT")
    else if key == "language" then Some("LANGUAGE")
    else None
  }

  function MarketDemandEntry(key: string): Option<string>
  {
    if key == "high" || key == "alta" then Some("HIGH")
    else if key == "medium" || key == "media" then Some("MEDIUM")
    else if key == "low" || key == "baja" then Some("LOW")
    else None
  }

  function ChurnRiskEntry(key: string): Option<string>
  {
    if key == "low" || key == "bajo" then Some("LOW")
    else if key == "medium" || key == "medio" then Some("MEDIUM")
    else if key == "high" || key == "alto" then Some("HIGH")
    else None
  }

  /** `mapping[value?.toLowerCase()]` as JavaScript evaluates it on an object literal. */
  function JsLookup(entry: Option<string>, key: Option<string>): (r: Lookup)
    ensures entry.Some? ==> r == Own(entry.value)
    ensures entry.None? && key.Some? && PrototypeKey(key.value) ==> r.Inherited?
  {
    if entry.Some? then Own(entry.value)
    else if key.Some? && PrototypeKey(key.value) then Inherited(key.value)
    else Absent
  }

  function LowerKey(value: Option<string>): Option<string>
  {
    if value.Some? then Some(Lower(value.value)) else None
  }

  /** `mapSkillCategory` as written: `mapping[category?.toLowerCase()] || 'OTHER'`. */
  function MapSkillCategoryAsWritten(category: Option<string>): (r: Lookup)
    ensures category.Some? && PrototypeKey(Lower(category.value)) ==> r == Inherited(Lower(category.value))
    ensures r.Own? || r.Inherited?
  {
    var key := LowerKey(category);
    var found := JsLookup(if key.Some? then SkillCategoryEntry(key.value) else None, key);
    if found.Absent? then Own("OTHER") else found
  }

  /** "Constructor" reaches Object.prototype.constructor, a truthy function that is returned instead of 'OTHER'. */
  lemma SkillCategoryPrototypeLeak()
    ensures MapSkillCategoryAsWritten(Some("Constructor")).Inherited?
  {
    assert Lower("Constructor") == "constructor";
  }

  /** `mapSkillCategory` as intended: a case-insensitive lookup of own entries, 'OTHER' otherwise. */
  function MapSkillCategory(category: Option<string>): (r: string)
    ensures r in {"TECHNICAL", "CREATIVE", "BUSINESS", "PERSONAL_DEVELOPMENT", "LANGUAGE", "OTHER"}
    ensures category.Some? ==>
              var key := Lower(category.value);
              && (key == "technical" ==> r == "TECHNICAL")
              && (key == "creative" ==> r == "CREATIVE")
              && (key == "business" ==> r == "BUSINESS")
              && (key == "personal" ==> r == "PERSONAL_DEVELOPMENT")
              && (key == "language" ==> r == "LANGUAGE")
              && (key !in {"technical", "creative", "business", "personal", "language"} ==> r == "OTHER")
    ensures category.None? ==> r == "OTHER"
  {
    var key := LowerKey(category);
    var entry := if key.Some? then SkillCategoryEntry(key.value) else None;
    entry.GetOr("OTHER")
  }

  /** The intended lookup agrees with the code on every key except the prototype members. */
  lemma SkillCategoryAgreesOffPrototype(category: Option<string>)
    requires category.None? || !PrototypeKey(Lower(category.value))
    ensures MapSkillCategoryAsWritten(category) == Own(MapSkillCategory(category))
  {
  }

  /** Case does not matter: any spelling of a key maps like its lower-case form. */
  lemma SkillCategoryCaseInsensitive(category: string)
    ensures MapSkillCategory(Some(category)) == MapSkillCategory(Some(Lower(category)))
  {
    LowerIdempotent(category);
  }

  /** `mapMarketDemand` as written. */
  function MapMarketDemandAsWritten(demand: Option<string>): (r: Lookup)
    ensures demand.Some? && PrototypeKey(Lower(demand.value)) ==> r == Inherited(Lower(demand.value))
    ensures r.Own? || r.Inherited?
  {
    var key := LowerKey(demand);
    var found := JsLookup(if key.Some? then MarketDemandEntry(key.value) else None, key);
    if found.Absent? then Own("MEDIUM") else found
  }

  /** `mapMarketDemand` as intended: English and Spanish synonyms, 'MEDIUM' otherwise. */
  function MapMarketDemand(demand: Option<string>): (r: string)
    ensures r in {"HIGH", "MEDIUM", "LOW"}
    ensures demand.Some? && Lower(demand.value) in {"alta", "high"} ==> r == "HIGH"
    ensures demand.Some? && Lower(demand.value) in {"media", "medium"} ==> r == "MEDIUM"
    ensures demand.Some? && Lower(demand.value) in {"baja", "low"} ==> r == "LOW"
    ensures demand.Some? && Lower(demand.value) !in {"alta", "high", "media", "medium", "baja", "low"} ==> r == "MEDIUM"
    ensures demand.None? ==> r == "MEDIUM"
  {
    var key := LowerKey(demand);
    (if key.Some? then MarketDemandEntry(key.value) else None).GetOr("MEDIUM")
  }

  lemma MarketDemandAgreesOffPrototype(demand: Option<string>)
    requires demand.None? || !PrototypeKey(Lower(demand.value))
    ensures MapMarketDemandAsWritten(demand) == Own(MapMarketDemand(demand))
  {
  }

  /** `mapChurnRisk` as written. */
  function MapChurnRiskAsWritten(risk: Option<string>): (r: Lookup)
    ensures risk.Some? && PrototypeKey(Lower(risk.value)) ==> r == Inherited(Lower(risk.value))
    ensures r.Own? || r.Inherited?
  {
    var key := LowerKey(risk);
    var found := JsLookup(if key.Some? then ChurnRiskEntry(key.value) else None, key);
    if found.Absent? then Own("MEDIUM") else found
  }

  /** `mapChurnRisk` as intended: English and Spanish synonyms, 'MEDIUM' otherwise. */
  function MapChurnRisk(risk: Option<string>): (r: string)
    ensures r in {"HIGH", "MEDIUM", "LOW"}
    ensures risk.Some? && Lower(risk.value) in {"alto", "high"} ==> r == "HIGH"
    ensures risk.Some? && Lower(risk.value) in {"medio", "medium"} ==> r == "MEDIUM"
    ensures risk.Some? && Lower(risk.value) in {"bajo", "low"} ==> r == "LOW"
    ensures risk.Some? && Lower(risk.value) !in {"alto", "high", "medio", "medium", "bajo", "low"} ==> r == "MEDIUM"
    ensures risk.None? ==> r == "MEDIUM"
  {
    var key := LowerKey(risk);
    (if key.Some? then ChurnRiskEntry(key.value) else None).GetOr("MEDIUM")
  }

  lemma ChurnRiskAgreesOffPrototype(risk: Option<string>)
    requires risk.None? || !PrototypeKey(Lower(risk.value))
    ensures MapChurnRiskAsWritten(risk) == Own(MapChurnRisk(risk))
  {
  }

  // ---- transformAnalytics ----

  datatype AnalyticsIn = AnalyticsIn(totalXp: Option<int>, sessionsCount: Option<int>, avgSessionTime: Option<real>,
                                     blocksCompleted: Option<int>, quizAvgScore: Option<real>, currentStreak: Option<int>,
                                     longestStreak: Option<int>, preferredTime: Option<string>,
                                     engagementScore: Option<real>, churnRisk: Option<string>)
  datatype AnalyticsOut = AnalyticsOut(totalXp: int, sessionsCount: int, averageSessionTime: real, blocksCompleted: int,
                                       quizAvgScore: Option<real>, currentStreak: int, longestStreak: int,
                                       preferredLearningTime: Option<string>, engagementScore: Option<real>,
                                       churnRisk: string)

  /** `x || null` for a number: zero becomes null. */
  function NonZero(x: Option<real>): (r: Option<real>)
    ensures r.Some? <==> x.Some? && x.value != 0.0
    ensures r.Some? ==> r == x
  {
    if x.Some? && x.value != 0.0 then x else None
  }

  /** `transformAnalytics`: counters default to 0, and a zero score or an empty time becomes null. */
  function TransformAnalytics(a: AnalyticsIn): (r: AnalyticsOut)
    ensures r.totalXp == a.totalXp.GetOr(0) && r.sessionsCount == a.sessionsCount.GetOr(0)
    ensures r.averageSessionTime == a.avgSessionTime.GetOr(0.0) && r.blocksCompleted == a.blocksCompleted.GetOr(0)
    ensures r.currentStreak == a.currentStreak.GetOr(0) && r.longestStreak == a.longestStreak.GetOr(0)
    ensures a.quizAvgScore.Some? && a.quizAvgScore.value != 0.0 ==> r.quizAvgScore == a.quizAvgScore
    ensures a.quizAvgScore.None? || a.quizAvgScore == Some(0.0) ==> r.quizAvgScore.None?
    ensures a.engagementScore.Some? && a.engagementScore.value != 0.0 ==> r.engagementScore == a.engagementScore
    ensures a.engagementScore.None? || a.engagementScore == Some(0.0) ==> r.engagementScore.None?
    ensures a.preferredTime.Some? && a.preferredTime.value != "" ==> r.preferredLearningTime == a.preferredTime
    ensures a.preferredTime.None? || a.preferredTime == Some("") ==> r.preferredLearningTime.None?
    ensures r.churnRisk == MapChurnRisk(a.churnRisk)
  {
    AnalyticsOut(OrInt(a.totalXp, 0), OrInt(a.sessionsCount, 0),
                 if a.avgSessionTime.Some? then a.avgSessionTime.value else 0.0,
                 OrInt(a.blocksCompleted, 0), NonZero(a.quizAvgScore), OrInt(a.currentStreak, 0),
                 OrInt(a.longestStreak, 0),
                 if a.preferredTime.Some? && a.preferredTime.value != "" then a.preferredTime else None,
                 NonZero(a.engagementScore), MapChurnRisk(a.churnRisk))
  }

  // ---- transformLearningPlan ----

  datatype ComponentIn = PlainComponent(text: string)
                       | ComponentRecord(name: Option<string>, description: Option<string>, importance: Option<int>)
  datatype PrerequisiteIn = PlainPrerequisite(text: string)
                          | PrerequisiteRecord(name: Option<string>, description: Option<string>, required: Option<bool>)
  datatype CareerPathIn = PlainPath(text: string)
                        | PathRecord(title: Option<string>, description: Option<string>, salary: Option<int>,
                                     demand: Option<string>)
  datatype ObjectiveIn = PlainObjective(text: string)
                       | ObjectiveRecord(objective: Option<string>, measurable: Option<bool>, timeframe: Option<string>)
  datatype PlanDayIn = PlanDayIn(dayNumber: int, title: string, focusArea: Option<string>, isActionDay: Option<bool>,
                                 objectives: Option<seq<string>>)
  datatype SectionIn = SectionIn(title: string, description: Option<string>, days: seq<PlanDayIn>)
  datatype TechniqueIn = PlainTechnique(text: string)
                       | TechniqueRecord(name: Option<string>, description: Option<string>, frequency: Option<string>)
  datatype AssessmentIn = PlainAssessment(text: string)
                        | AssessmentRecord(kind: Option<string>, description: Option<string>, frequency: Option<string>)
  datatype PlanIn = PlanIn(skill: string, skillCategory: Option<string>, marketDemand: Option<string>,
                           components: seq<ComponentIn>, prerequisites: seq<PrerequisiteIn>, careerPaths: seq<CareerPathIn>,
                           cognitiveLoadAssessment: Option<string>, objectives: seq<ObjectiveIn>,
                           techniques: seq<TechniqueIn>, assessments: seq<AssessmentIn>, sections: seq<SectionIn>)

  datatype ComponentOut = ComponentOut(name: FieldOrSelf<ComponentIn>, description: string, importance: int, order: nat)
  datatype PrerequisiteOut = PrerequisiteOut(name: FieldOrSelf<PrerequisiteIn>, description: string, isRequired: bool,
                                             order: nat)
  datatype CareerPathOut = CareerPathOut(title: FieldOrSelf<CareerPathIn>, description: string, averageSalary: Option<int>,
                                         demandLevel: string, order: nat)
  datatype ObjectiveOut = ObjectiveOut(objective: FieldOrSelf<ObjectiveIn>, measurable: bool, timeframe: string, order: nat)
  datatype PlanDayOut = PlanDayOut(dayNumber: int, title: string, focusArea: string, isActionDay: bool, objectives: seq<string>)
  datatype SectionOut = SectionOut(title: string, description: Option<string>, order: nat, days: seq<PlanDayOut>)
  datatype TechniqueOut = TechniqueOut(name: FieldOrSelf<TechniqueIn>, description: string, frequency: string)
  datatype AssessmentOut = AssessmentOut(kind: FieldOrSelf<AssessmentIn>, description: string, frequency: string)
  datatype PlanOut = PlanOut(generatedBy: string, skill: string, skillCategory: string, marketDemand: string,
                             components: seq<ComponentOut>, prerequisites: seq<PrerequisiteOut>,
                             careerPaths: seq<CareerPathOut>, cognitiveLoadAssessment: string,
                             objectives: seq<ObjectiveOut>, techniques: seq<TechniqueOut>,
                             assessments: seq<AssessmentOut>, sections: seq<SectionOut>)

  function NameOr<T>(name: Option<string>, self: T): FieldOrSelf<T>
  {
    if name.Some? && name.value != "" then Field(name.value) else Self(self)
  }

  /** A skill component: name or the item itself, description '', importance 3 by default. */
  function ComponentOf(c: ComponentIn, order: nat): (r: ComponentOut)
    ensures r.order == order
    ensures c.PlainComponent? ==> r.description == "" && r.importance == 3
    ensures c.ComponentRecord? && (c.importance.None? || c.importance.value == 0) ==> r.importance == 3
  {
    match c
    case PlainComponent(_) => ComponentOut(Self(c), "", 3, order)
    case ComponentRecord(name, description, importance) =>
      ComponentOut(NameOr(name, c), OrText(description, ""), OrInt(importance, 3), order)
  }

  /** `isRequired: prereq.required !== false` */
  function PrerequisiteOf(p: PrerequisiteIn, order: nat): (r: PrerequisiteOut)
    ensures !r.isRequired <==> p.PrerequisiteRecord? && p.required == Some(false)
  {
    match p
    case PlainPrerequisite(_) => PrerequisiteOut(Self(p), "", true, order)
    case PrerequisiteRecord(name, description, required) =>
      PrerequisiteOut(NameOr(name, p), OrText(description, ""), required != Some(false), order)
  }

  /** A career path: title or the item itself, a non-zero salary or null, the demand mapped with MEDIUM by default. */
  function CareerPathOf(c: CareerPathIn, order: nat): (r: CareerPathOut)
    ensures r.order == order
    ensures r.averageSalary.Some? ==> c.PathRecord? && r.averageSalary == c.salary && r.averageSalary.value != 0
  {
    match c
    case PlainPath(_) => CareerPathOut(Self(c), "", None, MapMarketDemand(Some("MEDIUM")), order)
    case PathRecord(title, description, salary, demand) =>
      CareerPathOut(NameOr(title, c), OrText(description, ""),
                    if salary.Some? && salary.value != 0 then salary else None,
                    MapMarketDemand(Some(OrText(demand, "MEDIUM"))), order)
  }

  /** `measurable: obj.measurable !== false`, timeframe defaulting to '30 days'. */
  function ObjectiveOf(o: ObjectiveIn, order: nat): (r: ObjectiveOut)
    ensures !r.measurable <==> o.ObjectiveRecord? && o.measurable == Some(false)
    ensures o.PlainObjective? ==> r.timeframe == "30 days"
  {
    match o
    case PlainObjective(_) => ObjectiveOut(Self(o), true, "30 days", order)
    case ObjectiveRecord(objective, measurable, timeframe) =>
      ObjectiveOut(NameOr(objective, o), measurable != Some(false), OrText(timeframe, "30 days"), order)
  }

  /** An engagement technique: name or the item itself, description '', frequency 'Daily' by default. */
  function TechniqueOf(t: TechniqueIn): (r: TechniqueOut)
    ensures t.PlainTechnique? ==> r == TechniqueOut(Self(t), "", "Daily")
    ensures t.TechniqueRecord? && t.frequency.Some? && t.frequency.value != "" ==> r.frequency == t.frequency.value
    ensures t.TechniqueRecord? && (t.frequency.None? || t.frequency.value == "") ==> r.frequency == "Daily"
  {
    match t
    case PlainTechnique(_) => TechniqueOut(Self(t), "", "Daily")
    case TechniqueRecord(name, description, frequency) =>
      TechniqueOut(NameOr(name, t), OrText(description, ""), OrText(frequency, "Daily"))
  }

  /** An assessment method: type or the item itself, description '', frequency 'Per Section' by default. */
  function AssessmentOf(m: AssessmentIn): (r: AssessmentOut)
    ensures m.PlainAssessment? ==> r == AssessmentOut(Self(m), "", "Per Section")
    ensures m.AssessmentRecord? && m.frequency.Some? && m.frequency.value != "" ==> r.frequency == m.frequency.value
    ensures m.AssessmentRecord? && (m.frequency.None? || m.frequency.value == "") ==> r.frequency == "Per Section"
  {
    match m
    case PlainAssessment(_) => AssessmentOut(Self(m), "", "Per Section")
    case AssessmentRecord(kind, description, frequency) =>
      AssessmentOut(NameOr(kind, m), OrText(description, ""), OrText(frequency, "Per Section"))
  }

  /** A plan day with focus area '', action flag false and objectives [] when they are missing. */
  function PlanDayOf(d: PlanDayIn): (r: PlanDayOut)
    ensures d.focusArea.None? ==> r.focusArea == ""
    ensures d.focusArea.Some? && d.focusArea.value != "" ==> r.focusArea == d.focusArea.value
    ensures r.isActionDay <==> d.isActionDay == Some(true)
    ensures d.objectives.None? ==> r.objectives == []
    ensures d.objectives.Some? ==> r.objectives == d.objectives.value
    ensures r.dayNumber == d.dayNumber && r.title == d.title
  {
    PlanDayOut(d.dayNumber, d.title, OrText(d.focusArea, ""), d.isActionDay == Some(true),
               if d.objectives.Some? then d.objectives.value else [])
  }

  function SectionOf(s: SectionIn, order: nat): SectionOut
  {
    SectionOut(s.title, if s.description.Some? && s.description.value != "" then s.description else None, order,
               seq(|s.days|, k requires 0 <= k < |s.days| => PlanDayOf(s.days[k])))
  }

  /** `transformLearningPlan` */
  function TransformLearningPlan(p: PlanIn): (r: PlanOut)
    ensures |r.sections| == |p.sections| && |r.components| == |p.components| && |r.objectives| == |p.objectives|
    ensures |r.prerequisites| == |p.prerequisites| && |r.careerPaths| == |p.careerPaths|
    ensures |r.techniques| == |p.techniques| && |r.assessments| == |p.assessments|
    ensures forall i :: 0 <= i < |r.sections| ==> r.sections[i].order == i && |r.sections[i].days| == |p.sections[i].days|
    ensures forall i :: 0 <= i < |r.sections| ==>
              && r.sections[i].title == p.sections[i].title
              && (var d := p.sections[i].description;
                  r.sections[i].description == if d.Some? && d.value != "" then d else None)
    ensures forall i, k :: 0 <= i < |r.sections| && 0 <= k < |r.sections[i].days| ==>
              r.sections[i].days[k] == PlanDayOf(p.sections[i].days[k])
    ensures forall i :: 0 <= i < |r.objectives| ==> r.objectives[i] == ObjectiveOf(p.objectives[i], i)
    ensures forall i :: 0 <= i < |r.prerequisites| ==> r.prerequisites[i] == PrerequisiteOf(p.prerequisites[i], i)
    ensures forall i :: 0 <= i < |r.careerPaths| ==> r.careerPaths[i] == CareerPathOf(p.careerPaths[i], i)
    ensures forall i :: 0 <= i < |r.techniques| ==> r.techniques[i] == TechniqueOf(p.techniques[i])
    ensures forall i :: 0 <= i < |r.assessments| ==> r.assessments[i] == AssessmentOf(p.assessments[i])
    ensures forall i :: 0 <= i < |r.components| ==> r.components[i] == ComponentOf(p.components[i], i)
    ensures r.generatedBy == "openai-gpt4" && r.skill == p.skill
    ensures r.skillCategory == MapSkillCategory(p.skillCategory) && r.marketDemand == MapMarketDemand(p.marketDemand)
    ensures r.cognitiveLoadAssessment == OrText(p.cognitiveLoadAssessment, "Balanced")
  {
    PlanOut("openai-gpt4", p.skill, MapSkillCategory(p.skillCategory), MapMarketDemand(p.marketDemand),
            seq(|p.components|, k requires 0 <= k < |p.components| => ComponentOf(p.components[k], k)),
            seq(|p.prerequisites|, k requires 0 <= k < |p.prerequisites| => PrerequisiteOf(p.prerequisites[k], k)),
            seq(|p.careerPaths|, k requires 0 <= k < |p.careerPaths| => CareerPathOf(p.careerPaths[k], k)),
            OrText(p.cognitiveLoadAssessment, "Balanced"),
            seq(|p.objectives|, k requires 0 <= k < |p.objectives| => ObjectiveOf(p.objectives[k], k)),
            seq(|p.techniques|, k requires 0 <= k < |p.techniques| => TechniqueOf(p.techniques[k])),
            seq(|p.assessments|, k requires 0 <= k < |p.assessments| => AssessmentOf(p.assessments[k])),
            seq(|p.sections|, k requires 0 <= k < |p.sections| => SectionOf(p.sections[k], k)))
  }

  /** Every prerequisite is required unless its record says `required: false`. */
  lemma PrerequisitesRequiredUnlessFalse(p: PlanIn)
    ensures forall k :: 0 <= k < |p.prerequisites| ==>
              (TransformLearningPlan(p).prerequisites[k].isRequired
               <==> !(p.prerequisites[k].PrerequisiteRecord? && p.prerequisites[k].required == Some(false)))
  {
  }

  /** A career path with no demand gets MEDIUM. */
  lemma CareerPathDefaultDemand(c: CareerPathIn, order: nat)
    requires c.PlainPath? || c.demand.None?
    ensures CareerPathOf(c, order).demandLevel == "MEDIUM"
  {
    assert Lower("MEDIUM") == "medium";
  }
}
