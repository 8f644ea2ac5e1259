// The course document schema: the nine block variants of the tagged union
// and the field validators applied when a CourseDoc is constructed.
module Course {
  import opened Wrappers
  import opened Text

  /** `settings.MAX_BLOCKS` when the environment does not override it. */
  const DEFAULT_MAX_BLOCKS: int := 12

  const DEFAULT_VERSION: string := "v1"
  const DEFAULT_LANGUAGE: string := "es"

  datatype Level = Beginner | Intermediate | Advanced

  /** The literal each block variant carries in its `type` field. */
  datatype BlockKind =
    | AudioKind | ReadKind | QuizMcqKind | QuizTfKind | SentenceShuffleKind
    | MatchingPairsKind | ImageMcqKind | ClozeMcqKind | ScenarioMcqKind

  datatype Block =
    | Audio(xp: int, text: string, audioUrl: string)
    | Read(xp: int, title: Option<string>, body: string)
    | QuizMcq(xp: int, question: string, options: seq<string>, answer: int)
    | QuizTf(xp: int, statement: string, truth: bool)
    | SentenceShuffle(xp: int, tokens: seq<string>, ordered: seq<string>)
    | MatchingPairs(xp: int, leftItems: seq<string>, rightItems: seq<string>, pairing: seq<int>)
    | ImageMcq(xp: int, prompt: string, imageUrls: seq<string>, options: seq<string>, answer: int)
    | ClozeMcq(xp: int, beforeText: string, afterText: string, options: seq<string>, answer: int)
    | ScenarioMcq(xp: int, context: string, options: seq<string>, answer: int)
  {
    function Kind(): BlockKind
    {
      match this
      case Audio(_, _, _) => AudioKind
      case Read(_, _, _) => ReadKind
      case QuizMcq(_, _, _, _) => QuizMcqKind
      case QuizTf(_, _, _) => QuizTfKind
      case SentenceShuffle(_, _, _) => SentenceShuffleKind
      case MatchingPairs(_, _, _, _) => MatchingPairsKind
      case ImageMcq(_, _, _, _, _) => ImageMcqKind
      case ClozeMcq(_, _, _, _, _) => ClozeMcqKind
      case ScenarioMcq(_, _, _, _) => ScenarioMcqKind
    }
  }

  function KindTag(k: BlockKind): string
  {
    match k
    case AudioKind => "audio"
    case ReadKind => "read"
    case QuizMcqKind => "quiz_mcq"
    case QuizTfKind => "quiz_tf"
    case SentenceShuffleKind => "sentence_shuffle"
    case MatchingPairsKind => "matching_pairs"
    case ImageMcqKind => "image_mcq"
    case ClozeMcqKind => "cloze_mcq"
    case ScenarioMcqKind => "scenario_mcq"
  }

  /** Selects the union member whose literal `type` equals the tag, if any. */
  function KindOfTag(tag: string): (r: Option<BlockKind>)
    ensures r.Some? ==> KindTag(r.value) == tag
  {
    if tag == "audio" then Some(AudioKind)
    else if tag == "read" then Some(ReadKind)
    else if tag == "quiz_mcq" then Some(QuizMcqKind)
    else if tag == "quiz_tf" then Some(QuizTfKind)
    else if tag == "sentence_shuffle" then Some(SentenceShuffleKind)
    else if tag == "matching_pairs" then Some(MatchingPairsKind)
    else if tag == "image_mcq" then Some(ImageMcqKind)
    else if tag == "cloze_mcq" then Some(ClozeMcqKind)
    else if tag == "scenario_mcq" then Some(ScenarioMcqKind)
    else None
  }

  /** The nine literals are distinct, so the `type` field alone determines the variant. */
  lemma KindTagDiscriminates(k: BlockKind)
    ensures KindOfTag(KindTag(k)) == Some(k)
  {
  }

  lemma KindTagInjective(k1: BlockKind, k2: BlockKind)
    ensures KindTag(k1) == KindTag(k2) ==> k1 == k2
  {
    KindTagDiscriminates(k1);
    KindTagDiscriminates(k2);
  }

  function LevelOfTag(tag: string): (r: Option<Level>)
    ensures r == Some(Beginner) <==> tag == "beginner"
    ensures r == Some(Intermediate) <==> tag == "intermediate"
    ensures r == Some(Advanced) <==> tag == "advanced"
  {
    if tag == "beginner" then Some(Beginner)
    else if tag == "intermediate" then Some(Intermediate)
    else if tag == "advanced" then Some(Advanced)
    else None
  }

  /** Python's `str.islower()`: some cased character, and no upper-case one. */
  predicate IsLower(s: string)
  {
    (exists i :: 0 <= i < |s| && IsAsciiLower(s[i])) && (forall i :: 0 <= i < |s| ==> !IsAsciiUpper(s[i]))
  }

  lemma DigitsAreNotLower()
    ensures !IsLower("123")
    ensures !IsLower("")
    ensures !IsLower("_")
  {
  }

  datatype CourseDoc = CourseDoc(
    courseId: string,
    version: string,
    language: string,
    title: string,
    description: string,
    level: Level,
    tags: seq<string>,
    canonical: bool,
    blocks: seq<Block>,
    createdAt: string,
    updatedAt: string)

  /** `limit_blocks`: a course has between one and `maxBlocks` blocks. */
  function LimitBlocks(blocks: seq<Block>, maxBlocks: int): (r: Result<seq<Block>>)
    ensures r.Ok? <==> 1 <= |blocks| <= maxBlocks
    ensures r.Ok? ==> r.value == blocks
  {
    if |blocks| == 0 then Err("Course must contain at least one block")
    else if |blocks| > maxBlocks then Err("Course too long (> " + IntToString(maxBlocks) + " blocks)")
    else Ok(blocks)
  }

  /** `validate_course_id`: the id is accepted unchanged iff it is lower case in Python's sense. */
  function ValidateCourseId(v: string): (r: Result<string>)
    ensures r.Ok? <==> IsLower(v)
    ensures r.Ok? ==> r.value == v
  {
    if !IsLower(v) then Err("courseId must be lowercase") else Ok(v)
  }

  /** `validate_version`: the version is accepted unchanged iff it starts with 'v'. */
  function ValidateVersion(v: string): (r: Result<string>)
    ensures r.Ok? <==> 1 <= |v| && v[0] == 'v'
    ensures r.Ok? ==> r.value == v
  {
    if !("v" <= v) then Err("Version must start with 'v' (e.g. v1, v2)") else Ok(v)
  }

  /** `validate_language`: exactly two characters, stored lower-cased. */
  function ValidateLanguage(v: string): (r: Result<string>)
    ensures r.Ok? <==> |v| == 2
    ensures r.Ok? ==> |r.value| == 2 && !IsAsciiUpper(r.value[0]) && !IsAsciiUpper(r.value[1])
    ensures r.Ok? ==> Lower(r.value) == Lower(v)
  {
    if |v| != 2 then Err("Language must be a 2-letter ISO-639-1 code")
    else LowerIdempotent(v); Ok(Lower(v))
  }

  /** A keyword argument handed to the CourseDoc constructor. */
  datatype Value = Str(s: string) | Bool(b: bool) | StrList(items: seq<string>) | Other

  function StrField(fields: map<string, Value>, key: string, default: Option<string>): (r: Result<string>)
    ensures key in fields ==> (r.Ok? <==> fields[key].Str?)
    ensures key in fields && r.Ok? ==> r.value == fields[key].s
    ensures key !in fields ==> (r.Ok? <==> default.Some?)
    ensures key !in fields && r.Ok? ==> r.value == default.value
  {
    if key in fields then
      (if fields[key].Str? then Ok(fields[key].s) else Err(key + ": Input should be a valid string"))
    else if default.Some? then Ok(default.value)
    else Err(key + ": Field required")
  }

  /** The identification fields `courseId`, `version` and `language`, validated. */
  datatype Identity = Identity(courseId: string, version: string, language: string)

  function ValidateIdentity(fields: map<string, Value>): (r: Result<Identity>)
    ensures r.Ok? ==> IsLower(r.value.courseId)
    ensures r.Ok? ==> 1 <= |r.value.version| && r.value.version[0] == 'v'
    ensures r.Ok? ==> |r.value.language| == 2 && !IsAsciiUpper(r.value.language[0]) && !IsAsciiUpper(r.value.language[1])
    ensures r.Ok? ==> "courseId" in fields && fields["courseId"] == Str(r.value.courseId)
    ensures r.Ok? && "version" in fields ==> fields["version"] == Str(r.value.version)
    ensures r.Ok? && "version" !in fields ==> r.value.version == DEFAULT_VERSION
    ensures r.Ok? && "language" !in fields ==> r.value.language == DEFAULT_LANGUAGE
    ensures r.Ok? && "language" in fields ==> fields["language"].Str? && Lower(fields["language"].s) == r.value.language
  {
    var courseId := StrField(fields, "courseId", None);
    var version := StrField(fields, "version", Some(DEFAULT_VERSION));
    var language := StrField(fields, "language", Some(DEFAULT_LANGUAGE));
    if courseId.Err? then Err(courseId.error)
    else if ValidateCourseId(courseId.value).Err? then Err(ValidateCourseId(courseId.value).error)
    else if version.Err? then Err(version.error)
    else if ValidateVersion(version.value).Err? then Err(ValidateVersion(version.value).error)
    else if language.Err? then Err(language.error)
    else if ValidateLanguage(language.value).Err? then Err(ValidateLanguage(language.value).error)
    else
      assert DEFAULT_LANGUAGE == Lower(DEFAULT_LANGUAGE);
      Ok(Identity(courseId.value, version.value, ValidateLanguage(language.value).value))
  }

  /** The descriptive fields `title`, `description`, `level`, `tags` and `canonical`, validated. */
  datatype Description = Description(title: string, description: string, level: Level, tags: seq<string>, canonical: bool)

  function ValidateDescription(fields: map<string, Value>): (r: Result<Description>)
    ensures r.Ok? ==> "title" in fields && fields["title"] == Str(r.value.title)
    ensures r.Ok? ==> "description" in fields && fields["description"] == Str(r.value.description)
    ensures r.Ok? && "level" in fields ==> fields["level"].Str? && LevelOfTag(fields["level"].s) == Some(r.value.level)
    ensures r.Ok? && "level" !in fields ==> r.value.level == Beginner
    ensures r.Ok? && "tags" in fields ==> fields["tags"] == StrList(r.value.tags)
    ensures r.Ok? && "tags" !in fields ==> r.value.tags == []
    ensures r.Ok? && "canonical" in fields ==> fields["canonical"] == Bool(r.value.canonical)
    ensures r.Ok? && "canonical" !in fields ==> !r.value.canonical
  {
    var title := StrField(fields, "title", None);
    var description := StrField(fields, "description", None);
    var level := StrField(fields, "level", Some("beginner"));
    if title.Err? then Err(title.error)
    else if description.Err? then Err(description.error)
    else if level.Err? || LevelOfTag(level.value).None? then Err("level: Input should be 'beginner', 'intermediate' or 'advanced'")
    else if "tags" in fields && !fields["tags"].StrList? then Err("tags: Input should be a valid list")
    else if "canonical" in fields && !fields["canonical"].Bool? then Err("canonical: Input should be a valid boolean")
    else
      Ok(Description(
        title.value,
        description.value,
        LevelOfTag(level.value).value,
        if "tags" in fields then fields["tags"].items else [],
        if "canonical" in fields then fields["canonical"].b else false))
  }

  /**
   * `CourseDoc(**fields, blocks=blocks)`: every field is checked against its type and
   * validator and absent optional fields take their defaults; `now` stands for the clock
   * read by the timestamp defaults.
   */
  function CreateCourseDoc(fields: map<string, Value>, blocks: seq<Block>, maxBlocks: int, now: string): (r: Result<CourseDoc>)
    ensures r.Ok? ==> ValidateIdentity(fields) == Ok(Identity(r.value.courseId, r.value.version, r.value.language))
    ensures r.Ok? ==> ValidateDescription(fields)
                      == Ok(Description(r.value.title, r.value.description, r.value.level, r.value.tags, r.value.canonical))
    ensures r.Ok? ==> r.value.blocks == blocks && 1 <= |blocks| <= maxBlocks
    ensures ValidateIdentity(fields).Ok? && ValidateDescription(fields).Ok? && 1 <= |blocks| <= maxBlocks
            && (forall k :: k in fields && (k == "createdAt" || k == "updatedAt") ==> fields[k].Str?)
            ==> r.Ok?
  {
    var identity := ValidateIdentity(fields);
    var description := ValidateDescription(fields);
    var createdAt := StrField(fields, "createdAt", Some(now));
    var updatedAt := StrField(fields, "updatedAt", Some(now));
    if identity.Err? then Err(identity.error)
    else if description.Err? then Err(description.error)
    else if LimitBlocks(blocks, maxBlocks).Err? then Err(LimitBlocks(blocks, maxBlocks).error)
    else if createdAt.Err? then Err(createdAt.error)
    else if updatedAt.Err? then Err(updatedAt.error)
    else
      var id, d := identity.value, description.value;
      Ok(CourseDoc(id.courseId, id.version, id.language, d.title, d.description, d.level, d.tags, d.canonical,
                   blocks, createdAt.value, updatedAt.value))
  }

  /** Every accepted document satisfies all four validators. */
  lemma AcceptedDocIsValid(fields: map<string, Value>, blocks: seq<Block>, maxBlocks: int, now: string)
    ensures var r := CreateCourseDoc(fields, blocks, maxBlocks, now);
      r.Ok? ==>
        && IsLower(r.value.courseId)
        && 1 <= |r.value.version| && r.value.version[0] == 'v'
        && |r.value.language| == 2
        && 1 <= |r.value.blocks| <= maxBlocks
  {
  }
}
