// Building a CourseDoc from generated blocks: the courseId sanitiser
// (lower-case, keep [a-z0-9] and whitespace, strip, collapse whitespace runs
// into '_') and the merge of defaults with caller metadata.
module CourseBuilder {
  import opened Wrappers
  import opened Text
  import Course

  predicate IsAlnumLower(c: char) { IsAsciiLower(c) || IsDigit(c) }

  /** Characters kept by the first substitution, `[^a-z0-9\s]` -> ''. */
  predicate IsKept(c: char) { IsAlnumLower(c) || IsSpace(c) }

  predicate AllKept(s: string)
  {
    forall i :: 0 <= i < |s| ==> IsKept(s[i])
  }

  predicate AllAlnum(r: string)
  {
    forall i :: 0 <= i < |r| ==> IsAlnumLower(r[i])
  }

  function KeepAllowed(s: string): string
  {
    if |s| == 0 then "" else (if IsKept(s[0]) then [s[0]] else []) + KeepAllowed(s[1..])
  }

  function StripLeft(s: string): string
  {
    if |s| > 0 && IsSpace(s[0]) then StripLeft(s[1..]) else s
  }

  function StripRight(s: string): string
  {
    if |s| > 0 && IsSpace(s[|s| - 1]) then StripRight(s[..|s| - 1]) else s
  }

  /** `str.strip()`: removes leading and trailing whitespace. */
  function Strip(s: string): string
  {
    StripRight(StripLeft(s))
  }

  function DropSpaces(s: string): (r: string)
    ensures |r| <= |s|
  {
    if |s| > 0 && IsSpace(s[0]) then DropSpaces(s[1..]) else s
  }

  /** `re.sub(r'\s+', '_', s)`: every maximal whitespace run becomes one '_'. */
  function Collapse(s: string): string
    decreases |s|
  {
    if |s| == 0 then ""
    else if IsSpace(s[0]) then "_" + Collapse(DropSpaces(s[1..]))
    else [s[0]] + Collapse(s[1..])
  }

  /** `sanitize_course_id` */
  function SanitizeCourseId(text: string): string
  {
    Collapse(Strip(KeepAllowed(Lower(text))))
  }

  /** The shape every sanitised id has: snake_case over [a-z0-9]. */
  predicate IsSnakeId(r: string)
  {
    (forall i :: 0 <= i < |r| ==> IsAlnumLower(r[i]) || r[i] == '_')
    && (|r| > 0 ==> r[0] != '_' && r[|r| - 1] != '_')
    && (forall i :: 0 <= i < |r| - 1 ==> !(r[i] == '_' && r[i + 1] == '_'))
  }

  /** The letters and digits of a string, in order. */
  function Alnum(s: string): string
  {
    if |s| == 0 then "" else (if IsAlnumLower(s[0]) then [s[0]] else []) + Alnum(s[1..])
  }

  // Facts about the individual passes.

  lemma {:induction false} KeepAllowedKept(s: string)
    ensures AllKept(KeepAllowed(s))
    decreases |s|
  {
    if |s| > 0 {
      KeepAllowedKept(s[1..]);
    }
  }

  lemma {:induction false} StripLeftFacts(s: string)
    requires AllKept(s)
    ensures AllKept(StripLeft(s))
    ensures |StripLeft(s)| > 0 ==> !IsSpace(StripLeft(s)[0])
    ensures |s| > 0 && !IsSpace(s[|s| - 1]) ==> |StripLeft(s)| > 0 && StripLeft(s)[|StripLeft(s)| - 1] == s[|s| - 1]
    decreases |s|
  {
    if |s| > 0 && IsSpace(s[0]) {
      assert AllKept(s[1..]);
      StripLeftFacts(s[1..]);
    }
  }

  lemma {:induction false} StripRightFacts(s: string)
    requires AllKept(s)
    ensures AllKept(StripRight(s))
    ensures |StripRight(s)| > 0 ==> !IsSpace(StripRight(s)[|StripRight(s)| - 1])
    ensures |s| > 0 && !IsSpace(s[0]) ==> |StripRight(s)| > 0 && StripRight(s)[0] == s[0]
    decreases |s|
  {
    if |s| > 0 && IsSpace(s[|s| - 1]) {
      assert AllKept(s[..|s| - 1]);
      StripRightFacts(s[..|s| - 1]);
    }
  }

  lemma StripFacts(s: string)
    requires AllKept(s)
    ensures AllKept(Strip(s))
    ensures |Strip(s)| > 0 ==> !IsSpace(Strip(s)[0]) && !IsSpace(Strip(s)[|Strip(s)| - 1])
  {
    StripLeftFacts(s);
    StripRightFacts(StripLeft(s));
  }

  lemma {:induction false} DropSpacesFacts(s: string)
    requires AllKept(s)
    ensures AllKept(DropSpaces(s))
    ensures |DropSpaces(s)| > 0 ==> !IsSpace(DropSpaces(s)[0])
    ensures |s| > 0 && !IsSpace(s[|s| - 1]) ==> |DropSpaces(s)| > 0 && DropSpaces(s)[|DropSpaces(s)| - 1] == s[|s| - 1]
    decreases |s|
  {
    if |s| > 0 && IsSpace(s[0]) {
      assert AllKept(s[1..]);
      DropSpacesFacts(s[1..]);
    }
  }

  /** The structure of `Collapse` on an input of kept characters. */
  lemma {:induction false} CollapseShape(s: string)
    requires AllKept(s)
    ensures var r := Collapse(s);
      (forall i :: 0 <= i < |r| ==> IsAlnumLower(r[i]) || r[i] == '_')
      && (|s| > 0 && !IsSpace(s[0]) ==> |r| > 0 && r[0] == s[0])
      && (|s| > 0 && !IsSpace(s[|s| - 1]) ==> |r| > 0 && r[|r| - 1] == s[|s| - 1])
      && (forall i :: 0 <= i < |r| - 1 ==> !(r[i] == '_' && r[i + 1] == '_'))
    decreases |s|
  {
    if |s| > 0 {
      assert AllKept(s[1..]);
      if IsSpace(s[0]) {
        var t := DropSpaces(s[1..]);
        DropSpacesFacts(s[1..]);
        CollapseShape(t);
        if !IsSpace(s[|s| - 1]) {
          assert s[1..][|s| - 2] == s[|s| - 1];
        }
      } else {
        CollapseShape(s[1..]);
        if |s| > 1 && !IsSpace(s[|s| - 1]) {
          assert s[1..][|s| - 2] == s[|s| - 1];
        }
      }
    }
  }

  /** Every sanitised id is snake_case over [a-z0-9]: no leading, trailing or doubled '_'. */
  lemma SanitizeIsSnakeId(text: string)
    ensures IsSnakeId(SanitizeCourseId(text))
  {
    var k := KeepAllowed(Lower(text));
    KeepAllowedKept(Lower(text));
    StripFacts(k);
    CollapseShape(Strip(k));
  }

  // The letters and digits are exactly those of the lower-cased input.

  lemma {:induction false} AlnumConcat(a: string, b: string)
    ensures Alnum(a + b) == Alnum(a) + Alnum(b)
    decreases |a|
  {
    if |a| == 0 {
      assert a + b == b;
    } else {
      var h := if IsAlnumLower(a[0]) then [a[0]] else [];
      assert (a + b)[0] == a[0] && (a + b)[1..] == a[1..] + b;
      assert Alnum(a + b) == h + Alnum(a[1..] + b);
      AlnumConcat(a[1..], b);
      assert Alnum(a) == h + Alnum(a[1..]);
    }
  }

  lemma {:induction false} AlnumKeepAllowed(s: string)
    ensures Alnum(KeepAllowed(s)) == Alnum(s)
    decreases |s|
  {
    if |s| > 0 {
      AlnumKeepAllowed(s[1..]);
      AlnumConcat(if IsKept(s[0]) then [s[0]] else [], KeepAllowed(s[1..]));
    }
  }

  lemma {:induction false} AlnumStripLeft(s: string)
    ensures Alnum(StripLeft(s)) == Alnum(s)
    decreases |s|
  {
    if |s| > 0 && IsSpace(s[0]) {
      AlnumStripLeft(s[1..]);
    }
  }

  lemma {:induction false} AlnumStripRight(s: string)
    ensures Alnum(StripRight(s)) == Alnum(s)
    decreases |s|
  {
    if |s| > 0 && IsSpace(s[|s| - 1]) {
      var init := s[..|s| - 1];
      AlnumStripRight(init);
      assert s == init + [s[|s| - 1]];
      AlnumConcat(init, [s[|s| - 1]]);
    }
  }

  lemma {:induction false} AlnumDropSpaces(s: string)
    ensures Alnum(DropSpaces(s)) == Alnum(s)
    decreases |s|
  {
    if |s| > 0 && IsSpace(s[0]) {
      AlnumDropSpaces(s[1..]);
    }
  }

  lemma {:induction false} AlnumCollapse(s: string)
    ensures Alnum(Collapse(s)) == Alnum(s)
    decreases |s|
  {
    if |s| > 0 {
      if IsSpace(s[0]) {
        var t := DropSpaces(s[1..]);
        AlnumCollapse(t);
        AlnumDropSpaces(s[1..]);
        AlnumConcat("_", Collapse(t));
        assert Alnum(s) == Alnum(s[1..]);
      } else {
        AlnumCollapse(s[1..]);
        AlnumConcat([s[0]], Collapse(s[1..]));
      }
    }
  }

  /**
   * Every letter and digit of the lower-cased input survives, in order, and nothing else
   * does: the only other character of the result is the '_' that replaces whitespace.
   */
  lemma SanitizeKeepsExactlyAlnum(text: string)
    ensures Alnum(SanitizeCourseId(text)) == Alnum(Lower(text))
  {
    var k := KeepAllowed(Lower(text));
    AlnumKeepAllowed(Lower(text));
    AlnumStripLeft(k);
    AlnumStripRight(StripLeft(k));
    AlnumCollapse(Strip(k));
  }

  // Sanitising again.

  lemma {:induction false} AlnumIsAlnum(s: string)
    ensures AllAlnum(Alnum(s))
    decreases |s|
  {
    if |s| > 0 {
      AlnumIsAlnum(s[1..]);
    }
  }

  lemma {:induction false} KeepAllowedOfSnake(r: string)
    requires forall i :: 0 <= i < |r| ==> IsAlnumLower(r[i]) || r[i] == '_'
    ensures KeepAllowed(r) == Alnum(r)
    decreases |r|
  {
    if |r| > 0 {
      KeepAllowedOfSnake(r[1..]);
    }
  }

  lemma {:induction false} CollapseFixesAlnum(r: string)
    requires AllAlnum(r)
    ensures Collapse(r) == r
    decreases |r|
  {
    if |r| > 0 {
      CollapseFixesAlnum(r[1..]);
    }
  }

  lemma LowerFixesSnake(r: string)
    requires forall i :: 0 <= i < |r| ==> IsAlnumLower(r[i]) || r[i] == '_'
    ensures Lower(r) == r
  {
  }

  lemma StripFixesAlnum(a: string)
    requires AllAlnum(a)
    ensures Strip(a) == a
  {
    if |a| > 0 {
      assert !IsSpace(a[0]) && !IsSpace(a[|a| - 1]);
    }
  }

  lemma SanitizeOfSnake(r: string)
    requires forall i :: 0 <= i < |r| ==> IsAlnumLower(r[i]) || r[i] == '_'
    ensures SanitizeCourseId(r) == Alnum(r)
  {
    LowerFixesSnake(r);
    KeepAllowedOfSnake(r);
    AlnumIsAlnum(r);
    StripFixesAlnum(Alnum(r));
    CollapseFixesAlnum(Alnum(r));
  }

  /** '_' is not in the kept class, so sanitising an id again deletes its underscores. */
  lemma ResanitizeDropsUnderscores(text: string)
    ensures SanitizeCourseId(SanitizeCourseId(text)) == Alnum(Lower(text))
  {
    SanitizeIsSnakeId(text);
    SanitizeOfSnake(SanitizeCourseId(text));
    SanitizeKeepsExactlyAlnum(text);
  }

  lemma {:induction false} AlnumFixesAlnum(a: string)
    requires AllAlnum(a)
    ensures Alnum(a) == a
    decreases |a|
  {
    if |a| > 0 {
      AlnumFixesAlnum(a[1..]);
    }
  }

  /** A caller-supplied "my" + "_" + "course" is stored as "mycourse". */
  lemma CallerIdExample(my: string, course: string)
    requires my == "my" && course == "course"
    ensures SanitizeCourseId(my + "_" + course) == my + course
  {
    AlnumConcat(my + "_", course);
    AlnumConcat(my, "_");
    AlnumFixesAlnum(my);
    AlnumFixesAlnum(course);
    SanitizeOfSnake(my + "_" + course);
  }

  // build_course_doc

  /** The caller's metadata dictionary; `build_course_doc` writes its truncated tags back. */
  class Metadata {
    var entries: map<string, Course.Value>

    constructor(entries: map<string, Course.Value>)
      ensures this.entries == entries
    {
      this.entries := entries;
    }
  }

  const MAX_TAGS: nat := 10

  predicate IsHexLower(c: char) { IsDigit(c) || 'a' <= c <= 'f' }

  /** The shape of `uuid.uuid4().hex`: 32 lower-case hexadecimal digits. */
  predicate IsUuidHex(h: string)
  {
    |h| == 32 && forall i :: 0 <= i < |h| ==> IsHexLower(h[i])
  }

  /** `metadata["tags"][:10]`: lists and strings are sliced; any other value raises. */
  function TruncateTags(v: Course.Value): (r: Option<Course.Value>)
    ensures r.Some? <==> v.StrList? || v.Str?
    ensures v.StrList? ==> r == Some(Course.StrList(v.items[..if |v.items| < MAX_TAGS then |v.items| else MAX_TAGS]))
    ensures v.Str? ==> r == Some(Course.Str(v.s[..if |v.s| < MAX_TAGS then |v.s| else MAX_TAGS]))
  {
    match v
    case StrList(items) => Some(Course.StrList(items[..if |items| < MAX_TAGS then |items| else MAX_TAGS]))
    case Str(s) => Some(Course.Str(s[..if |s| < MAX_TAGS then |s| else MAX_TAGS]))
    case _ => None
  }

  /**
   * The courseId before the merge: the sanitised caller id, or, when none (or "") is
   * given, the sanitised title followed by '_' and the first 8 hex digits of a uuid.
   */
  function ChosenCourseId(metadata: map<string, Course.Value>, courseId: Option<string>, uuidHex: string): (r: Result<string>)
    requires IsUuidHex(uuidHex)
    ensures courseId.Some? && courseId.value != "" ==> r == Ok(SanitizeCourseId(courseId.value))
    ensures (courseId.None? || courseId.value == "") && "title" in metadata && metadata["title"].Str? ==>
      r == Ok(SanitizeCourseId(metadata["title"].s) + "_" + uuidHex[..8])
    ensures (courseId.None? || courseId.value == "") && "title" !in metadata ==> r == Ok("_" + uuidHex[..8])
    ensures r.Err? <==> (courseId.None? || courseId.value == "") && "title" in metadata && !metadata["title"].Str?
  {
    if courseId.None? || courseId.value == "" then
      if "title" in metadata && !metadata["title"].Str? then Err("AttributeError: title has no attribute 'lower'")
      else
        var title := if "title" in metadata then metadata["title"].s else "";
        assert "title" !in metadata ==> SanitizeCourseId(title) == "" by {
          if "title" !in metadata {
            assert Lower(title) == "";
            assert KeepAllowed("") == "";
            assert Strip("") == "";
            assert Collapse("") == "";
          }
        }
        assert "title" !in metadata ==> SanitizeCourseId(title) + "_" + uuidHex[..8] == "_" + uuidHex[..8];
        Ok(SanitizeCourseId(title) + "_" + uuidHex[..8])
    else Ok(SanitizeCourseId(courseId.value))
  }

  function Defaults(courseId: string, now: string): map<string, Course.Value>
  {
    map[
      "courseId" := Course.Str(courseId),
      "version" := Course.Str(Course.DEFAULT_VERSION),
      "language" := Course.Str(Course.DEFAULT_LANGUAGE),
      "level" := Course.Str("beginner"),
      "tags" := Course.StrList([]),
      "canonical" := Course.Bool(false),
      "createdAt" := Course.Str(now),
      "updatedAt" := Course.Str(now)]
  }

  /** The metadata after the in-place tag truncation, or None when slicing raises. */
  function TruncatedMetadata(metadata: map<string, Course.Value>): (r: Option<map<string, Course.Value>>)
    ensures "tags" !in metadata ==> r == Some(metadata)
    ensures "tags" in metadata ==> (r.Some? <==> TruncateTags(metadata["tags"]).Some?)
    ensures r.Some? ==> r.value.Keys == metadata.Keys
    ensures r.Some? ==> forall k :: k in metadata && k != "tags" ==> r.value[k] == metadata[k]
  {
    if "tags" !in metadata then Some(metadata)
    else
      var t := TruncateTags(metadata["tags"]);
      if t.None? then None else Some(metadata["tags" := t.value])
  }

  /** What `build_course_doc` returns (or raises), and what it leaves in the caller's metadata. */
  function BuildCourseDocSpec(blocks: seq<Course.Block>, metadata: map<string, Course.Value>, courseId: Option<string>,
                              uuidHex: string, now: string, maxBlocks: int): (Result<Course.CourseDoc>, map<string, Course.Value>)
    requires IsUuidHex(uuidHex)
  {
    var id := ChosenCourseId(metadata, courseId, uuidHex);
    if id.Err? then (Err(id.error), metadata)
    else
      var m := TruncatedMetadata(metadata);
      if m.None? then (Err("TypeError: tags cannot be sliced"), metadata)
      else (Course.CreateCourseDoc(Defaults(id.value, now) + m.value, blocks, maxBlocks, now), m.value)
  }

  /**
   * `build_course_doc(blocks, metadata, course_id)`; `uuidHex` and `now` stand for the
   * uuid and the clock it reads.
   */
  method BuildCourseDoc(blocks: seq<Course.Block>, metadata: Metadata, courseId: Option<string>,
                        uuidHex: string, now: string, maxBlocks: int) returns (r: Result<Course.CourseDoc>)
    requires IsUuidHex(uuidHex)
    modifies metadata
    ensures (r, metadata.entries) == BuildCourseDocSpec(blocks, old(metadata.entries), courseId, uuidHex, now, maxBlocks)
  {
    var id: string;
    if courseId.None? || courseId.value == "" {
      if "title" in metadata.entries && !metadata.entries["title"].Str? {
        return Err("AttributeError: title has no attribute 'lower'");
      }
      var title := if "title" in metadata.entries then metadata.entries["title"].s else "";
      id := SanitizeCourseId(title) + "_" + uuidHex[..8];
    } else {
      id := SanitizeCourseId(courseId.value);
    }
    var defaults := Defaults(id, now);
    if "tags" in metadata.entries {
      var t := TruncateTags(metadata.entries["tags"]);
      if t.None? {
        return Err("TypeError: tags cannot be sliced");
      }
      metadata.entries := metadata.entries["tags" := t.value];
    }
    var courseData := defaults + metadata.entries;
    r := Course.CreateCourseDoc(courseData, blocks, maxBlocks, now);
  }

  /** At most the first ten tags reach the document, and the caller sees the same list. */
  lemma BuiltTagsAtMostTen(blocks: seq<Course.Block>, metadata: map<string, Course.Value>, courseId: Option<string>,
                           uuidHex: string, now: string, maxBlocks: int)
    requires IsUuidHex(uuidHex)
    ensures var (r, after) := BuildCourseDocSpec(blocks, metadata, courseId, uuidHex, now, maxBlocks);
      r.Ok? ==>
        && |r.value.tags| <= MAX_TAGS
        && ("tags" in metadata ==> metadata["tags"].StrList? && r.value.tags <= metadata["tags"].items
                                    && after["tags"] == Course.StrList(r.value.tags))
  {
    var id := ChosenCourseId(metadata, courseId, uuidHex);
    var m := TruncatedMetadata(metadata);
    if id.Ok? && m.Some? {
      DefaultsFacts(id.value, now);
      MergedLookup(Defaults(id.value, now), m.value, "tags");
    }
  }

  lemma MergedLookup(defaults: map<string, Course.Value>, m: map<string, Course.Value>, k: string)
    requires k in defaults || k in m
    ensures k in defaults + m
    ensures (defaults + m)[k] == if k in m then m[k] else defaults[k]
  {
  }

  /** A metadata key overrides its default, and the blocks are always the argument. */
  lemma BuiltMetadataOverridesDefaults(blocks: seq<Course.Block>, metadata: map<string, Course.Value>, courseId: Option<string>,
                                       uuidHex: string, now: string, maxBlocks: int)
    requires IsUuidHex(uuidHex)
    ensures var (r, _) := BuildCourseDocSpec(blocks, metadata, courseId, uuidHex, now, maxBlocks);
      r.Ok? ==>
        && r.value.blocks == blocks
        && ("version" in metadata ==> metadata["version"] == Course.Str(r.value.version))
        && ("version" !in metadata ==> r.value.version == Course.DEFAULT_VERSION)
        && ("level" !in metadata ==> r.value.level == Course.Beginner)
        && ("canonical" !in metadata ==> !r.value.canonical)
        && ("tags" !in metadata ==> r.value.tags == [])
        && ("courseId" in metadata ==> metadata["courseId"] == Course.Str(r.value.courseId))
  {
    var id := ChosenCourseId(metadata, courseId, uuidHex);
    var m := TruncatedMetadata(metadata);
    if id.Ok? && m.Some? {
      var d := Defaults(id.value, now);
      var r := Course.CreateCourseDoc(d + m.value, blocks, maxBlocks, now);
      if r.Ok? {
        DefaultsFacts(id.value, now);
        MergedLookup(d, m.value, "version");
        MergedLookup(d, m.value, "level");
        MergedLookup(d, m.value, "canonical");
        MergedLookup(d, m.value, "tags");
        MergedLookup(d, m.value, "courseId");
      }
    }
  }

  /** Without a caller id or a metadata override, the id is the sanitised title, '_' and 8 hex digits. */
  lemma GeneratedIdShape(blocks: seq<Course.Block>, metadata: map<string, Course.Value>,
                         uuidHex: string, now: string, maxBlocks: int)
    requires IsUuidHex(uuidHex)
    requires "courseId" !in metadata && "title" in metadata && metadata["title"].Str?
    ensures var (r, _) := BuildCourseDocSpec(blocks, metadata, None, uuidHex, now, maxBlocks);
      r.Ok? ==> r.value.courseId == SanitizeCourseId(metadata["title"].s) + "_" + uuidHex[..8]
  {
  }

  lemma DefaultsFacts(id: string, now: string)
    ensures var d := Defaults(id, now);
      && "courseId" in d && d["courseId"] == Course.Str(id)
      && "version" in d && d["version"] == Course.Str(Course.DEFAULT_VERSION)
      && "level" in d && d["level"] == Course.Str("beginner")
      && "tags" in d && d["tags"] == Course.StrList([])
      && "canonical" in d && d["canonical"] == Course.Bool(false)
  {
  }

  /** An id made of a letter-free sanitised title, '_' and digits is not lower case. */
  lemma IdWithoutLettersNotLower(title: string, hex8: string)
    requires forall i :: 0 <= i < |title| ==> !IsAsciiLower(LowerChar(title[i]))
    requires forall i :: 0 <= i < |hex8| ==> IsDigit(hex8[i])
    ensures !Course.IsLower(SanitizeCourseId(title) + "_" + hex8)
  {
    SanitizeKeepsExactlyAlnum(title);
    NoLettersInAlnum(Lower(title));
    NoLetterWhenAlnumHasNone(SanitizeCourseId(title));
    var id := SanitizeCourseId(title) + "_" + hex8;
    forall i | 0 <= i < |id|
      ensures !IsAsciiLower(id[i])
    {
      if i < |SanitizeCourseId(title)| {
        assert id[i] == SanitizeCourseId(title)[i];
      } else if i > |SanitizeCourseId(title)| {
        assert id[i] == hex8[i - |SanitizeCourseId(title)| - 1];
      }
    }
  }

  /**
   * A title without letters combined with an all-digit uuid prefix gives an id with no
   * cased character, which the courseId validator rejects.
   */
  lemma GeneratedIdWithoutLettersRejected(blocks: seq<Course.Block>, metadata: map<string, Course.Value>,
                                          uuidHex: string, now: string, maxBlocks: int)
    requires IsUuidHex(uuidHex) && forall i :: 0 <= i < 8 ==> IsDigit(uuidHex[i])
    requires "courseId" !in metadata && "title" in metadata && metadata["title"].Str?
    requires forall i :: 0 <= i < |metadata["title"].s| ==> !IsAsciiLower(LowerChar(metadata["title"].s[i]))
    ensures BuildCourseDocSpec(blocks, metadata, None, uuidHex, now, maxBlocks).0.Err?
  {
    var title := metadata["title"].s;
    var id := SanitizeCourseId(title) + "_" + uuidHex[..8];
    IdWithoutLettersNotLower(title, uuidHex[..8]);
    assert ChosenCourseId(metadata, None, uuidHex) == Ok(id);
    var m := TruncatedMetadata(metadata);
    if m.Some? {
      var d := Defaults(id, now);
      DefaultsFacts(id, now);
      MergedLookup(d, m.value, "courseId");
      assert Course.ValidateIdentity(d + m.value).Err?;
    }
  }

  lemma {:induction false} NoLettersInAlnum(s: string)
    requires forall i :: 0 <= i < |s| ==> !IsAsciiLower(s[i])
    ensures forall i :: 0 <= i < |Alnum(s)| ==> !IsAsciiLower(Alnum(s)[i])
    decreases |s|
  {
    if |s| > 0 {
      NoLettersInAlnum(s[1..]);
    }
  }
  lemma {:induction false} NoLetterWhenAlnumHasNone(r: string)
    requires forall i :: 0 <= i < |Alnum(r)| ==> !IsAsciiLower(Alnum(r)[i])
    ensures forall i :: 0 <= i < |r| ==> !IsAsciiLower(r[i])
    decreases |r|
  {
    if |r| > 0 {
      var pre: string := if IsAlnumLower(r[0]) then [r[0]] else [];
      assert Alnum(r) == pre + Alnum(r[1..]);
      if IsAsciiLower(r[0]) {
        assert Alnum(r)[0] == r[0];
      }
      forall i | 0 <= i < |Alnum(r[1..])|
        ensures !IsAsciiLower(Alnum(r[1..])[i])
      {
        assert Alnum(r[1..])[i] == Alnum(r)[i + |pre|];
      }
      NoLetterWhenAlnumHasNone(r[1..]);
    }
  }
}
