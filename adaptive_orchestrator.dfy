// The deterministic parts of the adaptive agent orchestrator: the adaptation
// thresholds, the day lookup in a plan, the events `generate_adaptive_content`
// emits, the two tool wrappers that fold those events' state deltas into a
// results record, and the two safety callbacks.
module AdaptiveOrchestrator {
  import opened Wrappers
  import opened Text

  datatype Adaptation = ReducedContentComplexity | IncreasedContentDepth | AdditionalExplanations | AdvancedChallenges
  {
    /** The tag written into `adaptive_adjustments`. */
    function Name(): string
    {
      match this
      case ReducedContentComplexity => "reduced_content_complexity"
      case IncreasedContentDepth => "increased_content_depth"
      case AdditionalExplanations => "additional_explanations"
      case AdvancedChallenges => "advanced_challenges"
    }

    /** The adjustments decided by completion time (the rest are decided by quiz score). */
    predicate ByTime()
    {
      ReducedContentComplexity? || IncreasedContentDepth?
    }
  }

  /**
   * `_calculate_adaptations`: one item from the average completion time (over an hour, or
   * under a quarter of an hour), then one from the average quiz score (under 0.6 or over
   * 0.9); a missing metric counts as 0.
   */
  function Adaptations(avgTime: Option<real>, quizScore: Option<real>): (r: seq<Adaptation>)
    ensures |r| <= 2
    ensures ReducedContentComplexity in r <==> avgTime.GetOr(0.0) > 60.0
    ensures IncreasedContentDepth in r <==> avgTime.GetOr(0.0) < 15.0
    ensures AdditionalExplanations in r <==> quizScore.GetOr(0.0) < 0.6
    ensures AdvancedChallenges in r <==> quizScore.GetOr(0.0) > 0.9
    ensures forall i, j :: 0 <= i < j < |r| ==> r[i].ByTime() && !r[j].ByTime()
    ensures avgTime.None? && quizScore.None? ==> r == [IncreasedContentDepth, AdditionalExplanations]
  {
    var t := avgTime.GetOr(0.0);
    var q := quizScore.GetOr(0.0);
    (if t > 60.0 then [ReducedContentComplexity] else if t < 15.0 then [IncreasedContentDepth] else [])
    + (if q < 0.6 then [AdditionalExplanations] else if q > 0.9 then [AdvancedChallenges] else [])
  }

  /** `_calculate_adaptations` as written: appends to a list. */
  method CalculateAdaptations(avgTime: Option<real>, quizScore: Option<real>) returns (adjustments: seq<Adaptation>)
    ensures adjustments == Adaptations(avgTime, quizScore)
  {
    adjustments := [];
    var t := if avgTime.Some? then avgTime.value else 0.0;
    if t > 60.0 {
      adjustments := adjustments + [ReducedContentComplexity];
    } else if t < 15.0 {
      adjustments := adjustments + [IncreasedContentDepth];
    }
    var q := if quizScore.Some? then quizScore.value else 0.0;
    if q < 0.6 {
      adjustments := adjustments + [AdditionalExplanations];
    } else if q > 0.9 {
      adjustments := adjustments + [AdvancedChallenges];
    }
  }

  /** A day of the plan held in the session. */
  datatype DayInfo = DayInfo(dayNumber: int, title: string)
  datatype Section = Section(days: seq<DayInfo>)

  /** The first day of one section carrying the number. */
  function FirstInSection(days: seq<DayInfo>, dayNumber: int): (r: Option<DayInfo>)
    ensures r.Some? ==> r.value in days && r.value.dayNumber == dayNumber
    ensures r.None? <==> forall d :: 0 <= d < |days| ==> days[d].dayNumber != dayNumber
    decreases |days|
  {
    if |days| == 0 then None
    else if days[0].dayNumber == dayNumber then Some(days[0])
    else FirstInSection(days[1..], dayNumber)
  }

  /** The first day carrying the number, scanning sections in order and days in order within each. */
  function FindDayInfo(sections: seq<Section>, dayNumber: int): (r: Option<DayInfo>)
    ensures r.Some? ==> r.value.dayNumber == dayNumber && exists s :: 0 <= s < |sections| && r.value in sections[s].days
    ensures r.None? <==> forall s, d :: 0 <= s < |sections| && 0 <= d < |sections[s].days| ==>
                                       sections[s].days[d].dayNumber != dayNumber
    decreases |sections|
  {
    if |sections| == 0 then None
    else
      var here := FirstInSection(sections[0].days, dayNumber);
      if here.Some? then here
      else
        var rest := FindDayInfo(sections[1..], dayNumber);
        assert rest.Some? ==> exists s :: 0 <= s < |sections| && rest.value in sections[s].days by {
          if rest.Some? {
            var s :| 0 <= s < |sections[1..]| && rest.value in sections[1..][s].days;
            assert sections[1..][s] == sections[s + 1];
          }
        }
        assert rest.None? ==> forall s, d :: 0 <= s < |sections| && 0 <= d < |sections[s].days| ==>
                                             sections[s].days[d].dayNumber != dayNumber by {
          if rest.None? {
            forall s, d | 0 <= s < |sections| && 0 <= d < |sections[s].days|
              ensures sections[s].days[d].dayNumber != dayNumber
            {
              if s > 0 {
                assert sections[s] == sections[1..][s - 1];
              }
            }
          }
        }
        rest
  }

  /** No day before position `d` of section `s`, in section-then-day order, carries the number. */
  predicate NoneBefore(sections: seq<Section>, dayNumber: int, s: int, d: int)
    requires 0 <= s < |sections| && 0 <= d <= |sections[s].days|
  {
    && (forall t, e :: 0 <= t < s && 0 <= e < |sections[t].days| ==> sections[t].days[e].dayNumber != dayNumber)
    && (forall e :: 0 <= e < d ==> sections[s].days[e].dayNumber != dayNumber)
  }

  /** `day` sits at some position of the plan, and no earlier position carries the number. */
  predicate FirstMatch(sections: seq<Section>, dayNumber: int, day: DayInfo)
  {
    exists s, d :: 0 <= s < |sections| && 0 <= d < |sections[s].days| && sections[s].days[d] == day
                   && NoneBefore(sections, dayNumber, s, d)
  }

  /** The day one section yields is its first day carrying the number. */
  lemma {:induction false} FirstInSectionIsFirst(days: seq<DayInfo>, dayNumber: int)
    requires FirstInSection(days, dayNumber).Some?
    ensures exists d :: 0 <= d < |days| && days[d] == FirstInSection(days, dayNumber).value
                        && forall e :: 0 <= e < d ==> days[e].dayNumber != dayNumber
    decreases |days|
  {
    if days[0].dayNumber != dayNumber {
      FirstInSectionIsFirst(days[1..], dayNumber);
      var d :| 0 <= d < |days[1..]| && days[1..][d] == FirstInSection(days[1..], dayNumber).value
               && forall e :: 0 <= e < d ==> days[1..][e].dayNumber != dayNumber;
      assert days[d + 1] == FirstInSection(days, dayNumber).value;
      forall e | 0 <= e < d + 1
        ensures days[e].dayNumber != dayNumber
      {
        if e > 0 {
          assert days[e] == days[1..][e - 1];
        }
      }
    } else {
      assert days[0] == FirstInSection(days, dayNumber).value;
    }
  }

  /** The day the plan yields is the first carrying the number in section-then-day order. */
  lemma {:induction false} FindDayInfoIsFirst(sections: seq<Section>, dayNumber: int)
    requires FindDayInfo(sections, dayNumber).Some?
    ensures FirstMatch(sections, dayNumber, FindDayInfo(sections, dayNumber).value)
    decreases |sections|
  {
    var found := FindDayInfo(sections, dayNumber).value;
    var here := FirstInSection(sections[0].days, dayNumber);
    if here.Some? {
      FirstInSectionIsFirst(sections[0].days, dayNumber);
      var d :| 0 <= d < |sections[0].days| && sections[0].days[d] == here.value
               && forall e :: 0 <= e < d ==> sections[0].days[e].dayNumber != dayNumber;
      assert NoneBefore(sections, dayNumber, 0, d);
    } else {
      FindDayInfoIsFirst(sections[1..], dayNumber);
      FirstMatchInRest(sections, dayNumber, found);
    }
  }

  /** A first match in the later sections stays first when the first section has no match. */
  lemma FirstMatchInRest(sections: seq<Section>, dayNumber: int, day: DayInfo)
    requires |sections| > 0 && FirstInSection(sections[0].days, dayNumber).None?
    requires FirstMatch(sections[1..], dayNumber, day)
    ensures FirstMatch(sections, dayNumber, day)
  {
    var rest := sections[1..];
    var s, d :| 0 <= s < |rest| && 0 <= d < |rest[s].days| && rest[s].days[d] == day
                && NoneBefore(rest, dayNumber, s, d);
    assert rest[s] == sections[s + 1];
    forall t, e | 0 <= t < s + 1 && 0 <= e < |sections[t].days|
      ensures sections[t].days[e].dayNumber != dayNumber
    {
      if t > 0 {
        assert sections[t] == rest[t - 1];
      }
    }
    assert NoneBefore(sections, dayNumber, s + 1, d);
  }

  /** `_get_day_info`: the nested loop that returns the first match. */
  method GetDayInfo(sections: seq<Section>, dayNumber: int) returns (r: Option<DayInfo>)
    ensures r == FindDayInfo(sections, dayNumber)
    ensures r.Some? ==> FirstMatch(sections, dayNumber, r.value)
  {
    var i := 0;
    while i < |sections|
      invariant 0 <= i <= |sections|
      invariant FindDayInfo(sections, dayNumber) == FindDayInfo(sections[i..], dayNumber)
    {
      var days := sections[i].days;
      var j := 0;
      while j < |days|
        invariant 0 <= j <= |days|
        invariant FirstInSection(days, dayNumber) == FirstInSection(days[j..], dayNumber)
      {
        if days[j].dayNumber == dayNumber {
          assert Some(days[j]) == FindDayInfo(sections, dayNumber);
          FindDayInfoIsFirst(sections, dayNumber);
          return Some(days[j]);
        }
        assert days[j..][1..] == days[j + 1..];
        j := j + 1;
      }
      assert sections[i..][1..] == sections[i + 1..];
      i := i + 1;
    }
    return None;
  }

  /** The values that travel in a state delta, with Python's truthiness. */
  datatype Value = Str(s: string) | Num(n: int) | Record(fieldCount: nat) | Items(adjustments: seq<Adaptation>) | NoValue
  {
    predicate Truthy()
    {
      match this
      case Str(s) => s != ""
      case Num(n) => n != 0
      case Record(k) => k > 0
      case Items(a) => |a| > 0
      case NoValue => false
    }
  }

  /** The `state_delta` of one event, in insertion order; an event without actions has an empty delta. */
  type Delta = seq<(string, Value)>

  /** What the content runner produced: a validated day (its dumped field count), no final response, or an exception. */
  datatype Generation = Generated(fieldCount: nat) | NoFinalResponse | Raised(message: string)

  /** The state key under which day `n`'s content is stored. */
  function DayContentKey(n: int): string
  {
    "day_" + IntToString(n) + "_content"
  }

  predicate StartsWith(s: string, p: string) { p <= s }
  predicate EndsWith(s: string, p: string) { |p| <= |s| && s[|s| - |p|..] == p }

  /**
   * The state deltas of the events `generate_adaptive_content` yields: a missing session, a
   * missing plan or user, the progress record, then plan completion, a failed generation,
   * an exception, or the new day's content with the adjustments.
   */
  function AdaptiveEvents(sessionFound: bool, plan: Option<seq<Section>>, userData: bool, lastDay: Option<int>,
                          progressFields: nat, avgTime: Option<real>, quizScore: Option<real>,
                          now: string, generation: Generation): (r: seq<Delta>)
    ensures !sessionFound ==> r == [[("error", Str("no_session_found"))]]
    ensures 1 <= |r|
  {
    if !sessionFound then [[("error", Str("no_session_found"))]]
    else if plan.None? || !userData then [[("error", Str("missing_session_data"))]]
    else
      var progress := [("progress_data", Record(progressFields)), ("analysis_timestamp", Str(now))];
      var next := lastDay.GetOr(0) + 1;
      if FindDayInfo(plan.value, next).None? then [progress, [("status", Str("plan_completed"))]]
      else
        match generation
        case NoFinalResponse => [progress, [], [("error", Str("content_generation_failed"))]]
        case Raised(m) => [progress, [], [("error", Str(m))]]
        case Generated(k) =>
          [progress, [], [("last_generated_day", Num(next)), (DayContentKey(next), Record(k)),
                          ("last_content_generation", Str(now)),
                          ("adaptive_adjustments", Items(Adaptations(avgTime, quizScore)))]]
  }

  /** The `results` dict of `generate_adaptive_content_tool`; `error` is absent until an error key arrives. */
  datatype AdaptiveResults = AdaptiveResults(dayContent: Value, dayNumber: Value, adjustments: Value,
                                             status: Value, error: Option<Value>)

  const AdaptiveStart := AdaptiveResults(NoValue, NoValue, Items([]), Str("in_progress"), None)

  /** One key of a delta, dispatched in the wrapper's order. */
  function AdaptiveKey(res: AdaptiveResults, key: string, value: Value): (r: AdaptiveResults)
    ensures key == "error" ==> r.status == Str("error") && r.error == Some(value)
  {
    if key == "last_generated_day" then res.(dayNumber := value)
    else if StartsWith(key, "day_") && EndsWith(key, "_content") then res.(dayContent := value)
    else if key == "adaptive_adjustments" then res.(adjustments := value)
    else if key == "error" then res.(status := Str("error"), error := Some(value))
    else if key == "status" then res.(status := value)
    else res
  }

  function AdaptiveDelta(res: AdaptiveResults, delta: Delta): AdaptiveResults
    decreases |delta|
  {
    if |delta| == 0 then res
    else AdaptiveKey(AdaptiveDelta(res, delta[..|delta| - 1]), delta[|delta| - 1].0, delta[|delta| - 1].1)
  }

  function AdaptiveFold(events: seq<Delta>): AdaptiveResults
    decreases |events|
  {
    if |events| == 0 then AdaptiveStart
    else AdaptiveDelta(AdaptiveFold(events[..|events| - 1]), events[|events| - 1])
  }

  /** The closing rule: still in progress with a truthy day content means completed. */
  function AdaptiveFinish(res: AdaptiveResults): (r: AdaptiveResults)
    ensures r.status == Str("completed") <==>
            res.status == Str("completed") || (res.status == Str("in_progress") && res.dayContent.Truthy())
    ensures r.(status := res.status) == res
  {
    if res.status == Str("in_progress") && res.dayContent.Truthy() then res.(status := Str("completed")) else res
  }

  /** The fold of one delta, as the inner loop runs it. */
  method FoldAdaptiveDelta(res: AdaptiveResults, delta: Delta) returns (out: AdaptiveResults)
    ensures out == AdaptiveDelta(res, delta)
  {
    out := res;
    var j := 0;
    while j < |delta|
      invariant 0 <= j <= |delta|
      invariant out == AdaptiveDelta(res, delta[..j])
    {
      var (key, value) := delta[j];
      if key == "last_generated_day" {
        out := out.(dayNumber := value);
      } else if StartsWith(key, "day_") && EndsWith(key, "_content") {
        out := out.(dayContent := value);
      } else if key == "adaptive_adjustments" {
        out := out.(adjustments := value);
      } else if key == "error" {
        out := out.(status := Str("error"), error := Some(value));
      } else if key == "status" {
        out := out.(status := value);
      }
      assert delta[..j + 1][..j] == delta[..j];
      j := j + 1;
    }
    assert delta[..j] == delta;
  }

  /** `generate_adaptive_content_tool`: folds every event's delta, then applies the closing rule. */
  method GenerateAdaptiveContentTool(events: seq<Delta>) returns (results: AdaptiveResults)
    ensures results == AdaptiveFinish(AdaptiveFold(events))
  {
    results := AdaptiveStart;
    var i := 0;
    while i < |events|
      invariant 0 <= i <= |events|
      invariant results == AdaptiveFold(events[..i])
    {
      results := FoldAdaptiveDelta(results, events[i]);
      assert events[..i + 1][..i] == events[..i];
      i := i + 1;
    }
    assert events[..i] == events;
    if results.status == Str("in_progress") && results.dayContent.Truthy() {
      results := results.(status := Str("completed"));
    }
  }

  /** The content key of any day starts with `day_` and ends with `_content`. */
  lemma DayContentKeyShape(n: int)
    ensures StartsWith(DayContentKey(n), "day_") && EndsWith(DayContentKey(n), "_content")
    ensures DayContentKey(n) != "last_generated_day"
  {
    var k := DayContentKey(n);
    var m := IntToString(n);
    assert k == "day_" + (m + "_content");
    assert k[|k| - 8..] == "_content";
    assert k[0] == 'd';
  }

  /** A delta with a single key. */
  lemma SingleKey(res: AdaptiveResults, key: string, value: Value)
    ensures AdaptiveDelta(res, [(key, value)]) == AdaptiveKey(res, key, value)
  {
    assert [(key, value)][..0] == [];
  }

  /** The bookkeeping keys the wrapper ignores. */
  lemma IgnoredKeys(res: AdaptiveResults, v: Value)
    ensures AdaptiveKey(res, "progress_data", v) == res
    ensures AdaptiveKey(res, "analysis_timestamp", v) == res
    ensures AdaptiveKey(res, "last_content_generation", v) == res
  {
    assert !StartsWith("progress_data", "day_") by { assert "progress_data"[0] != "day_"[0]; }
    assert !StartsWith("analysis_timestamp", "day_") by { assert "analysis_timestamp"[0] != "day_"[0]; }
    assert !StartsWith("last_content_generation", "day_") by { assert "last_content_generation"[0] != "day_"[0]; }
  }

  /** The progress record changes nothing in the wrapper's results. */
  lemma {:induction false} ProgressIgnored(progressFields: nat, now: string)
    ensures AdaptiveFold([[("progress_data", Record(progressFields)), ("analysis_timestamp", Str(now))]]) == AdaptiveStart
  {
    var progress := [("progress_data", Record(progressFields)), ("analysis_timestamp", Str(now))];
    var evs := [progress];
    assert evs[..0] == [];
    assert progress[..1] == [progress[0]];
    assert progress[..1][..0] == [];
    IgnoredKeys(AdaptiveStart, Record(progressFields));
    IgnoredKeys(AdaptiveStart, Str(now));
    assert AdaptiveDelta(AdaptiveStart, progress[..1]) == AdaptiveStart;
  }

  /** The two-event fold that plan completion produces (after the progress record). */
  lemma {:induction false} ProgressThen(progressFields: nat, now: string, last: Delta)
    ensures AdaptiveFold([[("progress_data", Record(progressFields)), ("analysis_timestamp", Str(now))], last])
            == AdaptiveDelta(AdaptiveStart, last)
  {
    var progress := [("progress_data", Record(progressFields)), ("analysis_timestamp", Str(now))];
    var evs := [progress, last];
    assert evs[..1] == [progress];
    ProgressIgnored(progressFields, now);
  }

  /** The three-event fold of the later exits: progress record, the runner's announcement, the last event. */
  lemma {:induction false} ProgressAnnounceThen(progressFields: nat, now: string, last: Delta)
    ensures AdaptiveFold([[("progress_data", Record(progressFields)), ("analysis_timestamp", Str(now))], [], last])
            == AdaptiveDelta(AdaptiveStart, last)
  {
    var progress := [("progress_data", Record(progressFields)), ("analysis_timestamp", Str(now))];
    var evs := [progress, [], last];
    assert evs[..2] == [progress, []];
    ProgressThen(progressFields, now, []);
  }

  /** The wrapper's results for the event that carries a new day. */
  lemma {:induction false} NewDayDelta(next: int, k: nat, now: string, items: seq<Adaptation>)
    ensures var res := AdaptiveDelta(AdaptiveStart, [("last_generated_day", Num(next)), (DayContentKey(next), Record(k)),
                                                     ("last_content_generation", Str(now)), ("adaptive_adjustments", Items(items))]);
            res == AdaptiveResults(Record(k), Num(next), Items(items), Str("in_progress"), None)
  {
    var last := [("last_generated_day", Num(next)), (DayContentKey(next), Record(k)),
                 ("last_content_generation", Str(now)), ("adaptive_adjustments", Items(items))];
    DayContentKeyShape(next);
    assert last[..1][..0] == [];
    assert last[..2][..1] == last[..1];
    assert last[..3][..2] == last[..2];
    assert last[..4][..3] == last[..3];
    assert last[..4] == last;
    var r1 := AdaptiveKey(AdaptiveStart, "last_generated_day", Num(next));
    assert AdaptiveDelta(AdaptiveStart, last[..1]) == r1;
    var r2 := AdaptiveKey(r1, DayContentKey(next), Record(k));
    assert AdaptiveDelta(AdaptiveStart, last[..2]) == r2;
    IgnoredKeys(r2, Str(now));
    assert AdaptiveDelta(AdaptiveStart, last[..3]) == r2;
  }

  /** The wrapper's outcome once a day was found: completed with its number and adjustments, or an error. */
  lemma {:induction false} GeneratedOutcome(plan: seq<Section>, lastDay: Option<int>, progressFields: nat,
                                            avgTime: Option<real>, quizScore: Option<real>, now: string,
                                            generation: Generation)
    requires FindDayInfo(plan, lastDay.GetOr(0) + 1).Some?
    ensures var res := AdaptiveFinish(AdaptiveFold(AdaptiveEvents(true, Some(plan), true, lastDay, progressFields,
                                                                  avgTime, quizScore, now, generation)));
            match generation
            case NoFinalResponse => res.status == Str("error") && res.error == Some(Str("content_generation_failed"))
            case Raised(m) => res.status == Str("error") && res.error == Some(Str(m))
            case Generated(k) =>
              && res.dayNumber == Num(lastDay.GetOr(0) + 1)
              && res.dayContent == Record(k)
              && res.adjustments == Items(Adaptations(avgTime, quizScore))
              && res.status == (if k > 0 then Str("completed") else Str("in_progress"))
  {
    var next := lastDay.GetOr(0) + 1;
    match generation
    case NoFinalResponse =>
      ProgressAnnounceThen(progressFields, now, [("error", Str("content_generation_failed"))]);
      SingleKey(AdaptiveStart, "error", Str("content_generation_failed"));
    case Raised(m) =>
      ProgressAnnounceThen(progressFields, now, [("error", Str(m))]);
      SingleKey(AdaptiveStart, "error", Str(m));
    case Generated(k) =>
      var items := Adaptations(avgTime, quizScore);
      ProgressAnnounceThen(progressFields, now, [("last_generated_day", Num(next)), (DayContentKey(next), Record(k)),
                                                 ("last_content_generation", Str(now)), ("adaptive_adjustments", Items(items))]);
      NewDayDelta(next, k, now, items);
  }

  /**
   * End to end: the tool wrapper's outcome for each early exit of `generate_adaptive_content`
   * (the outcomes after a day was found are `GeneratedOutcome`).
   */
  lemma {:induction false} AdaptiveToolOutcome(sessionFound: bool, plan: Option<seq<Section>>, userData: bool,
                                               lastDay: Option<int>, progressFields: nat, avgTime: Option<real>,
                                               quizScore: Option<real>, now: string, generation: Generation)
    ensures var res := AdaptiveFinish(AdaptiveFold(AdaptiveEvents(sessionFound, plan, userData, lastDay, progressFields,
                                                                  avgTime, quizScore, now, generation)));
            && (!sessionFound ==> res.status == Str("error") && res.error == Some(Str("no_session_found")))
            && (sessionFound && (plan.None? || !userData) ==>
                  res.status == Str("error") && res.error == Some(Str("missing_session_data")))
            && (sessionFound && plan.Some? && userData && FindDayInfo(plan.value, lastDay.GetOr(0) + 1).None? ==>
                  res.status == Str("plan_completed") && res.dayContent == NoValue)
  {
    var evs: seq<Delta> := AdaptiveEvents(sessionFound, plan, userData, lastDay, progressFields, avgTime, quizScore, now, generation);
    if !sessionFound || plan.None? || !userData {
      assert evs[..0] == [];
      var v: Value := evs[0][0].1;
      SingleKey(AdaptiveStart, "error", v);
    } else if FindDayInfo(plan.value, lastDay.GetOr(0) + 1).None? {
      ProgressThen(progressFields, now, [("status", Str("plan_completed"))]);
      SingleKey(AdaptiveStart, "status", Str("plan_completed"));
    }
  }

  /** The `results` dict of `analyze_and_plan_course_tool`. */
  datatype AnalyzeResults = AnalyzeResults(skillAnalysis: Value, learningPlan: Value, pedagogicalValidation: Value,
                                           firstDayContent: Value, status: Value, error: Option<Value>)

  const AnalyzeStart := AnalyzeResults(NoValue, NoValue, NoValue, NoValue, Str("in_progress"), None)

  /**
   * One key of a delta. A key already in the dict is overwritten, and `error` is in the
   * dict once the first error arrived, so only the first error sets the status.
   */
  function AnalyzeKey(res: AnalyzeResults, key: string, value: Value): (r: AnalyzeResults)
    ensures key == "error" && res.error.None? ==> r.status == Str("error") && r.error == Some(value)
    ensures key == "error" && res.error.Some? ==> r.status == res.status && r.error == Some(value)
    ensures key != "error" && key != "status" ==> r.status == res.status && r.error == res.error
  {
    if key == "skill_analysis" then res.(skillAnalysis := value)
    else if key == "learning_plan" then res.(learningPlan := value)
    else if key == "pedagogical_validation" then res.(pedagogicalValidation := value)
    else if key == "first_day_content" then res.(firstDayContent := value)
    else if key == "status" then res.(status := value)
    else if key == "error" then
      if res.error.Some? then res.(error := Some(value)) else res.(status := Str("error"), error := Some(value))
    else res
  }

  function AnalyzeDelta(res: AnalyzeResults, delta: Delta): AnalyzeResults
    decreases |delta|
  {
    if |delta| == 0 then res
    else AnalyzeKey(AnalyzeDelta(res, delta[..|delta| - 1]), delta[|delta| - 1].0, delta[|delta| - 1].1)
  }

  function AnalyzeFold(events: seq<Delta>): AnalyzeResults
    decreases |events|
  {
    if |events| == 0 then AnalyzeStart
    else AnalyzeDelta(AnalyzeFold(events[..|events| - 1]), events[|events| - 1])
  }

  /** The fold of one delta, as the inner loop of `analyze_and_plan_course_tool` runs it. */
  method FoldAnalyzeDelta(res: AnalyzeResults, delta: Delta) returns (out: AnalyzeResults)
    ensures out == AnalyzeDelta(res, delta)
  {
    out := res;
    var j := 0;
    while j < |delta|
      invariant 0 <= j <= |delta|
      invariant out == AnalyzeDelta(res, delta[..j])
    {
      var (key, value) := delta[j];
      if key == "skill_analysis" {
        out := out.(skillAnalysis := value);
      } else if key == "learning_plan" {
        out := out.(learningPlan := value);
      } else if key == "pedagogical_validation" {
        out := out.(pedagogicalValidation := value);
      } else if key == "first_day_content" {
        out := out.(firstDayContent := value);
      } else if key == "status" {
        out := out.(status := value);
      } else if key == "error" {
        if out.error.Some? {
          out := out.(error := Some(value));
        } else {
          out := out.(status := Str("error"), error := Some(value));
        }
      }
      assert delta[..j + 1][..j] == delta[..j];
      j := j + 1;
    }
    assert delta[..j] == delta;
  }

  /** `analyze_and_plan_course_tool`: folds every event's delta into the results dict. */
  method AnalyzeAndPlanCourseTool(events: seq<Delta>) returns (results: AnalyzeResults)
    ensures results == AnalyzeFold(events)
  {
    results := AnalyzeStart;
    var i := 0;
    while i < |events|
      invariant 0 <= i <= |events|
      invariant results == AnalyzeFold(events[..i])
    {
      results := FoldAnalyzeDelta(results, events[i]);
      assert events[..i + 1][..i] == events[..i];
      i := i + 1;
    }
    assert events[..i] == events;
  }

  /** Keys other than `status` and `error` never touch the status or the recorded error. */
  lemma {:induction false} AnalyzeDeltaKeepsStatus(res: AnalyzeResults, delta: Delta)
    requires forall k :: 0 <= k < |delta| ==> delta[k].0 != "status" && delta[k].0 != "error"
    ensures AnalyzeDelta(res, delta).status == res.status && AnalyzeDelta(res, delta).error == res.error
    decreases |delta|
  {
    if |delta| > 0 {
      AnalyzeDeltaKeepsStatus(res, delta[..|delta| - 1]);
    }
  }

  /**
   * An error, then only ordinary keys: the status stays `error`. A second error arriving
   * after a `status` key would only overwrite the message, not the status.
   */
  lemma {:induction false} AnalyzeErrorSticks(res: AnalyzeResults, value: Value, rest: Delta)
    requires res.error.None?
    requires forall k :: 0 <= k < |rest| ==> rest[k].0 != "status"
    ensures AnalyzeDelta(res, [("error", value)] + rest).status == Str("error")
    decreases |rest|
  {
    var d := [("error", value)] + rest;
    if |rest| == 0 {
      assert d[..0] == [];
    } else {
      assert d[..|d| - 1] == [("error", value)] + rest[..|rest| - 1];
      AnalyzeErrorSticks(res, value, rest[..|rest| - 1]);
      var before := AnalyzeDelta(res, d[..|d| - 1]);
      assert before.error.Some? by {
        ErrorRecorded(res, value, rest[..|rest| - 1]);
      }
    }
  }

  /** Once an error key has been folded, the results always hold an error. */
  lemma {:induction false} ErrorRecorded(res: AnalyzeResults, value: Value, rest: Delta)
    ensures AnalyzeDelta(res, [("error", value)] + rest).error.Some?
    decreases |rest|
  {
    var d := [("error", value)] + rest;
    if |rest| == 0 {
      assert d[..0] == [];
    } else {
      assert d[..|d| - 1] == [("error", value)] + rest[..|rest| - 1];
      ErrorRecorded(res, value, rest[..|rest| - 1]);
    }
  }

  const BlockedSkills: seq<string> := ["hacking malicioso", "actividades ilegales"]
  const BlockedTerms: seq<string> := ["inappropriate", "offensive", "harmful"]

  /** What `before_tool_callback` returns instead of running the tool. */
  datatype ToolRefusal = ToolRefusal(success: bool, error: string)

  /**
   * `before_tool_callback`: only `analyze_and_plan_course` is checked, and it is refused when
   * the lower-cased skill (empty when absent) contains a blocked phrase.
   */
  function BeforeToolCallback(toolName: string, skill: Option<string>): (r: Option<ToolRefusal>)
    ensures r.Some? ==> r.value == ToolRefusal(false, "Esta habilidad no puede ser enseñada en nuestra plataforma")
    ensures toolName != "analyze_and_plan_course" || skill.None? ==> r.None?
    ensures r.Some? <==> toolName == "analyze_and_plan_course"
                         && exists b :: 0 <= b < |BlockedSkills| && Contains(Lower(skill.GetOr("")), BlockedSkills[b])
  {
    var lowered := Lower(skill.GetOr(""));
    if toolName == "analyze_and_plan_course"
       && (Contains(lowered, BlockedSkills[0]) || Contains(lowered, BlockedSkills[1]))
    then Some(ToolRefusal(false, "Esta habilidad no puede ser enseñada en nuestra plataforma"))
    else None
  }

  /** Lower-casing distributes over concatenation. */
  lemma LowerConcat(a: string, b: string)
    ensures Lower(a + b) == Lower(a) + Lower(b)
  {
  }

  /** A skill that mentions a blocked phrase in any letter case is refused. */
  lemma BlockedSkillInAnyCase(before: string, after: string)
    ensures BeforeToolCallback("analyze_and_plan_course", Some(before + "Hacking Malicioso" + after)).Some?
  {
    LowerConcat(before + "Hacking Malicioso", after);
    LowerConcat(before, "Hacking Malicioso");
    assert Lower("Hacking Malicioso") == "hacking malicioso";
    ContainsConcat(Lower(before), "hacking malicioso", Lower(after));
  }

  /** A text part is blocked when its lower-cased form contains a blocked term. */
  predicate PartBlocked(text: string)
  {
    exists t :: 0 <= t < |BlockedTerms| && Contains(Lower(text), BlockedTerms[t])
  }

  /** `before_model_callback`'s answer: a canned refusal, go ahead with the (prefixed) system instruction, or an exception. */
  datatype ModelDecision = BlockedReply(text: string) | Proceed(systemInstruction: string) | CallbackRaised(error: string)

  /**
   * The request's messages, each a list of parts; a part's `text` is `None` for the function-call
   * and function-response parts of a tool turn.
   */
  type Contents = seq<seq<Option<string>>>

  /** Some part has text that mentions a blocked term. */
  predicate AnyBlocked(contents: Contents)
  {
    exists m, p :: 0 <= m < |contents| && 0 <= p < |contents[m]| && contents[m][p].Some? && PartBlocked(contents[m][p].value)
  }

  /** Some part has no text. */
  predicate TextlessPart(contents: Contents)
  {
    exists m, p :: 0 <= m < |contents| && 0 <= p < |contents[m]| && contents[m][p].None?
  }

  function ValidatedInstruction(systemInstruction: string): string
  {
    if systemInstruction == "" then "" else "[Validado por Callback] " + systemInstruction
  }

  /** Whether the text of one part mentions a blocked term: the scan over the three terms. */
  method ScanPart(text: string) returns (blocked: bool)
    ensures blocked <==> PartBlocked(text)
  {
    var lowered := Lower(text);
    var t := 0;
    while t < |BlockedTerms|
      invariant 0 <= t <= |BlockedTerms|
      invariant forall t' :: 0 <= t' < t ==> !Contains(lowered, BlockedTerms[t'])
    {
      if Contains(lowered, BlockedTerms[t]) {
        return true;
      }
      t := t + 1;
    }
    return false;
  }

  /**
   * `before_model_callback` as written: `hasattr(part, 'text')` holds for every part, so
   * `part.text.lower()` runs on a part whose text is `None` and raises `AttributeError`.
   * The scan stops at the first part that has no text or mentions a blocked term.
   */
  method BeforeModelCallbackAsWritten(contents: Contents, systemInstruction: string) returns (r: ModelDecision)
    ensures r.BlockedReply? ==> AnyBlocked(contents) && r.text == "Lo siento, ese contenido no está permitido."
    ensures r.CallbackRaised? ==> TextlessPart(contents) && r.error == "'NoneType' object has no attribute 'lower'"
    ensures r.Proceed? <==> !TextlessPart(contents) && !AnyBlocked(contents)
    ensures TextlessPart(contents) && !AnyBlocked(contents) ==> r.CallbackRaised?
    ensures r.Proceed? ==> r.systemInstruction == ValidatedInstruction(systemInstruction)
  {
    var m := 0;
    while m < |contents|
      invariant 0 <= m <= |contents|
      invariant forall m', p :: 0 <= m' < m && 0 <= p < |contents[m']| ==>
                  contents[m'][p].Some? && !PartBlocked(contents[m'][p].value)
    {
      var p := 0;
      while p < |contents[m]|
        invariant 0 <= p <= |contents[m]|
        invariant forall p' :: 0 <= p' < p ==> contents[m][p'].Some? && !PartBlocked(contents[m][p'].value)
      {
        if contents[m][p].None? {
          return CallbackRaised("'NoneType' object has no attribute 'lower'");
        }
        var blocked := ScanPart(contents[m][p].value);
        if blocked {
          return BlockedReply("Lo siento, ese contenido no está permitido.");
        }
        p := p + 1;
      }
      m := m + 1;
    }
    return Proceed(ValidatedInstruction(systemInstruction));
  }

  /** A tool turn: the model's function call is a part without text, so the callback as written raises. */
  lemma ToolTurnRaisesAsWritten()
    ensures var contents: Contents := [[Some("")], [None]];
            TextlessPart(contents) && !AnyBlocked(contents)
  {
    var contents: Contents := [[Some("")], [None]];
    assert contents[1][0].None?;
    assert Lower("") == "";
  }

  /**
   * `before_model_callback` as intended: parts without text are skipped; the first part that
   * mentions a blocked term refuses. Otherwise a non-empty system instruction gets the
   * validation prefix.
   */
  method BeforeModelCallback(contents: Contents, systemInstruction: string) returns (r: ModelDecision)
    ensures !r.CallbackRaised?
    ensures r.BlockedReply? <==> AnyBlocked(contents)
    ensures r.BlockedReply? ==> r.text == "Lo siento, ese contenido no está permitido."
    ensures r.Proceed? ==> r.systemInstruction == ValidatedInstruction(systemInstruction)
  {
    var m := 0;
    while m < |contents|
      invariant 0 <= m <= |contents|
      invariant forall m', p :: 0 <= m' < m && 0 <= p < |contents[m']| && contents[m'][p].Some? ==>
                  !PartBlocked(contents[m'][p].value)
    {
      var p := 0;
      while p < |contents[m]|
        invariant 0 <= p <= |contents[m]|
        invariant forall p' :: 0 <= p' < p && contents[m][p'].Some? ==> !PartBlocked(contents[m][p'].value)
      {
        if contents[m][p].Some? {
          var blocked := ScanPart(contents[m][p].value);
          if blocked {
            return BlockedReply("Lo siento, ese contenido no está permitido.");
          }
        }
        p := p + 1;
      }
      m := m + 1;
    }
    return Proceed(ValidatedInstruction(systemInstruction));
  }

  /** A part that mentions a blocked term in any letter case is blocked. */
  lemma BlockedTermInAnyCase(before: string, after: string)
    ensures PartBlocked(before + "Harmful" + after)
  {
    LowerConcat(before + "Harmful", after);
    LowerConcat(before, "Harmful");
    assert Lower("Harmful") == "harmful";
    ContainsConcat(Lower(before), "harmful", Lower(after));
    assert Contains(Lower(before + "Harmful" + after), BlockedTerms[2]);
  }
}
