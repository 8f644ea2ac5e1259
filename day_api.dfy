// The `/day` endpoint: a completed day is stamped with its score, feedback and
// completion time and re-saved, the next day is generated, and the stored next
// day is served together with whether it is the last day of the roadmap. Every
// failure inside the handler, including its own 400 and 404 refusals, reaches
// the client as a 500 whose detail is the text of the exception. The next-day
// generator and the clock are inputs.
module DayApi {
  import opened Wrappers
  import Storage

  datatype DayRequest = DayRequest(uid: string, courseId: string, currentDay: int, completed: bool,
                                   score: Option<real>, feedback: Option<string>)

  datatype DayResponse = DayResponse(dayNumber: int, content: Storage.EnrollmentDay, isLastDay: bool)

  /** What the client receives: the next day, or a 500 carrying the exception's text. */
  datatype DayOutcome = Served(response: DayResponse) | ServerError(detail: string)

  /** The texts of the handler's own `HTTPException`s, as `str` renders them: status, colon, detail. */
  const NOT_COMPLETED: string := "400: Current day must be completed before getting next day"
  const GENERATION_FAILED: string := "500: Failed to generate next day content"
  const ENROLLMENT_MISSING: string := "404: Enrollment not found"
  const NEXT_DAY_MISSING: string := "404: Next day content not found"

  /**
   * The number of days over a list of roadmap sections, summed front to back; a section
   * without a `days` key raises `KeyError`, whose text is the quoted key.
   */
  function SectionDays(sections: seq<Storage.RoadmapSection>): (r: Result<nat>)
    ensures r.Ok? <==> forall i :: 0 <= i < |sections| ==> sections[i].days.Some?
    ensures r.Err? ==> r.error == "'days'"
    ensures |sections| == 0 ==> r == Ok(0)
  {
    if |sections| == 0 then Ok(0)
    else if sections[0].days.None? then Err("'days'")
    else
      var rest := SectionDays(sections[1..]);
      if rest.Err? then rest else Ok(|sections[0].days.value| + rest.value)
  }

  /** `total_days`: a roadmap without `sections` raises `KeyError('sections')`. */
  function TotalDays(roadmap: Storage.Roadmap): (r: Result<nat>)
    ensures roadmap.sections.None? ==> r == Err("'sections'")
    ensures roadmap.sections.Some? ==> r == SectionDays(roadmap.sections.value)
  {
    if roadmap.sections.None? then Err("'sections'") else SectionDays(roadmap.sections.value)
  }

  /** The day count of two lists of sections put together is the sum of their counts. */
  lemma {:induction false} SectionDaysAppend(a: seq<Storage.RoadmapSection>, b: seq<Storage.RoadmapSection>)
    requires SectionDays(a).Ok? && SectionDays(b).Ok?
    ensures SectionDays(a + b) == Ok(SectionDays(a).value + SectionDays(b).value)
    decreases |a|
  {
    if |a| == 0 {
      assert a + b == b;
    } else {
      assert (a + b)[1..] == a[1..] + b;
      assert (a + b)[0] == a[0];
      SectionDaysAppend(a[1..], b);
    }
  }

  /** The current day's record once completed: score, feedback and completion time replaced, content kept. */
  function Completed(day: Storage.EnrollmentDay, request: DayRequest, now: Storage.Timestamp): (d: Storage.EnrollmentDay)
    ensures d.score == request.score && d.feedback == request.feedback && d.completedAt == Some(now)
    ensures d.title == day.title && d.isActionDay == day.isActionDay && d.blocks == day.blocks
            && d.actionTask == day.actionTask
  {
    day.(score := request.score, feedback := request.feedback, completedAt := Some(now))
  }

  /**
   * What the handler answers once the current day is recorded, from the generator's success,
   * the stored enrollment and the stored next day: the checks in the handler's order.
   */
  function Answer(request: DayRequest, generated: bool, enrollment: Option<Storage.Enrollment>,
                  nextDay: Option<Storage.EnrollmentDay>): (r: DayOutcome)
    ensures !generated ==> r == ServerError(GENERATION_FAILED)
    ensures generated && enrollment.None? ==> r == ServerError(ENROLLMENT_MISSING)
    ensures generated && enrollment.Some? && nextDay.None? ==> r == ServerError(NEXT_DAY_MISSING)
    ensures r.Served? <==> generated && enrollment.Some? && nextDay.Some? && TotalDays(enrollment.value.roadmap).Ok?
    ensures r.Served? ==> && r.response.dayNumber == request.currentDay + 1
                          && r.response.content == nextDay.value
                          && (r.response.isLastDay <==> request.currentDay + 1 >= TotalDays(enrollment.value.roadmap).value)
    ensures generated && enrollment.Some? && nextDay.Some? && TotalDays(enrollment.value.roadmap).Err? ==>
              r == ServerError(TotalDays(enrollment.value.roadmap).error)
  {
    if !generated then ServerError(GENERATION_FAILED)
    else if enrollment.None? then ServerError(ENROLLMENT_MISSING)
    else if nextDay.None? then ServerError(NEXT_DAY_MISSING)
    else
      var total := TotalDays(enrollment.value.roadmap);
      if total.Err? then ServerError(total.error)
      else Served(DayResponse(request.currentDay + 1, nextDay.value, request.currentDay + 1 >= total.value))
  }

  /**
   * `get_next_day`, with the generator's success as `generated` and the generator assumed to
   * leave the store as it found it. An incomplete day is refused before anything is written;
   * otherwise an existing current-day record is stamped and re-saved, even if it was already
   * completed, whatever the generator then does.
   */
  method GetNextDay(storage: Storage.StorageService, request: DayRequest, now: Storage.Timestamp, generated: bool)
    returns (r: DayOutcome)
    requires storage.Valid()
    modifies storage
    ensures storage.Valid()
    ensures !request.completed ==> r == ServerError(NOT_COMPLETED) && unchanged(storage)
    ensures request.completed ==>
              var current := old(storage.GetDayContent(request.uid, request.courseId, request.currentDay));
              && (current.Some? ==>
                    storage.days == old(storage.days)[Storage.DayKey(request.uid, request.courseId, request.currentDay)
                                                      := Completed(current.value, request, now)])
              && (current.None? ==> storage.days == old(storage.days))
    ensures storage.enrollments == old(storage.enrollments)
    ensures storage.preferences == old(storage.preferences) && storage.profiles == old(storage.profiles)
    ensures request.completed ==>
              r == Answer(request, generated, old(storage.GetEnrollment(request.uid, request.courseId)),
                          old(storage.GetDayContent(request.uid, request.courseId, request.currentDay + 1)))
  {
    if !request.completed {
      return ServerError(NOT_COMPLETED);
    }
    var current := storage.GetDayContent(request.uid, request.courseId, request.currentDay);
    if current.Some? {
      storage.SaveDayContent(request.uid, request.courseId, request.currentDay, Completed(current.value, request, now));
    }
    if !generated {
      return ServerError(GENERATION_FAILED);
    }
    var enrollment := storage.GetEnrollment(request.uid, request.courseId);
    if enrollment.None? {
      return ServerError(ENROLLMENT_MISSING);
    }
    var nextDayNumber := request.currentDay + 1;
    var nextDay := storage.GetDayContent(request.uid, request.courseId, nextDayNumber);
    if nextDay.None? {
      return ServerError(NEXT_DAY_MISSING);
    }
    var total := TotalDays(enrollment.value.roadmap);
    if total.Err? {
      return ServerError(total.error);
    }
    return Served(DayResponse(nextDayNumber, nextDay.value, nextDayNumber >= total.value));
  }

  /**
   * In a roadmap of `n` days, serving day `n` (after completing day `n - 1`) flags the last day,
   * and serving any earlier day does not.
   */
  lemma LastDayFlag(request: DayRequest, enrollment: Storage.Enrollment, nextDay: Storage.EnrollmentDay, n: nat)
    requires TotalDays(enrollment.roadmap) == Ok(n)
    ensures var r := Answer(request, true, Some(enrollment), Some(nextDay));
            r.Served? && (r.response.isLastDay <==> request.currentDay + 1 >= n)
  {
  }
}
