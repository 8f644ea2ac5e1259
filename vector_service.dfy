// The vector-index service: the boolean outcome of adding, updating and removing
// a course, and the same similar-course post-processing as the search tool. The
// embedding call and the index calls are inputs that either return or raise.
module VectorService {
  import opened Wrappers
  import VectorSearch

  /** The default threshold and neighbour count of `find_similar_courses`. */
  const DEFAULT_SCORE_THRESHOLD: real := 0.85
  const DEFAULT_NEIGHBOR_COUNT: int := 1

  /** How the external calls of one operation went: all returned, or one raised. */
  datatype CallOutcome = Returned | Raised(message: string)

  /** `add_course_to_index`: false without a configured endpoint or when an external call raises. */
  function AddCourseToIndex(endpointConfigured: bool, calls: CallOutcome): (r: bool)
    ensures r <==> endpointConfigured && calls.Returned?
  {
    if !endpointConfigured then false
    else match calls
      case Returned => true
      case Raised(_) => false
  }

  /** `update_course_in_index` delegates to the add. */
  function UpdateCourseInIndex(endpointConfigured: bool, calls: CallOutcome): (r: bool)
    ensures r <==> endpointConfigured && calls.Returned?
  {
    AddCourseToIndex(endpointConfigured, calls)
  }

  /** `remove_course_from_index`: false without a configured endpoint or when the removal raises. */
  function RemoveCourseFromIndex(endpointConfigured: bool, calls: CallOutcome): (r: bool)
    ensures r <==> endpointConfigured && calls.Returned?
  {
    if !endpointConfigured then false
    else match calls
      case Returned => true
      case Raised(_) => false
  }

  /**
   * `find_similar_courses` of the service: the same exits and threshold as the search tool,
   * with the service's default threshold 0.85 when the caller gives none.
   */
  function FindSimilarCourses(endpointConfigured: bool, nearest: seq<seq<VectorSearch.Neighbor>>,
                              scoreThreshold: Option<real>): (r: Option<VectorSearch.Match>)
    ensures r.Some? <==> endpointConfigured && |nearest| > 0 && |nearest[0]| > 0
                         && 1.0 - nearest[0][0].distance >= scoreThreshold.GetOr(DEFAULT_SCORE_THRESHOLD)
    ensures r == VectorSearch.FindSimilarCourses(endpointConfigured, nearest, scoreThreshold.GetOr(DEFAULT_SCORE_THRESHOLD))
  {
    VectorSearch.FindSimilarCourses(endpointConfigured, nearest, scoreThreshold.GetOr(DEFAULT_SCORE_THRESHOLD))
  }

  /** Without an endpoint every index operation reports failure and no search finds anything. */
  lemma NoEndpointNoEffect(calls: CallOutcome, nearest: seq<seq<VectorSearch.Neighbor>>, scoreThreshold: Option<real>)
    ensures !AddCourseToIndex(false, calls) && !UpdateCourseInIndex(false, calls) && !RemoveCourseFromIndex(false, calls)
    ensures FindSimilarCourses(false, nearest, scoreThreshold).None?
  {
  }
}
