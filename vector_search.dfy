// The post-processing of a nearest-neighbour query into a similar-course match:
// the missing-endpoint and no-neighbour exits, similarity = 1 - distance of the
// first neighbour only, and the inclusive score threshold. The embedding and the
// index query are inputs.
module VectorSearch {
  import opened Wrappers

  /** A block as stored in the indexed course document: its `type` and, when present, its `text`. */
  datatype StoredBlock = StoredBlock(blockType: string, text: Option<string>)

  /** The course document kept as the neighbour's datapoint payload. */
  datatype CourseData = CourseData(canonical: Option<bool>, blocks: Option<seq<StoredBlock>>,
                                   courseId: Option<string>, version: Option<string>, language: Option<string>,
                                   title: Option<string>, level: Option<string>)

  datatype Neighbor = Neighbor(distance: real, datapoint: CourseData)

  datatype Metadata = Metadata(courseId: Option<string>, version: Option<string>, language: Option<string>,
                               title: Option<string>, level: Option<string>)

  /** The dict `find_similar_courses` returns for a match. */
  datatype Match = Match(courseData: CourseData, similarityScore: real, canonical: bool, blocks: seq<StoredBlock>,
                         metadata: Metadata)

  /**
   * `find_similar_courses`, after the index query. `nearest` holds one neighbour list per query
   * (only one query is sent). Only the first neighbour of the first list is looked at, whatever
   * `k` was; a similarity equal to the threshold is accepted.
   */
  function FindSimilarCourses(endpointConfigured: bool, nearest: seq<seq<Neighbor>>, scoreThreshold: real): (r: Option<Match>)
    ensures !endpointConfigured ==> r.None?
    ensures endpointConfigured && (|nearest| == 0 || |nearest[0]| == 0) ==> r.None?
    ensures r.Some? <==> endpointConfigured && |nearest| > 0 && |nearest[0]| > 0
                         && 1.0 - nearest[0][0].distance >= scoreThreshold
    ensures r.Some? ==> && r.value.similarityScore == 1.0 - nearest[0][0].distance
                        && r.value.similarityScore >= scoreThreshold
                        && r.value.courseData == nearest[0][0].datapoint
                        && r.value.canonical == nearest[0][0].datapoint.canonical.GetOr(false)
                        && r.value.blocks == nearest[0][0].datapoint.blocks.GetOr([])
  {
    if !endpointConfigured then None
    else if |nearest| == 0 || |nearest[0]| == 0 then None
    else
      var neighbor := nearest[0][0];
      var similarityScore := 1.0 - neighbor.distance;
      if similarityScore < scoreThreshold then None
      else
        var data := neighbor.datapoint;
        Some(Match(data, similarityScore, data.canonical.GetOr(false), data.blocks.GetOr([]),
                   Metadata(data.courseId, data.version, data.language, data.title, data.level)))
  }

  /** Raising the threshold can only turn a match into no match, and never changes a match that survives. */
  lemma ThresholdMonotone(endpointConfigured: bool, nearest: seq<seq<Neighbor>>, low: real, high: real)
    requires low <= high
    ensures FindSimilarCourses(endpointConfigured, nearest, high).Some? ==>
              FindSimilarCourses(endpointConfigured, nearest, low) == FindSimilarCourses(endpointConfigured, nearest, high)
    ensures FindSimilarCourses(endpointConfigured, nearest, low).None? ==>
              FindSimilarCourses(endpointConfigured, nearest, high).None?
  {
  }

  /** Neighbours after the first, and neighbour lists after the first, never affect the result. */
  lemma FirstNeighbourOnly(endpointConfigured: bool, first: Neighbor, others: seq<Neighbor>,
                           otherLists: seq<seq<Neighbor>>, scoreThreshold: real)
    ensures FindSimilarCourses(endpointConfigured, [[first] + others] + otherLists, scoreThreshold)
            == FindSimilarCourses(endpointConfigured, [[first]], scoreThreshold)
  {
  }
}
