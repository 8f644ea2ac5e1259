// How much content a day holds for the time the learner has: four fixed
// tiers looked up by exact key, the largest one for any other text.
module ContentScale {

  datatype Scale = Scale(readingParts: nat, mcqQuestions: nat, tfStatements: nat, scenarios: nat)

  /** The tier keys, from the shortest session to the longest. */
  const TIERS: seq<string> := ["5 minutes", "10 minutes", "20 minutes", "30+ minutes"]

  const LARGEST: Scale := Scale(5, 6, 4, 4)

  /** Every field of `a` is at most the same field of `b`. */
  predicate AtMost(a: Scale, b: Scale)
  {
    a.readingParts <= b.readingParts && a.mcqQuestions <= b.mcqQuestions
    && a.tfStatements <= b.tfStatements && a.scenarios <= b.scenarios
  }

  /**
   * `get_content_scale`: the tier of an exact key, the "30+ minutes" tier for any other text;
   * no tier exceeds the largest, and every tier has reading, questions and a scenario.
   */
  function GetContentScale(time: string): (r: Scale)
    ensures time !in TIERS ==> r == LARGEST
    ensures AtMost(r, LARGEST)
    ensures r.readingParts >= 2 && r.mcqQuestions >= 2 && r.tfStatements >= 2 && r.scenarios >= 1
  {
    var scales := map[
      "5 minutes" := Scale(2, 2, 2, 1),
      "10 minutes" := Scale(3, 3, 3, 2),
      "20 minutes" := Scale(4, 4, 4, 3),
      "30+ minutes" := LARGEST];
    if time in scales then scales[time] else scales["30+ minutes"]
  }

  /** A longer tier never holds less of anything than a shorter one. */
  lemma ScaleMonotone(i: nat, j: nat)
    requires i <= j < |TIERS|
    ensures AtMost(GetContentScale(TIERS[i]), GetContentScale(TIERS[j]))
  {
  }

  /** Keys outside the table, such as "15 minutes" or "5 min", get the largest tier. */
  lemma UnlistedKeysGetLargest()
    ensures GetContentScale("15 minutes") == LARGEST
    ensures GetContentScale("5 min") == LARGEST
  {
  }
}
