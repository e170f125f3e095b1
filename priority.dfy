/** The priority heuristic: the requested priority picks one of five fixed
    rating profiles, which become the last four features. */
module Priority {
  import opened Common
  import opened Normalize

  /** The four rating features, in the order the trainer's columns name
      them. */
  datatype Ratings = Ratings(safety: int, comfort: int, performance: int, value: int)

  /** The four priorities a user can name. */
  datatype Axis = Safety | Comfort | Performance | Value

  function AxisName(a: Axis): string
  {
    match a
    case Safety => "safety"
    case Comfort => "comfort"
    case Performance => "performance"
    case Value => "value"
  }

  function Rating(r: Ratings, a: Axis): int
  {
    match a
    case Safety => r.safety
    case Comfort => r.comfort
    case Performance => r.performance
    case Value => r.value
  }

  /** The handler's `priority_ratings` dictionary. */
  const PriorityRatings: map<string, Ratings> := map[
    "safety" := Ratings(9, 7, 7, 7),
    "comfort" := Ratings(7, 9, 7, 7),
    "performance" := Ratings(7, 7, 9, 7),
    "value" := Ratings(7, 7, 7, 9),
    "default" := Ratings(8, 8, 8, 8)]

  /** `priority_ratings.get(priority, priority_ratings["default"])`: some
      profile of the table, never a mixture, with every rating in [7, 9]. */
  function RatingsFor(priority: string): (r: Ratings)
    ensures r in PriorityRatings.Values
    ensures forall a :: 7 <= Rating(r, a) <= 9
  {
    Lookup(PriorityRatings, priority, PriorityRatings["default"])
  }

  /** Naming an axis rates it 9 and the other three 7. */
  lemma AxisProfile(a: Axis)
    ensures forall b :: Rating(RatingsFor(AxisName(a)), b) == if b == a then 9 else 7
  {
  }

  /** Any other string, "default" and the empty string included, gives the
      neutral profile. */
  lemma OtherPrioritiesNeutral(priority: string)
    requires forall a :: priority != AxisName(a)
    ensures RatingsFor(priority) == Ratings(8, 8, 8, 8)
  {
    assert priority != AxisName(Safety) && priority != AxisName(Comfort);
    assert priority != AxisName(Performance) && priority != AxisName(Value);
  }

  /** A missing priority means "value"; a blank one is not missing and
      gets the neutral profile. */
  lemma PriorityFieldProfiles()
    ensures RatingsFor(NormalizePriority(None)) == Ratings(7, 7, 7, 9)
    ensures RatingsFor(NormalizePriority(Some("  "))) == Ratings(8, 8, 8, 8)
  {
    PriorityDefault();
    BlankPriorityIsNotDefaulted();
  }
}
