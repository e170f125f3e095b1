/** The feature vector builder: the eight numbers the classifier is given,
    in the trainer's column order. */
module Features {
  import opened Common
  import opened Priority

  /** The trainer's `feature_cols`. */
  const FeatureCols: seq<string> := [
    "body_type_enc", "fuel_type_enc", "budget_enc", "seating",
    "safety", "comfort", "performance", "value"]

  /** One request's encoded filters. */
  datatype Encoded = Encoded(body: nat, fuel: nat, budget: nat, seating: int, ratings: Ratings)

  /** What each training column holds for a request, by column name: the
      meaning the trainer gives its columns. */
  function Column(e: Encoded, name: string): Option<int>
  {
    if name == "body_type_enc" then Some(e.body)
    else if name == "fuel_type_enc" then Some(e.fuel)
    else if name == "budget_enc" then Some(e.budget)
    else if name == "seating" then Some(e.seating)
    else if name == "safety" then Some(e.ratings.safety)
    else if name == "comfort" then Some(e.ratings.comfort)
    else if name == "performance" then Some(e.ratings.performance)
    else if name == "value" then Some(e.ratings.value)
    else None
  }

  /** The vector literal of the handler. Entry i is what the trainer's
      i-th column holds, so the classifier reads every feature where it
      was trained to find it. */
  function FeatureVector(e: Encoded): (fv: seq<int>)
    ensures |fv| == |FeatureCols| == 8
    ensures forall i :: 0 <= i < |fv| ==> Column(e, FeatureCols[i]) == Some(fv[i])
  {
    [e.body, e.fuel, e.budget, e.seating,
     e.ratings.safety, e.ratings.comfort, e.ratings.performance, e.ratings.value]
  }
}
