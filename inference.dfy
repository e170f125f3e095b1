/** The `/predict` handler: normalise the filters, encode them into the
    feature vector, ask the classifier for class probabilities and answer
    with the three most probable cars. The classifier is a parameter: its
    `predict_proba` row for the vector. */
module Inference {
  import opened Common
  import opened Text
  import opened Normalize
  import opened Priority
  import opened Encoding
  import opened Features
  import opened Ranking

  /** The four trained label encoders, each given by its vocabulary. */
  datatype Encoders = Encoders(
    bodyType: seq<string>,
    fuelType: seq<string>,
    budget: seq<string>,
    recommendedCar: seq<string>)

  /** The `safe_encode` calls and the priority lookup: each categorical
      filter becomes the code its encoder gives it, or 0 when the encoder
      never saw it. */
  function EncodeInputs(n: Inputs, enc: Encoders): (e: Encoded)
    ensures n.body in enc.bodyType ==> e.body < |enc.bodyType| && Decode(enc.bodyType, e.body) == n.body
    ensures n.body !in enc.bodyType ==> e.body == 0
    ensures n.fuel in enc.fuelType ==> e.fuel < |enc.fuelType| && Decode(enc.fuelType, e.fuel) == n.fuel
    ensures n.fuel !in enc.fuelType ==> e.fuel == 0
    ensures n.budget in enc.budget ==> e.budget < |enc.budget| && Decode(enc.budget, e.budget) == n.budget
    ensures n.budget !in enc.budget ==> e.budget == 0
    ensures e.seating == n.seating
    ensures e.ratings == RatingsFor(n.priority)
  {
    Encoded(
      Encode(enc.bodyType, n.body),
      Encode(enc.fuelType, n.fuel),
      Encode(enc.budget, n.budget),
      n.seating,
      RatingsFor(n.priority))
  }

  /** The vector for normalised inputs: eight features, the fourth the
      seating count and the last four the priority's ratings, each between
      7 and 9. */
  function InputsVector(n: Inputs, enc: Encoders): (fv: seq<int>)
    ensures |fv| == 8 && fv[3] == n.seating
    ensures forall i :: 4 <= i < 8 ==> 7 <= fv[i] <= 9
  {
    var e := EncodeInputs(n, enc);
    assert 7 <= Rating(e.ratings, Safety) <= 9 && 7 <= Rating(e.ratings, Comfort) <= 9;
    assert 7 <= Rating(e.ratings, Performance) <= 9 && 7 <= Rating(e.ratings, Value) <= 9;
    FeatureVector(e)
  }

  /** The vector the handler builds for a request; its seating feature is
      5 or 7. */
  function RequestVector(req: FilterRequest, enc: Encoders): (fv: seq<int>)
    ensures |fv| == 8
    ensures fv[3] == 5 || fv[3] == 7
    ensures forall i :: 4 <= i < 8 ==> 7 <= fv[i] <= 9
  {
    InputsVector(NormalizeRequest(req), enc)
  }

  /** The interface's usual request, {SUV, Petrol, 10 to 15 lakh, 5 seats,
      safety}, normalises to {suv, petrol, 10l_15l, 5, safety}, and its
      vector is the three codes, 5, and the safety profile (9, 7, 7, 7). */
  lemma UsualRequestVector(req: FilterRequest, enc: Encoders)
    requires req.body == Some("SUV") && req.fuel == Some("Petrol")
    requires req.budget == Some("\U{20B9}10\U{2013}15 Lakh")
    requires req.seating == Some("5 Seats") && req.priority == Some("safety")
    ensures RequestVector(req, enc) ==
              [Encode(enc.bodyType, "suv"), Encode(enc.fuelType, "petrol"),
               Encode(enc.budget, "10l_15l"), 5, 9, 7, 7, 7]
  {
    UsualRequest(req);
    assert RatingsFor("safety") == Ratings(9, 7, 7, 7);
  }

  datatype Response =
    | Success(recommendedCar: string, confidence: real, top3: seq<Entry>, inputs: Inputs)
    | Error(message: string)

  /** Python's message for `top3_cars[0]` on an empty list. */
  const EmptyRanking: string := "list index out of range"

  /** Raised by the target encoder's `inverse_transform` on a code it has
      no class for; the exact wording is not modelled. */
  const UnknownClass: string := "y contains previously unseen labels"

  /** The answer for normalised inputs once the classifier has given its
      probabilities `p`, one per class of the target vocabulary `classes`.
      On success it echoes the inputs, lists a top-3 ranking of `p`
      decoded to car names, and recommends the first entry, which is a
      most probable car. */
  method Answer(n: Inputs, classes: seq<string>, p: seq<real>)
      returns (resp: Response, ghost ranked: seq<nat>)
    ensures IsTopK(p, ranked, 3)
    ensures |p| == 0 ==> resp == Error(EmptyRanking)
    ensures 0 < |p| <= |classes| ==> resp.Success?
    ensures resp.Success? <==> |p| > 0 && forall t :: 0 <= t < |ranked| ==> ranked[t] < |classes|
    ensures resp.Success? ==>
            && resp.inputs == n
            && |resp.top3| == |ranked| > 0
            && (forall t :: 0 <= t < |ranked| && ranked[t] < |classes| ==>
                  resp.top3[t] == Entry(Decode(classes, ranked[t]), Confidence(p[ranked[t]])))
            && resp.recommendedCar == resp.top3[0].car
            && resp.confidence == resp.top3[0].confidence
            && (forall j :: 0 <= j < |p| ==> Confidence(p[j]) <= resp.confidence)
  {
    var idx, top3 := RankTop3(p, classes);
    ranked := idx;
    if top3.None? {
      resp := Error(UnknownClass);
    } else if |top3.value| == 0 {
      resp := Error(EmptyRanking);
    } else {
      TopIsMaximum(p, idx, 3);
      var best := top3.value[0];
      resp := Success(best.car, best.confidence, top3.value, n);
    }
  }

  /** The `/predict` handler for one decoded JSON body: normalise, build
      the vector, classify it and answer. The answer is `Answer`'s for the
      classifier's output on the request's vector, and `ranked` is the
      handler's `top3_idx`. */
  method Predict(req: FilterRequest, enc: Encoders, classify: seq<int> -> seq<real>)
      returns (resp: Response, ghost ranked: seq<nat>)
    ensures IsTopK(classify(RequestVector(req, enc)), ranked, 3)
    ensures |classify(RequestVector(req, enc))| == 0 ==> resp == Error(EmptyRanking)
    ensures 0 < |classify(RequestVector(req, enc))| <= |enc.recommendedCar| ==> resp.Success?
    ensures resp.Success? <==>
              (|classify(RequestVector(req, enc))| > 0 &&
               forall t :: 0 <= t < |ranked| ==> ranked[t] < |enc.recommendedCar|)
    ensures resp.Success? ==> resp.inputs == NormalizeRequest(req)
    ensures resp.Success? ==> |resp.top3| == |ranked| > 0
    ensures resp.Success? ==> forall t :: 0 <= t < |ranked| && ranked[t] < |enc.recommendedCar| ==>
              resp.top3[t] == Entry(Decode(enc.recommendedCar, ranked[t]),
                                    Confidence(classify(RequestVector(req, enc))[ranked[t]]))
    ensures resp.Success? ==> |resp.top3| > 0 && resp.recommendedCar == resp.top3[0].car
    ensures resp.Success? ==> |resp.top3| > 0 && resp.confidence == resp.top3[0].confidence
    ensures resp.Success? ==> forall j :: 0 <= j < |classify(RequestVector(req, enc))| ==>
              Confidence(classify(RequestVector(req, enc))[j]) <= resp.confidence
  {
    var fv := RequestVector(req, enc);
    var p := classify(fv);
    resp, ranked := Answer(NormalizeRequest(req), enc.recommendedCar, p);
  }
}
