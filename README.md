# MOTOAI inference core in Dafny

This project models the `/predict` handler of the MOTOAI car recommender.
The handler takes a filter request with five optional fields: body style,
fuel, budget bracket, seating and priority. It then works in five steps:

1. It normalises each field through a fixed lookup table with a default.
2. It turns the priority into four rating features.
3. It encodes the categorical filters with the trained label encoders; an
   unseen label falls back to code 0.
4. It builds an eight-entry feature vector in the trainer's column order.
5. It asks the classifier for class probabilities and answers with the
   three most probable cars, largest first.

Modules, in pipeline order:

- `Common`: an `Option` type, duplicate-free sequences, and a pigeonhole
  lemma used by the ranking proofs.
- `Text`: Python's `str.strip()` and `str.lower()` as the handler uses them.
- `Normalize`: the four lookup tables as `map` constants, the request
  record, and the normaliser.
- `Priority`: the five rating profiles and the priority lookup.
- `Encoding`: a trained label encoder as its sorted vocabulary, with
  `safe_encode` and `inverse_transform` on it.
- `Features`: the trainer's `feature_cols` and the feature vector.
- `Ranking`: top-k selection, an imperative method with nested loops
  proved against the relational predicate `IsTopK`, and the loop that
  decodes the top three.
- `Inference`: the handler, from decoded request to response.

The classifier is a parameter `classify: seq<int> -> seq<real>`. It stands
for `clf.predict_proba(feature_vector)[0]`. Tie order among equal
probabilities is left open. `IsTopK` asks only for the following:

- the returned indices are distinct;
- they are in non-increasing order of probability;
- no index left out beats one that was chosen.

`TopKValuesUnique` proves that every list meeting this has the same
probability at each rank.

Two behaviours a reader might expect but the code does not have:

- A stable, index-ordered tie-break is not what the code does. It reverses
  NumPy's default `argsort`, which is not stable, so `IsTopK` fixes no tie
  order either.
- A decode of an out-of-range index does not crash the service. The
  handler's `except` turns it into an error response, and `RankTop3` and
  `Answer` model that as `Error`.

## Model

| member | source | states |
|---|---|---|
| Text.StripSpec | app.py:120-124 | `strip()` keeps one slice of the input. That slice neither starts nor ends with whitespace, and everything before and after it is whitespace (Python's `isspace` set). |
| Text.StripPadded | app.py:120-124 | whitespace around an unpadded core is exactly what `strip()` removes |
| Text.StripIdempotent | app.py:120-124 | stripping twice equals stripping once |
| Text.LowerChar | app.py:120-121 | lower-casing maps ASCII capitals and the Kelvin sign to lower case, never yields a capital, and leaves whitespace as whitespace |
| Text.LowerIdempotent | app.py:120-121 | lower-casing twice equals lower-casing once |
| Text.StripLowerCommute | app.py:120-121 | `.strip().lower()` equals `.lower().strip()` |
| Normalize.NormalizeBody | app.py:120-126 | the normalised body is always one of suv, sedan, hatchback, electric, luxury |
| Normalize.NormalizeFuel | app.py:121-127 | the normalised fuel is always one of petrol, diesel, electric, cng |
| Normalize.NormalizeBudget | app.py:122-128 | the normalised budget is always one of the five raw bucket keys |
| Normalize.NormalizeSeating | app.py:123-129 | the normalised seating is always 5 or 7 |
| Normalize.NormalizeRequest | app.py:120-129 | the four table-backed fields at once: body, fuel, budget and seating each lie in their field's canonical set |
| Normalize.FoldedKeyOfKey | app.py:120-121 | a key that is already trimmed and lower case is looked up unchanged |
| Normalize.FoldedKeyOfMissing | app.py:120-124 | an absent or empty body, fuel or priority is looked up as its default |
| Normalize.FoldedKeyInsensitive | app.py:120-121 | body and fuel lookups ignore case and surrounding whitespace |
| Normalize.BodyLookup | app.py:126 | a body key in the table gives the table's value, and any other key gives "suv" |
| Normalize.BodyAliases | app.py:44-46 | "hatch" gives hatchback and "ev" gives electric |
| Normalize.BodyFoldsIntoSuv | app.py:48-49 | "muv" and "mpv" give suv, and so does the unknown "pickup" |
| Normalize.BodyDefault | app.py:120-126 | a missing or empty body gives suv |
| Normalize.CanonicalBodyFixed | app.py:40-50 | each canonical body value normalises to itself |
| Normalize.FuelLookup | app.py:127 | a fuel key in the table gives the table's value, and any other key gives "petrol" |
| Normalize.FuelHybridIsPetrol | app.py:55-57 | "hybrid" gives petrol and "electric" stays electric |
| Normalize.FuelDefault | app.py:121-127 | a missing or empty fuel gives petrol |
| Normalize.CanonicalFuelFixed | app.py:52-58 | each canonical fuel value normalises to itself |
| Normalize.BudgetLabelsAgreeWithKeys | app.py:60-74 | every key's bucket is itself a key that maps to itself, so a display label and its raw key share a bucket |
| Normalize.BudgetKeysFixed | app.py:69-73 | each raw bucket key maps to itself |
| Normalize.BudgetLookup | app.py:128 | a stripped budget key in the table gives its bucket, and any other key gives "10l_15l" |
| Normalize.BudgetAboveFiftyLakh | app.py:67 | "₹50 Lakh+" gives the highest known bucket, 25l_50l |
| Normalize.BudgetIdempotent | app.py:122-128 | normalising a normalised budget leaves it unchanged |
| Normalize.BudgetCaseSensitive | app.py:122 | budget text is trimmed but not case-folded: "UNDER_6L" misses, while " under_6l" hits |
| Normalize.BudgetDefault | app.py:122-128 | a missing or empty budget reads as the ₹10–15 Lakh label and gives 10l_15l |
| Normalize.SeatingLookup | app.py:129 | a stripped seating key in the table gives its count, and any other key gives 5 |
| Normalize.SeatingSevenPlus | app.py:79 | "7+ Seats" gives 7 |
| Normalize.SeatingDefault | app.py:123-129 | a missing or empty seating gives 5 |
| Normalize.PriorityDefault | app.py:124 | a missing or empty priority becomes "value" |
| Normalize.BlankPriorityIsNotDefaulted | app.py:124 | a whitespace-only priority is present, so it is not defaulted; it strips to "" |
| Normalize.UsualBody | app.py:120-126 | "SUV" gives suv |
| Normalize.UsualFuel | app.py:121-127 | "Petrol" gives petrol |
| Normalize.UsualBudget | app.py:64 | the display label "₹10–15 Lakh" gives 10l_15l |
| Normalize.UsualSeating | app.py:77 | "5 Seats" gives 5 |
| Normalize.UsualPriority | app.py:124 | "safety" stays safety |
| Normalize.UsualRequest | app.py:120-129 | the request {SUV, Petrol, ₹10–15 Lakh, 5 Seats, safety} normalises to {suv, petrol, 10l_15l, 5, safety} |
| Normalize.EmptyRequestDefaults | app.py:120-129 | a request with no fields normalises to {suv, petrol, 10l_15l, 5, value} |
| Priority.RatingsFor | app.py:138-145 | the ratings are exactly one of the five profiles of the table, and each rating lies in [7, 9] |
| Priority.AxisProfile | app.py:139-145 | naming safety, comfort, performance or value rates that axis 9 and the other three 7 |
| Priority.OtherPrioritiesNeutral | app.py:143-145 | any other string, "default" included, gets (8, 8, 8, 8) |
| Priority.PriorityFieldProfiles | app.py:124-145 | a missing priority gets the value profile (7, 7, 7, 9), and a blank one gets (8, 8, 8, 8) |
| Encoding.VocabularyDistinct | model.py:31-33 | a trained encoder's sorted `classes_` has no duplicates |
| Encoding.IndexOf | app.py:32 | `transform` finds a label exactly when the vocabulary holds it, and returns its first position |
| Encoding.Encode | app.py:30-36 | `safe_encode` never fails: a known label gets its position, and an unknown one gets 0 |
| Encoding.DecodeEncode | app.py:173 | decoding the code of a known label gives the label back |
| Encoding.EncodeDecode | app.py:30-36 | on a trained vocabulary, encoding a decoded code gives the code back |
| Encoding.UnknownSharesFirstCode | app.py:33-36 | an unknown label gets the same code as the vocabulary's first label |
| Features.FeatureVector | app.py:152-165 | the vector has eight entries, and entry i holds what the trainer's i-th column (model.py:37-46) holds |
| Ranking.TopIndices | app.py:169 | the result lists min(k, n) distinct in-range indices in non-increasing order of probability, and no unchosen index is more probable than a chosen one |
| Ranking.TopIsMaximum | app.py:169-180 | the first index of a top-k list is a most probable class |
| Ranking.TopKValuesUnique | app.py:169 | any two top-k lists have equal probabilities at each rank; only tie order can differ |
| Ranking.RankNotAbove | app.py:169 | the probability a top-k list has at rank t is at most another top-k list's at rank t |
| Ranking.Confidence | app.py:174 | the confidence is the probability scaled to a percentage, in [0, 100] for a probability in [0, 1] |
| Ranking.ConfidenceMonotone | app.py:174 | percentages keep the order of the probabilities |
| Ranking.RankTop3 | app.py:169-175 | the indices are a top-3 list. Decoding succeeds exactly when each index is in the target vocabulary. Entry t is the decoded car with its confidence, and confidences do not increase |
| Inference.EncodeInputs | app.py:145-150 | each categorical code decodes to its normalised value or is 0 when unseen; seating passes through, and the ratings are the priority's profile |
| Inference.InputsVector | app.py:145-165 | the vector has eight entries: the seating count in place 3 and ratings in [7, 9] in the last four |
| Inference.RequestVector | app.py:120-165 | a request's vector has eight entries, seating 5 or 7 and ratings in [7, 9] |
| Inference.UsualRequestVector | app.py:120-165 | the usual request's vector is [code(suv), code(petrol), code(10l_15l), 5, 9, 7, 7, 7] |
| Inference.Answer | app.py:168-196 | the ranking is a top-3 list; empty probabilities give "list index out of range"; success holds exactly when there are probabilities and every ranked index decodes; on success `top3` holds the decoded entries in rank order, `recommended_car`/`confidence` are its first entry, and no probability gives a higher confidence |
| Inference.Predict | app.py:116-196 | for `p`, the classifier's output on the request's vector: the ranking is a top-3 list of `p`. Empty `p` gives "list index out of range". Success holds exactly when `p` is non-empty and every ranked index decodes. On success the response echoes the normalised request, `top3` holds the decoded ranked entries in order, `recommended_car`/`confidence` are its first entry, and no probability gives a higher confidence. |

## Left out

- Flask routing, the `/` and `/health` routes, CORS and the port
  (app.py:13-14, app.py:86-100, app.py:199-201). These are web plumbing.
- Loading the model bundle with `pickle` at startup (app.py:19-26). This is
  file I/O. The encoders and the classifier are parameters of `Predict`.
- `clf.predict_proba` (app.py:168). The RandomForest is opaque, so it is the
  parameter `classify`. Like app.py:172-173, the model decodes
  probability i as target code i. That is right only when the classifier
  saw every target class in training, so that `clf.classes_` is 0 to
  n-1. `train_test_split` (model.py:56-58) can leave a car out of the
  training split. The forest's columns then skip that code, and the
  handler names the wrong cars. The model reproduces this as written and
  does not model `clf.classes_`.
- The training script model.py. It reads a CSV and fits encoders and a
  forest. It serves only as evidence for the vocabulary shape
  (model.py:31-33) and the column order (model.py:37-46).
- Ranking.Confidence: omits `round(..., 1)` on a binary float (app.py:174).
  It is the exact `p * 100` as a real.
- Text.LowerChar: models `str.lower()` only on ASCII letters and the Kelvin
  sign. Every other character is left as it is. The table keys are all
  ASCII, so every lookup agrees with Python. Only the echoed priority of a
  non-ASCII request can differ.
- Non-string request fields: each field is an optional string. A falsy
  JSON value (`null`, `0`, `false`, `[]`, `{}`) gets the default through
  `or`, exactly like a missing field, which is `None` here. A truthy
  non-string (a non-zero number, `true`, a non-empty list or object), or
  a body that is not a JSON object, makes the handler raise inside
  `.strip()` or `.get`. It then answers an error through the blanket
  `except` (app.py:194-196), and that path is not modelled.
- Inference.Answer: the error message for an index the target encoder lacks
  is a fixed text. The model does not reproduce sklearn's wording, which
  lists the offending labels.
- Ranking.TopIndices: reaches `np.argsort(proba)[::-1][:3]` by repeated
  selection rather than a full sort. The contract is relational, and tie
  order is left open as it is in NumPy.
- The diagnostic `print` calls, including the unknown-label warning of
  `safe_encode` (app.py:35, app.py:131-134, app.py:191). The HTTP status
  code 500 of the error response is not modelled either.

