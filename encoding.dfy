/** The categorical encoder adapter around a trained label encoder. A
    trained encoder is its vocabulary `classes_`: the distinct labels seen
    in training, sorted, a label's code being its position. */
module Encoding {
  import opened Common

  /** Python's `<` on strings: code-point lexicographic order. */
  predicate LexLess(a: string, b: string)
  {
    if a == [] then b != []
    else if b == [] then false
    else a[0] < b[0] || (a[0] == b[0] && LexLess(a[1..], b[1..]))
  }

  lemma {:induction false} LexLessIrreflexive(a: string)
    ensures !LexLess(a, a)
  {
    if a != [] {
      LexLessIrreflexive(a[1..]);
    }
  }

  /** The shape of a trained label encoder's `classes_`: strictly sorted. */
  predicate IsVocabulary(v: seq<string>)
  {
    forall i, j :: 0 <= i < j < |v| ==> LexLess(v[i], v[j])
  }

  /** Sorted strictly means no label is listed twice. */
  lemma VocabularyDistinct(v: seq<string>)
    requires IsVocabulary(v)
    ensures Distinct(v)
  {
    forall i, j | 0 <= i < j < |v| ensures v[i] != v[j] {
      LexLessIrreflexive(v[i]);
    }
  }

  /** The position of `value` in `v`, if it occurs: `encoder.transform`,
      which raises on an unseen label. */
  function IndexOf(v: seq<string>, value: string): (r: Option<nat>)
    ensures r.Some? <==> value in v
    ensures r.Some? ==> r.value < |v| && v[r.value] == value
    ensures r.Some? ==> forall j :: 0 <= j < r.value ==> v[j] != value
  {
    if v == [] then None
    else if v[0] == value then Some(0)
    else match IndexOf(v[1..], value)
      case None => None
      case Some(i) => Some(i + 1)
  }

  /** `safe_encode`: the label's code when the encoder knows it, and the
      fallback code 0 otherwise. It never fails. */
  function Encode(v: seq<string>, value: string): (code: nat)
    ensures value in v ==> code < |v| && v[code] == value
    ensures value !in v ==> code == 0
  {
    match IndexOf(v, value)
    case Some(i) => i
    case None => 0
  }

  /** `encoder.inverse_transform([code])[0]`. */
  function Decode(v: seq<string>, code: nat): string
    requires code < |v|
  {
    v[code]
  }

  /** Decoding the code of a known label gives the label back. */
  lemma DecodeEncode(v: seq<string>, value: string)
    requires value in v
    ensures Encode(v, value) < |v| && Decode(v, Encode(v, value)) == value
  {
  }

  /** Encoding a decoded code gives the code back: on a trained vocabulary
      the two are inverse bijections between labels and [0, |v|). */
  lemma EncodeDecode(v: seq<string>, code: nat)
    requires IsVocabulary(v) && code < |v|
    ensures Encode(v, Decode(v, code)) == code
  {
    VocabularyDistinct(v);
  }

  /** Every unknown label shares the code of the vocabulary's first
      label. */
  lemma UnknownSharesFirstCode(v: seq<string>, value: string)
    requires value !in v && v != []
    ensures Encode(v, value) == Encode(v, v[0])
  {
  }
}
