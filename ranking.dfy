/** The top-3 ranker: the classes of the three largest probabilities,
    largest first, each decoded to a car name with its confidence. */
module Ranking {
  import opened Common
  import opened Encoding

  /** `idx` lists min(k, |p|) distinct indices of `p` in non-increasing
      order of probability, and no index left out is more probable than any
      listed one: `idx` is a prefix of a descending ordering of `p`. Ties
      may come in either order. */
  predicate IsTopK(p: seq<real>, idx: seq<nat>, k: nat)
  {
    && |idx| == Min(k, |p|)
    && (forall t :: 0 <= t < |idx| ==> idx[t] < |p|)
    && Distinct(idx)
    && (forall s, t :: 0 <= s < t < |idx| ==> p[idx[s]] >= p[idx[t]])
    && (forall j, t :: 0 <= j < |p| && j !in idx && 0 <= t < |idx| ==> p[j] <= p[idx[t]])
  }

  /** `np.argsort(p)[::-1][:k]`, by repeated selection of the most probable
      index not yet chosen. */
  method TopIndices(p: seq<real>, k: nat) returns (idx: seq<nat>)
    ensures IsTopK(p, idx, k)
  {
    var n := Min(k, |p|);
    idx := [];
    while |idx| < n
      invariant |idx| <= n
      invariant forall t :: 0 <= t < |idx| ==> idx[t] < |p|
      invariant Distinct(idx)
      invariant forall s, t :: 0 <= s < t < |idx| ==> p[idx[s]] >= p[idx[t]]
      invariant forall j, t :: 0 <= j < |p| && j !in idx && 0 <= t < |idx| ==> p[j] <= p[idx[t]]
      decreases n - |idx|
    {
      var best := -1;
      var i := 0;
      while i < |p|
        invariant 0 <= i <= |p|
        invariant -1 <= best < i
        invariant best >= 0 ==> best !in idx
        invariant best >= 0 ==> forall j :: 0 <= j < i && j !in idx ==> p[j] <= p[best]
        invariant best < 0 ==> forall j :: 0 <= j < i ==> j in idx
      {
        if i !in idx && (best < 0 || p[i] > p[best]) {
          best := i;
        }
        i := i + 1;
      }
      CoveringLength(idx, |p|);
      assert best >= 0;
      idx := idx + [best];
    }
  }

  /** The first index of a top-k list is a most probable class. */
  lemma TopIsMaximum(p: seq<real>, idx: seq<nat>, k: nat)
    requires IsTopK(p, idx, k) && k > 0 && |p| > 0
    ensures |idx| > 0 && idx[0] < |p|
    ensures forall j :: 0 <= j < |p| ==> p[j] <= p[idx[0]]
  {
    forall j | 0 <= j < |p| ensures p[j] <= p[idx[0]] {
      if j in idx {
        var t :| 0 <= t < |idx| && idx[t] == j;
        if t > 0 {
          assert p[idx[0]] >= p[idx[t]];
        }
      }
    }
  }

  /** Two top-k lists agree on the probability at every rank. */
  lemma TopKValuesUnique(p: seq<real>, a: seq<nat>, b: seq<nat>, k: nat)
    requires IsTopK(p, a, k) && IsTopK(p, b, k)
    ensures |a| == |b|
    ensures forall t :: 0 <= t < |a| ==> p[a[t]] == p[b[t]]
  {
    forall t | 0 <= t < |a| ensures p[a[t]] == p[b[t]] {
      RankNotAbove(p, a, b, k, t);
      RankNotAbove(p, b, a, k, t);
    }
  }

  /** The t-th entry of one top-k list is no more probable than the t-th
      of another: otherwise its first t + 1 entries would all have to sit
      among the other's first t. */
  lemma RankNotAbove(p: seq<real>, a: seq<nat>, b: seq<nat>, k: nat, t: nat)
    requires IsTopK(p, a, k) && IsTopK(p, b, k) && t < |a|
    ensures p[a[t]] <= p[b[t]]
  {
    var front := a[..t + 1];
    var back := b[..t];
    assert Distinct(front);
    ElemsCard(front);
    ElemsCard(back);
    forall x | x in Elems(front) && p[a[t]] > p[b[t]] ensures x in Elems(back) {
      var s :| 0 <= s <= t && front[s] == x;
      assert p[x] >= p[a[t]];
      assert x in b;
      var u :| 0 <= u < |b| && b[u] == x;
      assert u < t;
      assert back[u] == x;
    }
    SubsetCard(Elems(front), Elems(back));
  }

  /** One row of the response's `top3` list. */
  datatype Entry = Entry(car: string, confidence: real)

  /** A probability as a percentage. The handler rounds it to one decimal;
      this model keeps it exact. */
  function Confidence(prob: real): (c: real)
    ensures c / 100.0 == prob
    ensures 0.0 <= prob <= 1.0 ==> 0.0 <= c <= 100.0
  {
    prob * 100.0
  }

  /** Percentages keep the order of the probabilities they come from. */
  lemma ConfidenceMonotone(a: real, b: real)
    ensures a <= b <==> Confidence(a) <= Confidence(b)
  {
  }

  /** The ranking loop of the handler: the top-3 indices of `p`, then one
      entry per index in rank order, decoded by the target vocabulary.
      Decoding fails, and so does the whole ranking, when an index has no
      class in the vocabulary. */
  method RankTop3(p: seq<real>, classes: seq<string>) returns (idx: seq<nat>, top3: Option<seq<Entry>>)
    ensures IsTopK(p, idx, 3)
    ensures top3.Some? <==> forall t :: 0 <= t < |idx| ==> idx[t] < |classes|
    ensures top3.Some? ==> |top3.value| == |idx|
    ensures top3.Some? ==> forall t :: 0 <= t < |idx| && idx[t] < |classes| ==>
              top3.value[t] == Entry(Decode(classes, idx[t]), Confidence(p[idx[t]]))
    ensures top3.Some? ==> forall s, t :: 0 <= s < t < |top3.value| ==>
              top3.value[s].confidence >= top3.value[t].confidence
  {
    idx := TopIndices(p, 3);
    var cars: seq<Entry> := [];
    for t := 0 to |idx|
      invariant |cars| == t
      invariant forall s :: 0 <= s < t ==> idx[s] < |classes|
      invariant forall s :: 0 <= s < t && idx[s] < |classes| ==>
                  cars[s] == Entry(Decode(classes, idx[s]), Confidence(p[idx[s]]))
      invariant forall s, u :: 0 <= s < u < t ==> cars[s].confidence >= cars[u].confidence
    {
      if idx[t] >= |classes| {
        top3 := None;
        return;
      }
      cars := cars + [Entry(Decode(classes, idx[t]), Confidence(p[idx[t]]))];
    }
    top3 := Some(cars);
  }
}
