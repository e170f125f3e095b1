/** Small shared vocabulary: an optional value, duplicate-free sequences and
    the counting facts about them that the ranking and encoding proofs use. */
module Common {

  datatype Option<T> = None | Some(value: T)

  function Min(a: nat, b: nat): nat
  {
    if a <= b then a else b
  }

  /** No element occurs twice. */
  predicate Distinct<T(==)>(s: seq<T>)
  {
    forall i, j :: 0 <= i < j < |s| ==> s[i] != s[j]
  }

  /** The set of elements of a sequence. */
  function Elems<T>(s: seq<T>): set<T>
  {
    set x | x in s
  }

  /** A sequence has at most as many distinct elements as it is long, and
      exactly as many when it has no duplicates. */
  lemma {:induction false} ElemsCard<T>(s: seq<T>)
    ensures |Elems(s)| <= |s|
    ensures Distinct(s) ==> |Elems(s)| == |s|
  {
    if |s| > 0 {
      var rest := s[1..];
      ElemsCard(rest);
      assert Elems(s) == Elems(rest) + {s[0]} by {
        forall x ensures x in s <==> x in rest || x == s[0] {
          if x in s {
            var i :| 0 <= i < |s| && s[i] == x;
            if i > 0 { assert rest[i - 1] == x; }
          }
        }
      }
      if Distinct(s) {
        assert s[0] !in rest by {
          forall i | 0 <= i < |rest| ensures rest[i] != s[0] {
            assert rest[i] == s[i + 1];
          }
        }
        assert Distinct(rest) by {
          forall i, j | 0 <= i < j < |rest| ensures rest[i] != rest[j] {
            assert rest[i] == s[i + 1] && rest[j] == s[j + 1];
          }
        }
      }
    }
  }

  /** The half-open range [0, n) as a set; it has exactly n elements. */
  function Range(n: nat): (r: set<nat>)
    ensures forall i: nat :: i in r <==> i < n
    ensures |r| == n
  {
    if n == 0 then {} else Range(n - 1) + {n - 1}
  }

  lemma SubsetCard<T>(a: set<T>, b: set<T>)
    ensures a <= b ==> |a| <= |b|
  {
    if a <= b {
      assert b == a + (b - a);
    }
  }

  /** If a sequence of naturals covers every index of [0, n), it has at least
      n entries: a pigeonhole argument. */
  lemma CoveringLength(s: seq<nat>, n: nat)
    ensures (forall i :: 0 <= i < n ==> i in s) ==> n <= |s|
  {
    if forall i :: 0 <= i < n ==> i in s {
      var range := Range(n);
      assert range <= Elems(s);
      SubsetCard(range, Elems(s));
      ElemsCard(s);
    }
  }
}
