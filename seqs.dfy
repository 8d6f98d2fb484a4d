/** Facts about sequences without repeated elements. */
module Seqs {

  /** No element occurs twice in `q`. */
  ghost predicate Distinct<T>(q: seq<T>) {
    forall i, j :: 0 <= i < j < |q| ==> q[i] != q[j]
  }

  /** The set of elements of `q` (what a JavaScript `Set` kept beside an array holds). */
  ghost function Elems<T>(q: seq<T>): set<T> {
    set x | x in q
  }

  /** A sequence without repetitions has as many elements as its set of elements. */
  lemma {:induction false} DistinctCard<T>(q: seq<T>)
    requires Distinct(q)
    ensures |Elems(q)| == |q|
  {
    if q != [] {
      DistinctCard(q[1..]);
      assert Elems(q) == Elems(q[1..]) + {q[0]};
      assert q[0] !in Elems(q[1..]) by {
        forall j | 0 <= j < |q[1..]| ensures q[1..][j] != q[0] {
          assert q[1..][j] == q[j + 1];
        }
      }
    }
  }
}
