/** Failure-carrying wrappers shared by the editor model.
    `Option` stands for a nullable reference, `Result` for an operation that
    either returns a value or throws an error message. */
module Results {

  datatype Option<+T> = None | Some(value: T)

  datatype Result<+T, +E> = Ok(value: T) | Err(error: E)

  /** The set of elements of a sequence. */
  function Elements<T>(s: seq<T>): set<T>
  {
    set x | x in s
  }

  /** True iff no element occurs twice in `s`. */
  predicate Distinct<T(==)>(s: seq<T>)
  {
    forall i, j :: 0 <= i < j < |s| ==> s[i] != s[j]
  }

  /** A sequence without repetitions has as many distinct elements as entries. */
  lemma {:induction false} DistinctCardinality<T>(s: seq<T>)
    requires Distinct(s)
    ensures |Elements(s)| == |s|
  {
    if s != [] {
      var tail := s[1..];
      assert Distinct(tail) by {
        forall i, j | 0 <= i < j < |tail| ensures tail[i] != tail[j] {
          assert tail[i] == s[i + 1] && tail[j] == s[j + 1];
        }
      }
      DistinctCardinality(tail);
      assert Elements(s) == Elements(tail) + {s[0]};
      assert forall j :: 0 <= j < |tail| ==> tail[j] == s[j + 1] && s[j + 1] != s[0];
    }
  }

  /** In a sequence without repetitions no entry occurs again later. */
  lemma DistinctNotLater<T>(s: seq<T>, i: nat)
    requires Distinct(s) && i < |s|
    ensures s[i] !in s[i + 1..]
  {
    var later := s[i + 1..];
    assert forall j :: 0 <= j < |later| ==> later[j] == s[i + 1 + j];
  }
}
