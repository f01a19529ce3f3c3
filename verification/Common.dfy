/** Small value types shared by every component of the model. */
module Common {

  datatype Option<+T> = None | Some(value: T)

  /** Success with a value, or the exception the original raises, reduced to its kind. */
  datatype Result<+T, +E> = Success(value: T) | Failure(error: E)

  /** True when `p` is the beginning of `s`. */
  predicate IsPrefix<T(==)>(p: seq<T>, s: seq<T>) {
    |p| <= |s| && s[..|p|] == p
  }

  predicate Distinct<T(==)>(s: seq<T>) {
    forall i, j :: 0 <= i < j < |s| ==> s[i] != s[j]
  }

  lemma SubsetSize<T>(small: set<T>, large: set<T>)
    requires small <= large
    ensures |small| <= |large| && |large - small| == |large| - |small|
    ensures |small| == |large| ==> small == large
  {
    assert large == small + (large - small);
    assert |large| == |small| + |large - small|;
  }

  /** Finitely many numbers leave one out. */
  lemma NewNumber(numbers: set<nat>) returns (n: nat)
    ensures n !in numbers && forall m :: m in numbers ==> m < n
  {
    if numbers == {} {
      n := 0;
    } else {
      var x :| x in numbers;
      var y := NewNumber(numbers - {x});
      n := if x < y then y else x + 1;
      assert forall m :: m in numbers ==> m == x || m in numbers - {x};
    }
  }
}
