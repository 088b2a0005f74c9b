/** Option and Result for absent values and for the exceptions the source raises,
    plus two small sequence helpers shared by the other modules. */
module Base {

  /** A value that may be absent; Python's `None` is `None` here. */
  datatype Option<+T> = None | Some(value: T)

  /** Either the value an operation returns or the exception it raises. */
  datatype Result<+T> = Success(value: T) | Failure(error: Error)

  /** The outcome of an operation that returns nothing but may raise. */
  datatype Outcome = Pass | Fail(error: Error)

  /** The exceptions the modelled code can raise. */
  datatype Error =
    | ZeroDivision                       // Python's ZeroDivisionError
    | EmptyQuantile                      // IndexError from np.quantile on an empty list
    | EmptyMaximum                       // ValueError from max()/np.max on an empty sequence
    | UnknownAggregation(name: string)   // ValueError("Unknown aggregation method: ...")
    | ColumnLengthMismatch               // ValueError from pandas: columns of different lengths
    | NoResults                          // IndexError from results[0] after zero runs

  /** Where x first occurs in s; |s| when it does not occur. */
  ghost function Position<T>(s: seq<T>, x: T): nat {
    if s == [] then 0
    else
      var p := Position(s[..|s| - 1], x);
      if p < |s| - 1 then p else if s[|s| - 1] == x then |s| - 1 else |s|
  }

  /** No element occurs twice: each one first occurs at its own index. */
  ghost predicate Distinct<T>(s: seq<T>) {
    forall i :: 0 <= i < |s| ==> Position(s, s[i]) == i
  }

  /** Position finds the first occurrence of x, when there is one. */
  lemma {:induction false} PositionFinds<T>(s: seq<T>, x: T)
    ensures Position(s, x) <= |s|
    ensures Position(s, x) < |s| ==> s[Position(s, x)] == x
    ensures forall j :: 0 <= j < Position(s, x) ==> s[j] != x
  {
    if s != [] {
      var init := s[..|s| - 1];
      PositionFinds(init, x);
      forall j | 0 <= j < Position(s, x)
        ensures s[j] != x
      {
        if j < |init| {
          assert s[j] == init[j];
        }
      }
    }
  }

  /** A sequence is Distinct exactly when no two of its indices hold the same element. */
  lemma DistinctPairwise<T>(s: seq<T>)
    ensures Distinct(s) <==> forall i, j :: 0 <= i < j < |s| ==> s[i] != s[j]
  {
    if forall i, j :: 0 <= i < j < |s| ==> s[i] != s[j] {
      forall i | 0 <= i < |s|
        ensures Position(s, s[i]) == i
      {
        PositionFinds(s, s[i]);
      }
    }
  }

  /** The indices 0, 1, ..., n-1 in increasing order. */
  function Indices(n: nat): (r: seq<nat>)
    ensures |r| == n
    ensures forall i :: 0 <= i < n ==> r[i] == i
    ensures Distinct(r)
  {
    var s := if n == 0 then [] else Indices(n - 1) + [n - 1];
    assert forall i :: 0 <= i < n ==> s[i] == i;
    DistinctPairwise<nat>(s);
    s
  }
}
