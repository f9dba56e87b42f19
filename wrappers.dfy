/** Small shared datatypes: optional values, the exceptions the engine can raise,
    and the outcome of an operation that may raise after mutating state. */
module Wrappers {

  /** `None` stands for a missing keyword argument or for a NaN increment. */
  datatype Option<+T> = None | Some(value: T)

  /** The Python exceptions raised by the modelled code.
      NaNArithmetic marks a computation whose Python result would be NaN. */
  datatype Error = ValueError | KeyError | ZeroDivisionError | AttributeError | TypeError | NaNArithmetic

  datatype Result<+T> = Ok(value: T) | Err(error: Error)

  /** What an operation leaves behind, together with the exception it raised, if any.
      A Python exception does not undo the mutations made before it, so the state is
      kept in both cases. */
  datatype Attempt<+S> = Attempt(state: S, raised: Option<Error>)
  {
    predicate Succeeded() { raised.None? }
  }

  /** No element occurs twice, as for the keys of a dict. */
  ghost predicate Distinct<T>(s: seq<T>)
  {
    forall i, j :: 0 <= i < j < |s| ==> s[i] != s[j]
  }

  /** Dropping the last element of a sequence without duplicates leaves one without
      duplicates that lacks that element. */
  lemma DistinctInit<T>(s: seq<T>)
    requires Distinct(s) && s != []
    ensures Distinct(s[..|s| - 1]) && s[|s| - 1] !in s[..|s| - 1]
    ensures forall x :: x in s <==> x in s[..|s| - 1] || x == s[|s| - 1]
  {
    var init := s[..|s| - 1];
    assert s == init + [s[|s| - 1]];
    forall i | 0 <= i < |init| ensures init[i] != s[|s| - 1] {
      assert init[i] == s[i];
    }
  }
}
