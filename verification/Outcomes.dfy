// Nullable columns and error returns, shared by every module of the model.

module Outcomes {

  datatype Option<+T> = None | Some(value: T)

  // What a request handler gives back: a value, or the status code of the
  // exception it raised. A raised request leaves no trace in the database.
  datatype Result<+T> = Ok(value: T) | Raised(code: nat)
  {
    predicate IsFailure() {
      Raised?
    }

    function PropagateFailure<U>(): Result<U>
      requires Raised?
    {
      Raised(code)
    }

    function Extract(): T
      requires Ok?
    {
      value
    }
  }

  function Min(a: int, b: int): int {
    if a < b then a else b
  }

  function Max(a: int, b: int): int {
    if a < b then b else a
  }

  // The largest of some numbers, zero when there are none.
  ghost function MaxOf(numbers: set<nat>): (m: nat)
    ensures forall n :: n in numbers ==> n <= m
    ensures if numbers == {} then m == 0 else m in numbers
  {
    if numbers == {} then
      0
    else
      var n :| n in numbers;
      assert forall k :: k in numbers ==> k == n || k in numbers - {n};
      Max(n, MaxOf(numbers - {n}))
  }
}
