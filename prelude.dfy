/**
 * Option and Result values, the kinds of error the modelled code raises, and
 * the two Python built-ins the model leans on: truthiness of an optional flag
 * and `range(n)`.
 */
module Prelude {

  datatype Option<+T> = None | Some(value: T)

  /** The exceptions the modelled Python code raises, named by their cause. */
  datatype Error =
    | DimensionNotFound   // find_index: "target_dim not found in dimensions list"
    | NoneValue           // TypeError: a label or list that is still None is used
    | IndexOutOfRange     // IndexError: a list or array index beyond its extent
    | VariableNotFound    // the dataset has no variable of that name
    | AxesDontMatch       // numpy transpose: the axes are not a permutation of the array's axes
    | ShapeMismatch       // a pointwise numpy operation on arrays of different shapes
    | TooManyArguments    // MapCommandsList(*args) with more than one argument

  datatype Result<+T> = Ok(value: T) | Err(error: Error) {
    predicate IsFailure() {
      Err?
    }

    function PropagateFailure<U>(): Result<U>
      requires Err?
    {
      Err(error)
    }

    function Extract(): T
      requires Ok?
    {
      value
    }
  }

  /** Python truthiness of an optional flag: None and False are both false. */
  predicate Truthy(b: Option<bool>) {
    b == Some(true)
  }

  /** `range(n)`: 0, 1, …, n-1. */
  function Range(n: nat): (r: seq<nat>)
    ensures |r| == n && forall i :: 0 <= i < n ==> r[i] == i
  {
    seq(n, (i: int) requires 0 <= i < n => i)
  }
}
