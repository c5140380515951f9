/** Shared result types for the post-processing model.

    The scripts report failure by letting a Python exception escape.  Each
    operation here returns a `Result`, whose `Err` names the exception class
    the script would raise at that point. */
module Common {

  /** The Python exception (or non-termination) that ends a script. */
  datatype PyError =
    | IndexError          // subscript out of range, missing list element
    | ValueError          // bad number, argmin of an empty array, shape mismatch
    | NameError           // a local read before any assignment (UnboundLocalError)
    | TypeError           // arithmetic with None, iterating a 0-d array
    | ZeroDivisionError   // weights summing to zero, integer division by zero
    | FileNotFoundError   // a required input file is absent
    | NonTermination      // the loop as written never exits

  datatype Option<+T> = None | Some(value: T)

  datatype Result<+T> = Ok(value: T) | Err(error: PyError) {
    predicate IsFailure() { Err? }
    function PropagateFailure<U>(): Result<U>
      requires Err?
    {
      Err(error)
    }
    function Extract(): T
      requires Ok?
    {
      value
    }
  }

  /** `out` in front of the list a result holds; an error stays. */
  function Prepend<T>(out: seq<T>, r: Result<seq<T>>): (p: Result<seq<T>>)
    ensures p.Err? <==> r.Err?
    ensures p.Err? ==> p.error == r.error
    ensures p.Ok? ==> p.value == out + r.value
  {
    match r
    case Err(e) => Err(e)
    case Ok(rest) => Ok(out + rest)
  }

  /** Prepending twice is prepending both lists at once. */
  lemma PrependPrepend<T>(a: seq<T>, b: seq<T>, r: Result<seq<T>>)
    ensures Prepend(a, Prepend(b, r)) == Prepend(a + b, r)
  {
    if r.Ok? { assert a + (b + r.value) == (a + b) + r.value; }
  }
}
