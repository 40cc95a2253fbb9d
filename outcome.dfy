/** Python run-time failures that the orchestration script can raise, and a
    Result type that carries either a value or the exception that ended the
    computation. The script never catches these: a raised exception ends the
    current phase, and documents that are written only at the end of a phase are
    then never written. */
module Outcome {

  /** The exceptions the modelled code can raise. */
  datatype Exc =
    | IndexError   // list index out of range, pop from an empty list
    | KeyError     // dictionary lookup of a missing key
    | NameError    // a local variable read before it was ever bound

  datatype Result<+T> = Ok(value: T) | Raise(exc: Exc)

  datatype Option<+T> = None | Some(value: T)

  /** Python's `xs[k]`, negative indices counting from the end. */
  function At<T>(xs: seq<T>, k: int): (r: Result<T>)
    ensures r.Ok? <==> -|xs| <= k < |xs|
    ensures 0 <= k < |xs| ==> r == Ok(xs[k])
    ensures -|xs| <= k < 0 ==> r == Ok(xs[|xs| + k])
  {
    if 0 <= k < |xs| then Ok(xs[k])
    else if -|xs| <= k < 0 then Ok(xs[|xs| + k])
    else Raise(IndexError)
  }
}
