/** Optional values, results, and the Python exceptions the two clients can raise. */
module Outcomes {

  datatype Option<+T> = None | Some(value: T)

  /** `Ok` is a normal return; `Err` is an exception propagating out of the call. */
  datatype Result<+T> = Ok(value: T) | Err(error: Exc) {
    predicate IsFailure() { Err? }

    function PropagateFailure<U>(): Result<U>
      requires Err?
    {
      Err(error)
    }

    function Extract(): T
      requires Ok?
    {
      value
    }
  }

  /** The exceptions raised by the modelled code, by Python class. */
  datatype Exc =
    | JsonDecodeError(document: string)  // json.loads / response.json() on text that is not JSON
    | AttributeError                     // `.get` called on a value that is not a dict
    | TypeError                          // `x[0]` on a value that cannot be indexed, `''.join` over a non-str
    | KeyError                           // `d[0]` on a dict (JSON object keys are strings)
    | IndexError                         // `x[0]` on an empty list or string
    | ValueError(message: string)        // `raise ValueError(message)`
    | RaisedException(message: string)   // `raise Exception(message)`
}
