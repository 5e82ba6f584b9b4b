/** Failure-compatible wrappers shared by every module of the model.

    The Python code signals failure by raising; the model returns an `Err`
    carrying the exception that would have been raised. */
module Wrappers {

  datatype Option<+T> = None | Some(value: T)

  /** The exceptions the modelled Python code raises, explicitly or through
      the interpreter (a missing key, an attribute read on `None`, ...). */
  datatype Error =
    | KeyError(key: string)          // `d[k]` on a dict without `k`
    | TypeError                      // an operation applied to a value of the wrong kind
    | AttributeError                 // an attribute read on `None`
    | IndexError                     // a sequence index out of range
    | UnboundLocal                   // a local variable read before any assignment
    | ValueError(message: string)    // `ValueError`, raised explicitly or by `int()`
    | FilterError(message: string)   // Ansible's `AnsibleFilterError`
    | EmitError(message: string)     // pyang's `error.EmitError`

  datatype Result<+T> = Ok(value: T) | Err(error: Error) {

    predicate IsFailure() {
      Err?
    }

    function PropagateFailure<U>(): Result<U>
      requires Err?
    {
      Err(error)
    }

    function Extract(): T
      requires Ok?
    {
      value
    }
  }
}
