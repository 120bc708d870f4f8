/** Failure-compatible result type shared by the whole model, and the error
    conditions the dump tools raise. */
module Wrappers {

  /** The conditions under which the Python code raises. */
  datatype Error =
    | InvalidSignature      // header magic is not "MDMP"
    | MalformedRecord       // struct.unpack given a buffer of the wrong length
    | TupleLength           // unpack_tuple given a tuple of the wrong length
    | ValueOutOfRange       // struct.pack given an integer that does not fit its field
    | OversizeWrite         // set_stream asked to write more than the placeholder holds
    | BadString             // a UTF-16LE string whose byte length is odd
    | OutOfWindow           // a seek past the end of a sub-stream window

  datatype Result<+T> = Success(value: T) | Failure(error: Error) {
    predicate IsFailure() { Failure? }

    function PropagateFailure<U>(): Result<U>
      requires Failure?
    {
      Failure(error)
    }

    function Extract(): T
      requires Success?
    {
      value
    }
  }

  datatype Option<+T> = None | Some(value: T)
}
