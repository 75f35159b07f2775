/** Result and error types shared by the serialization layer.

    The repository's `SerializationError` and `DeserializationError` are
    defined outside the v0 format file; here they are collapsed into the few
    constructors the format code can produce. */
module Errors {

  /** A value or an error, as Rust's `Result`. */
  datatype Result<+T, +E> = Success(value: T) | Failure(error: E) {
    predicate IsFailure() {
      Failure?
    }

    function PropagateFailure<U>(): Result<U, E>
      requires Failure?
    {
      Failure(error)
    }

    function Extract(): T
      requires Success?
    {
      value
    }
  }

  /** Why a header check panicked instead of returning an error. */
  datatype Panic =
    | MissingMagic                          // `assert!(starts_with(MAGIC))` failed
    | IndexOutOfBounds(index: nat, len: nat) // `serialized[MAGIC.len()]` past the end
    | BadVersion(found: bv8)                // `assert!(serialized[MAGIC.len()] == 0)` failed

  /** What a call that may panic produces: a value, a returned error, or a
      panic. */
  datatype Outcome<+T, +E> = Ok(value: T) | Err(error: E) | Abort(panic: Panic)

  /** Lifts a returned `Result` into an `Outcome` that did not panic. */
  function Lift<T, E>(r: Result<T, E>): (o: Outcome<T, E>)
    ensures !o.Abort?
    ensures o.Ok? <==> r.Success?
    ensures o.Ok? ==> o.value == r.value
    ensures o.Err? ==> o.error == r.error
  {
    match r
    case Success(v) => Ok(v)
    case Failure(e) => Err(e)
  }

  /** The encoder could not represent a value. */
  datatype SerializationError = EncodeError

  /** How a payload failed to decode. */
  datatype DecodeFailure =
    | Malformed                    // the byte-level codec rejected the bytes
    | WrongType(position: nat)     // the element at this position has the wrong shape
    | MissingField(found: nat)     // the record ended after this many elements

  datatype DeserializationError =
    | DecodeError(failure: DecodeFailure)
    | FramingError                 // bad magic or version byte (corrected behaviour only)
}
