// Crate-level types of the gateway: the error enum of src/lib.rs, the
// structured fault carried by an encoding error, and the Option/Result
// wrappers every other module returns.

module Gateway {

  datatype Option<+T> = None | Some(value: T)

  /** A failure-compatible result, usable with `:-`. */
  datatype Result<+R, +E> = Success(value: R) | Failure(error: E) {
    predicate IsFailure() { Failure? }

    function PropagateFailure<U>(): Result<U, E>
      requires Failure?
    {
      Failure(error)
    }

    function Extract(): R
      requires Success?
    {
      value
    }
  }

  /** Rust's `u32`, the width of a transaction amount. */
  const U32_MAX: nat := 0xFFFF_FFFF
  type U32 = x: nat | x <= U32_MAX

  /**
   * Why an encoding could not be produced. The source reports these as free
   * text (or as panics); here each is a value that names what went wrong.
   */
  datatype Fault =
    | NoBank                                   // the operation names no bank
    | MissingAttribute(attribute: string)      // a required `Option` attribute is `None`
    | Unsupported(feature: string)             // a path the source leaves as `todo!()`
    | Overlength(value: string, path: seq<nat>, length: nat, maxLength: nat)
    | EmptyNetwork                             // `network[..1]` on an empty network name
    | MissingPosition                          // an encoding context without a position
    | MissingField(field: string)              // a fixed-layout key absent from the data map
    | FieldTooLong(field: string, length: nat, width: nat)

  /** The result of `r` with `prefix` in front of its text. */
  function Prepend(prefix: string, r: Result<string, Fault>): Result<string, Fault>
  {
    match r
    case Success(s) => Success(prefix + s)
    case Failure(e) => Failure(e)
  }

  /** Prefixing twice is prefixing once with both prefixes. */
  lemma PrependTwice(a: string, b: string, r: Result<string, Fault>)
    ensures Prepend(a, Prepend(b, r)) == Prepend(a + b, r)
  {
    if r.Success? {
      assert a + (b + r.value) == (a + b) + r.value;
    }
  }

  /** An empty prefix changes nothing. */
  lemma PrependEmpty(r: Result<string, Fault>)
    ensures Prepend("", r) == r
  {
    if r.Success? {
      assert "" + r.value == r.value;
    }
  }

  /** The crate's error type (src/lib.rs). */
  datatype GatewayError =
    | ValidationError(message: string)
    | EncodingError(fault: Fault)
    | FieldError(message: string)
}
