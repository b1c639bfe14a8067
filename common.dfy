/** Shared vocabulary of the model: bytes, Go's `error` and the outcome of an
    operation that may fail. */
module Common {

  /** One byte of a message body (Go's `byte`). */
  newtype byte = x: int | 0 <= x < 256

  /** A message body (Go's `[]byte`). */
  type Bytes = seq<byte>

  /** `None` is a nil value; for a Go `error`, `Some(text)` is a non-nil
      error whose `Error()` is `text`. */
  datatype Option<T> = None | Some(value: T)

  /** The result of an external collaborator that either produces a value or
      fails with an error text (used for decoding). */
  datatype Result<T> = Ok(value: T) | Failure(text: string)

  /** The state an operation leaves behind together with the `error` it
      returns. */
  datatype Outcome<S> = Outcome(state: S, err: Option<string>)

  /** The text of the error every unsupported lifecycle operation returns:
      the event's subject followed by " not supported". */
  function NotSupported(subject: string): (text: string)
    ensures |text| == |subject| + 14
    ensures text[..|subject|] == subject
    ensures text[|subject|..] == " not supported"
  {
    subject + " not supported"
  }
}
