/** Values shared by every part of the bridge: optional and fallible results,
    bytes, the errors collaborators return and the Go runtime panics the code
    can raise. */
module Common {

  datatype Option<T> = None | Some(value: T)

  datatype Result<T, E> = Success(value: T) | Failure(error: E)

  newtype byte = b: int | 0 <= b < 256

  /** A Go `[]byte`; a nil slice and an empty one are both `[]`. */
  type Bytes = seq<byte>

  /** An `error` value handed back by a collaborator; only its text is kept. */
  datatype Error = Error(text: string)

  /** Why a goroutine stopped with a run-time panic. */
  datatype Panic =
    | IndexOutOfRange            // values[0] on an empty value list
    | NilDereference             // resp.Body on a nil *http.Response
    | PublishFailed(err: Error)  // panic(err) after Publish reported a failure

  /** What `io.ReadAll` hands back: the bytes read so far and the error that
      stopped it, if any. */
  datatype ReadOutcome = ReadOutcome(data: Bytes, err: Option<Error>)

  /** The bytes of a Go string literal written in ASCII. */
  function Ascii(s: string): Bytes
    requires forall i :: 0 <= i < |s| ==> s[i] as int < 128
  {
    seq(|s|, i requires 0 <= i < |s| => s[i] as int as byte)
  }
}
