/** The record types shared by the front end (src/types/index.ts), plus the
    optional-value and error-return wrappers the rest of the model uses. */
module Types {

  /** A value that may be absent: TypeScript's `field?: T`, Rust's `Option<T>`. */
  datatype Option<+T> = None | Some(value: T) {
    function GetOr(default: T): T {
      match this
      case Some(v) => v
      case None => default
    }
  }

  /** Rust's `Result<T, E>`. */
  datatype Result<+T, +E> = Ok(value: T) | Err(error: E)

  /** What the transcription service returns; `concise` may be missing. */
  datatype TranscriptionResult = TranscriptionResult(verbatim: string, concise: Option<string>)

  /** One transcript entry. Unlike the service result, `concise` is always
      present here; `error` is set only when transcription failed. */
  datatype Message = Message(
    id: string,
    timestamp: int,
    verbatim: string,
    concise: string,
    isProcessing: bool,
    error: Option<string>)
}
