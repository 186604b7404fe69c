/** Option and Result values, and the call-level errors of the client. */
module Wrappers {

  datatype Option<+T> = None | Some(value: T)

  datatype Result<+T, +E> = Success(value: T) | Failure(error: E)

  /** The discrete errors a search call can end with. `Panic` stands for a
      Go runtime panic (an index or slice bound out of range) inside a page
      task, which ends the whole process. */
  datatype Error =
    | MissingKeywords
    | TokenNotFound(keywords: string)
    | ExtractionFailed(keywords: string)
    | TransportError
    | DecodeError
    | InvalidBackend
    | Panic
}
