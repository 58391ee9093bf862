/** Values shared by every part of the model: optional values, results of calls
    that may raise, the exceptions the system raises or passes on, and Python's
    truthiness rules for the values the source tests with `if x` / `x or y`. */
module Common {

  datatype Option<+T> = None | Some(value: T)

  /** A call that either returns a value or raises. */
  datatype Result<+T> = Success(value: T) | Failure(error: Error)

  /** A call that returns nothing useful and may raise. */
  datatype Outcome = Pass | Fail(error: Error)

  /** A Python exception as callers see it: `str(e)` is `message`. `ValueError`
      is raised by the system's own checks; `LibraryError` stands for anything a
      library (LangChain, OpenAI, Pinecone, Whisper, yt-dlp) raises. */
  datatype Error = ValueError(message: string) | LibraryError(message: string)

  /** Truthiness of an optional string: `None` and `""` are falsy. */
  predicate Truthy(s: Option<string>)
  {
    s.Some? && s.value != ""
  }

  /** Truthiness of an optional integer: `None` and `0` are falsy. */
  predicate TruthyInt(k: Option<int>)
  {
    k.Some? && k.value != 0
  }
}
