/** Option and Result: the nullable values and the thrown exceptions of the source. */
module Wrappers {
  datatype Option<+T> = None | Some(value: T) {
    function GetOr(default: T): T {
      match this
      case Some(v) => v
      case None => default
    }
  }

  /** The value, if any, as a sequence of at most one element. */
  function OptionSeq<T>(o: Option<T>): seq<T>
  {
    if o.Some? then [o.value] else []
  }

  /** Concatenation regroups freely; stated once so that list laws can cite it. */
  lemma AppendAssoc<T>(h: seq<T>, p: seq<T>, q: seq<T>)
    ensures h + (p + q) == (h + p) + q
  {
  }

  datatype Result<+R, +E> = Ok(value: R) | Err(error: E)
}

/** A thrown Throwable, reduced to what the callers inspect: its class and its message. */
module Errors {
  import opened Wrappers

  datatype FailureKind =
    | IOFailure       // java.io.IOException
    | TimeoutFailure  // kotlinx.coroutines.TimeoutCancellationException
    | OtherFailure

  datatype Failure = Failure(kind: FailureKind, message: Option<string>)
}
