/** Shared value types: Go's nilable values, its `error` returns and its
    `(value, error)` result pairs. */
module Common {

  /** A value that may be nil (a Go pointer or map that may be nil). */
  datatype Option<T> = None | Some(value: T)

  /** A Go `error`: `Nil` when the call succeeded, otherwise the error's text. */
  datatype Error = Nil | Err(msg: string)

  /** A Go `(T, error)` pair in which exactly one side is meaningful. */
  datatype Result<T> = Ok(value: T) | Fail(msg: string)

  /** The `error` half of a result, for calls whose value the caller drops. */
  function ErrorOf<T>(r: Result<T>): (e: Error)
    ensures e == Nil <==> r.Ok?
    ensures r.Fail? ==> e.msg == r.msg
  {
    match r
    case Ok(_) => Nil
    case Fail(m) => Err(m)
  }
}
