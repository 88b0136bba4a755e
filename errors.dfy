/**
 * Error values as the logger and the response layer see them. Go inspects an
 * `error` by type assertion; here every capability it probes for is an
 * explicit, optional field of one value.
 */
module Errors {
  import opened Wrappers

  /**
   * An error value.
   * - `message`: what `Error()` returns.
   * - `isApp`: the value implements `GetErrorMsg`, `Unwrap` and `GetStackTrace`
   *   (an application error built by the errorx package).
   * - `cause`: what `Unwrap()` returns; `None` is a nil cause or no `Unwrap` at all.
   * - `verbose`: the `%+v` rendering when the value implements `fmt.Formatter`.
   * - `code`: what `Code()` returns, when the value has that method.
   * - `httpStatus`: what `HttpStatus()` returns, when the value has that method.
   */
  datatype Error = Error(
    message: string,
    isApp: bool,
    cause: Option<Error>,
    verbose: Option<string>,
    code: Option<int>,
    httpStatus: Option<int>)

  /**
   * What `fmt.Sprintf("%+v", err)` yields: the formatter's own rendering when
   * the value implements `fmt.Formatter`, otherwise the `Error()` text.
   */
  function Rendered(e: Error): (s: string)
    ensures e.verbose.None? ==> s == e.message
    ensures e.verbose.Some? ==> s == e.verbose.value
  {
    e.verbose.GetOr(e.message)
  }

  /** The entries of the errspec table that the modelled code refers to. */
  datatype Spec = ErrUnknown | ErrNotFound | ErrQueryParamEmpty | ErrRecordNotExist

  /**
   * The stable numeric code of an errspec entry. The errspec table is not part
   * of this model: these are stand-in values, and only their distinctness is used.
   */
  function Code(s: Spec): int
  {
    match s
    case ErrUnknown => 1
    case ErrNotFound => 2
    case ErrQueryParamEmpty => 3
    case ErrRecordNotExist => 4
  }
}
