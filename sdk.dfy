/**
 * The Morpheus SDK as the core sees it: every call returns a decoded value,
 * the HTTP response and an error. The endpoints themselves are parameters
 * of the operations that call them.
 */
module Sdk {
  import opened Wrappers
  import ErrorText

  /**
   * An `Execute()` result: a response (possibly with an error, e.g. a
   * non-2xx status or a decoding failure) and the decoded value, or an
   * error with no response at all.
   */
  datatype Reply<T> = Answered(resp: ErrorText.Response, err: Option<string>, value: T) | NoResponse(cause: string)

  /** `err == nil && hresp.StatusCode == http.StatusOK`. */
  predicate Succeeded<T>(r: Reply<T>)
  {
    r.Answered? && r.err.None? && r.resp.statusCode == 200
  }

  /** `errors.ErrMsg(err, hresp)` for a reply. */
  function FailureText<T>(r: Reply<T>): string
  {
    if r.Answered? then ErrorText.ErrMsg(r.err, Some(r.resp)) else ErrorText.ErrMsg(Some(r.cause), None)
  }
}
