/** Value types shared by the pages: optional fields, the `value || fallback`
    idiom the pages use to pick a message, the outcome of an awaited API call
    and the alert a page shows afterwards. */
module Common {

  datatype Option<+T> = None | Some(value: T)

  /** JavaScript `s || fallback` on a string field that may be absent: an
      absent field and the empty string are both falsy. */
  function OrElse(s: Option<string>, fallback: string): (r: string)
    ensures s.Some? && s.value != "" ==> r == s.value
    ensures !(s.Some? && s.value != "") ==> r == fallback
    ensures fallback != "" ==> r != ""
  {
    if s.Some? && s.value != "" then s.value else fallback
  }

  /** What an API wrapper throws: the error's `message` and, when the server
      answered, its `response.data.error`. */
  datatype ApiError = ApiError(message: string, serverError: Option<string>)

  /** An awaited API wrapper either resolves with a payload or throws. */
  datatype Reply<+T> = Resolved(value: T) | Failed(error: ApiError)

  datatype Icon = SuccessIcon | WarningIcon | ErrorIcon

  /** A SweetAlert message box, reduced to what it says. */
  datatype Alert = Alert(title: string, text: string, icon: Icon)
}
