/**
 * Optional values, the abstract result of a network request, and the
 * fallback rule every error message of the client uses.
 */
module Wrappers {

  datatype Option<T> = None | Some(value: T) {
    function GetOr(default: T): T {
      if Some? then value else default
    }
  }

  /**
   * What an awaited request settles to: the response body, or a rejection
   * carrying the `message` field of the server's error response when there
   * was one. Transport details (status codes, headers) are abstracted away.
   */
  datatype Outcome<T> = Success(body: T) | Failure(serverMessage: Option<string>)

  /**
   * JavaScript's `text || fallback` on an optional string: an absent or
   * empty string is falsy, so the fallback is used.
   */
  function OrElse(text: Option<string>, fallback: string): (r: string)
    ensures text.Some? && text.value != "" ==> r == text.value
    ensures text.None? || text.value == "" ==> r == fallback
    ensures fallback != "" ==> r != ""
  {
    if text.Some? && text.value != "" then text.value else fallback
  }
}

/** The colours the dashboard paints tiers and bars with. */
module Palette {
  const Green := "#4caf50"
  const Orange := "#ff9800"
  const Red := "#f44336"
  /** The red of an over-limit bar in the weekly trend graph. */
  const BarRed := "#ff4d4d"
}
