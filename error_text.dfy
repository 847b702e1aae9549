/** The user-facing error text shared by the action error tables
    (`src/renderer/src/shared/utils/error.ts` and the three
    `error-message.ts` modules): what a thrown value says, and the cascade
    every table lookup follows. */
module ErrorText {
  import opened Wrappers

  const UnknownErrorMessage := "发生未知错误"
  const SessionInvalidMessage := "登录状态失效，请重新登录。"

  /** A thrown value, as far as the message helpers tell them apart. */
  datatype Thrown = ErrorValue(message: string) | StringValue(text: string) | OtherValue

  /** `normalizeErrorMessage`: an `Error`'s message, a string as it is, and
      a fixed text for anything else. */
  function NormalizeErrorMessage(error: Thrown): (r: string)
    ensures error.ErrorValue? ==> r == error.message
    ensures error.StringValue? ==> r == error.text
    ensures error.OtherValue? ==> r == UnknownErrorMessage
  {
    match error
    case ErrorValue(message) => message
    case StringValue(text) => text
    case OtherValue => UnknownErrorMessage
  }

  /** `resolveAuthStatusMessage` (the same in each module): codes 20001,
      20002 and 20003 mean the login is no longer valid. */
  function ResolveAuthStatusMessage(code: int): (r: Option<string>)
    ensures r.Some? <==> 20001 <= code <= 20003
    ensures r.Some? ==> r.value == SessionInvalidMessage
  {
    if code == 20001 || code == 20002 || code == 20003 then Some(SessionInvalidMessage) else None
  }

  /** The cascade of the `resolve…ErrorMessage` functions for the business
      code extracted from `error`: a login-status code first, then the
      action's own text for that code, then the thrown value's message. */
  function ResolveByTable(table: map<int, string>, code: Option<int>, error: Thrown): (r: string)
    ensures code.Some? && 20001 <= code.value <= 20003 ==> r == SessionInvalidMessage
    ensures code.Some? && !(20001 <= code.value <= 20003) && code.value in table && table[code.value] != "" ==>
              r == table[code.value]
    ensures code.None? || (!(20001 <= code.value <= 20003) && (code.value !in table || table[code.value] == "")) ==>
              r == NormalizeErrorMessage(error)
  {
    if code.Some? && ResolveAuthStatusMessage(code.value).Some? then ResolveAuthStatusMessage(code.value).value
    else if code.Some? && code.value in table && table[code.value] != "" then table[code.value]
    else NormalizeErrorMessage(error)
  }
}
