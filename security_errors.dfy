/** The error text of the account security actions
    (`src/renderer/src/modules/security/error-message.ts`). */
module SecurityErrors {
  import opened Wrappers
  import opened ErrorText

  datatype SecurityAction = SendEmailCode | ChangeEmail | ChangePassword | DeleteAccount

  const SendTooFrequentCode := 11028
  const AccountDeletedText := "当前账号已注销，无法继续操作。"
  const EmailTakenText := "该邮箱已被使用，请更换后重试。"

  /** `SECURITY_ERROR_MESSAGES`: the text of each code, per action. */
  function SecurityErrorMessages(action: SecurityAction): map<int, string> {
    match action
    case SendEmailCode => map[
      10001 := "请输入正确的新邮箱地址。", 11027 := "新邮箱格式不正确。",
      11028 := "验证码发送过于频繁，请稍后再试。", 10005 := "请求过于频繁，请稍后再试。",
      11018 := "验证码类型无效，请刷新后重试。", 11029 := AccountDeletedText]
    case ChangeEmail => map[
      10001 := "请检查邮箱与验证码是否填写完整。", 11027 := "新邮箱格式不正确。",
      11015 := EmailTakenText, 11006 := "验证码错误，请重新输入。",
      11007 := "验证码已过期，请重新获取。", 11029 := AccountDeletedText]
    case ChangePassword => map[
      10001 := "请检查旧密码和新密码格式。", 11003 := "旧密码不正确，请重试。",
      11009 := "新密码不能与旧密码相同。", 11019 := "密码格式不正确，请使用 8-16 位密码。",
      11029 := AccountDeletedText]
    case DeleteAccount => map[
      10001 := "请检查密码或注销原因格式。", 11003 := "密码错误，无法注销账号。",
      11029 := "账号已处于注销状态。"]
  }

  /** `resolveSecurityErrorMessage`, with `code` the business code taken
      from `error`. */
  function ResolveSecurityErrorMessage(action: SecurityAction, code: Option<int>, error: Thrown): (r: string)
    ensures code.Some? && 20001 <= code.value <= 20003 ==> r == SessionInvalidMessage
    ensures code.Some? && code.value in SecurityErrorMessages(action) ==> r == SecurityErrorMessages(action)[code.value]
    ensures code.None? || (code.value !in SecurityErrorMessages(action) && !(20001 <= code.value <= 20003)) ==>
              r == NormalizeErrorMessage(error)
  {
    TableAvoidsLoginCodes(action);
    ResolveByTable(SecurityErrorMessages(action), code, error)
  }

  /** No action's table holds a login-status code or an empty text. */
  lemma TableAvoidsLoginCodes(action: SecurityAction)
    ensures forall c :: c in SecurityErrorMessages(action) ==> !(20001 <= c <= 20003) && SecurityErrorMessages(action)[c] != ""
  {
  }

  /** `isSendTooFrequentError`: the business code taken from the error is
      11028, the code whose text, while sending an email code, asks the user
      to wait. */
  function IsSendTooFrequentError(code: Option<int>): (r: bool)
    ensures r <==> code.Some? && code.value == 11028
    ensures r ==> forall e :: ResolveSecurityErrorMessage(SendEmailCode, code, e) == "验证码发送过于频繁，请稍后再试。"
  {
    code == Some(SendTooFrequentCode)
  }

  /** The cases the module's tests state: 11028 while sending an email code
      (also recognised as too frequent), 11015 while changing the email,
      20003 while changing the password, and an error without a code
      falling back to its message (and not too frequent). */
  lemma SecurityExamples()
    ensures ResolveSecurityErrorMessage(SendEmailCode, Some(11028), OtherValue) == "验证码发送过于频繁，请稍后再试。"
    ensures IsSendTooFrequentError(Some(11028))
    ensures ResolveSecurityErrorMessage(ChangeEmail, Some(11015), OtherValue) == "该邮箱已被使用，请更换后重试。"
    ensures ResolveSecurityErrorMessage(ChangePassword, Some(20003), OtherValue) == "登录状态失效，请重新登录。"
    ensures ResolveSecurityErrorMessage(DeleteAccount, None, ErrorValue("fallback message")) == "fallback message"
    ensures !IsSendTooFrequentError(None)
  {
  }
}
