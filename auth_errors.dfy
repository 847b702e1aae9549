/** The error text of the sign-in and sign-up actions
    (`src/renderer/src/modules/auth/error-message.ts`). */
module AuthErrors {
  import opened Wrappers
  import opened ErrorText

  datatype AuthAction = PasswordLogin | CodeLogin | Register | SendCode | VerifyCode | ResetPassword

  const BadEmailText := "邮箱格式不正确。"
  const WrongCodeText := "验证码错误，请重新输入。"
  const CodeExpiredText := "验证码已过期，请重新获取。"
  const SendTooFrequentText := "验证码发送过于频繁，请稍后再试。"

  /** `AUTH_ERROR_MESSAGES`: the text of each code, per action. */
  function AuthErrorMessages(action: AuthAction): map<int, string> {
    match action
    case PasswordLogin => map[
      10001 := "请输入账号和密码。", 11003 := "账号或密码错误，请重试。",
      11017 := "账号不存在，请检查后重试。", 11029 := "账号已注销，暂不可登录。"]
    case CodeLogin => map[
      10001 := "请检查邮箱与验证码格式。", 11027 := BadEmailText, 11006 := WrongCodeText,
      11007 := CodeExpiredText, 11026 := "邮箱未注册，请先注册账号。", 11029 := "账号已注销，暂不可登录。"]
    case Register => map[
      10001 := "请填写完整且正确的注册信息。", 11027 := BadEmailText, 11006 := WrongCodeText,
      11007 := CodeExpiredText, 11015 := "该邮箱已注册，请直接登录。", 11002 := "用户已存在，请直接登录。",
      11019 := "密码格式不正确，请使用 6-20 位密码。"]
    case SendCode => map[
      10001 := "请输入正确的邮箱地址。", 11027 := BadEmailText, 11005 := BadEmailText,
      11028 := SendTooFrequentText, 10005 := "请求过于频繁，请稍后再试。",
      11018 := "验证码类型无效，请刷新页面后重试。", 11029 := "当前账号已注销，无法继续操作。"]
    case VerifyCode => map[
      10001 := "请检查邮箱和验证码格式。", 11027 := BadEmailText, 11006 := WrongCodeText,
      11007 := CodeExpiredText]
    case ResetPassword => map[
      10001 := "请填写完整的重置密码信息。", 11027 := BadEmailText, 11006 := WrongCodeText,
      11007 := CodeExpiredText, 11026 := "邮箱未注册，无法重置密码。",
      11019 := "新密码格式不正确，请使用 6-20 位密码。", 11029 := "账号已注销，无法重置密码。"]
  }

  /** `resolveAuthErrorMessage`, with `code` the business code taken from
      `error`. */
  function ResolveAuthErrorMessage(action: AuthAction, code: Option<int>, error: Thrown): (r: string)
    ensures code.Some? && 20001 <= code.value <= 20003 ==> r == SessionInvalidMessage
    ensures code.Some? && code.value in AuthErrorMessages(action) ==> r == AuthErrorMessages(action)[code.value]
    ensures code.None? || (code.value !in AuthErrorMessages(action) && !(20001 <= code.value <= 20003)) ==>
              r == NormalizeErrorMessage(error)
  {
    TableAvoidsLoginCodes(action);
    ResolveByTable(AuthErrorMessages(action), code, error)
  }

  /** No action's table holds a login-status code or an empty text. */
  lemma TableAvoidsLoginCodes(action: AuthAction)
    ensures forall c :: c in AuthErrorMessages(action) ==> !(20001 <= c <= 20003) && AuthErrorMessages(action)[c] != ""
  {
  }

  /** The cases the module's tests state: 11028 while sending a code, 11007
      while resetting the password, and an error without a code falling back
      to its message. */
  lemma AuthExamples()
    ensures ResolveAuthErrorMessage(SendCode, Some(11028), ErrorValue("fallback message"))
            == "验证码发送过于频繁，请稍后再试。"
    ensures ResolveAuthErrorMessage(ResetPassword, Some(11007), ErrorValue("fallback message"))
            == "验证码已过期，请重新获取。"
    ensures ResolveAuthErrorMessage(CodeLogin, None, ErrorValue("network unavailable")) == "network unavailable"
  {
  }
}
