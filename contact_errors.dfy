/** The error text of the relation actions
    (`src/renderer/src/modules/contact/error-message.ts`). */
module ContactErrors {
  import opened Wrappers
  import opened ErrorText

  datatype RelationAction =
    | SendFriendApply | DeleteFriend | AddBlacklist | RemoveBlacklist | SetFriendRemark | SetFriendTag

  const TooFrequentText := "操作过于频繁，请稍后重试。"
  const UserMissingText := "目标用户不存在。"
  const BadParamText := "请求参数无效，请刷新后重试。"
  const NotFriendText := "当前已不是好友关系。"

  /** `RELATION_ERROR_MESSAGES`: the text of each code, per action. */
  function RelationErrorMessages(action: RelationAction): map<int, string> {
    match action
    case SendFriendApply => map[
      10001 := "搜索参数或申请参数不正确。", 11001 := UserMissingText,
      12001 := "对方已经是你的好友。", 12002 := "好友申请已发送，请勿重复提交。",
      12007 := "不能添加自己为好友。", 12008 := "好友数量已达上限。",
      16001 := "对方已将你拉黑，无法发送申请。", 16002 := "你已将对方拉黑，请先移出黑名单。",
      10005 := TooFrequentText]
    case DeleteFriend => map[
      10001 := BadParamText, 11001 := UserMissingText, 12003 := NotFriendText,
      14003 := "无权限执行删除操作。", 10005 := TooFrequentText]
    case AddBlacklist => map[
      10001 := BadParamText, 11001 := UserMissingText, 16003 := "对方已在黑名单中。",
      16005 := "不能将自己加入黑名单。", 16001 := "对方已将你拉黑。", 16002 := "你已将对方拉黑。",
      10005 := TooFrequentText]
    case RemoveBlacklist => map[
      10001 := BadParamText, 11001 := UserMissingText, 16004 := "目标用户不在黑名单中。",
      10005 := TooFrequentText]
    case SetFriendRemark => map[
      10001 := "备注格式不正确，请检查后重试。", 11001 := UserMissingText, 12003 := NotFriendText,
      11024 := "备注长度超出限制。", 14003 := "无权限修改该好友备注。", 10005 := TooFrequentText]
    case SetFriendTag => map[
      10001 := "标签格式不正确，请检查后重试。", 11001 := UserMissingText, 12003 := NotFriendText,
      12010 := "标签名称无效，请重新输入。", 14003 := "无权限修改该好友标签。", 10005 := TooFrequentText]
  }

  /** `resolveRelationErrorMessage`, with `code` the business code taken
      from `error`. */
  function ResolveRelationErrorMessage(action: RelationAction, code: Option<int>, error: Thrown): (r: string)
    ensures code.Some? && 20001 <= code.value <= 20003 ==> r == SessionInvalidMessage
    ensures code.Some? && code.value in RelationErrorMessages(action) ==> r == RelationErrorMessages(action)[code.value]
    ensures code.None? || (code.value !in RelationErrorMessages(action) && !(20001 <= code.value <= 20003)) ==>
              r == NormalizeErrorMessage(error)
  {
    TableAvoidsLoginCodes(action);
    ResolveByTable(RelationErrorMessages(action), code, error)
  }

  /** No action's table holds a login-status code or an empty text, so the
      login-status texts never hide a table entry. */
  lemma TableAvoidsLoginCodes(action: RelationAction)
    ensures forall c :: c in RelationErrorMessages(action) ==> !(20001 <= c <= 20003) && RelationErrorMessages(action)[c] != ""
  {
  }

  /** 16004 (not in the blacklist) has a text only for removing from the
      blacklist. */
  lemma NotInBlacklistOnlyOnRemove(action: RelationAction)
    ensures 16004 in RelationErrorMessages(action) <==> action == RemoveBlacklist
  {
  }

  /** The cases the module's tests state: 12003 while deleting a friend,
      16003 while blacklisting, 20002 (on any action) while unblocking, and
      an error without a code falling back to its message. */
  lemma RelationExamples()
    ensures ResolveRelationErrorMessage(DeleteFriend, Some(12003), OtherValue) == "当前已不是好友关系。"
    ensures ResolveRelationErrorMessage(AddBlacklist, Some(16003), OtherValue) == "对方已在黑名单中。"
    ensures forall a :: ResolveRelationErrorMessage(a, Some(20002), OtherValue) == "登录状态失效，请重新登录。"
    ensures ResolveRelationErrorMessage(AddBlacklist, None, ErrorValue("fallback relation error"))
            == "fallback relation error"
  {
  }
}
