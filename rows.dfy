/** The row records exchanged between the renderer and the local store
    (`src/shared/types/localdb.ts`), and the JavaScript number conventions
    the store applies to them. */
module Rows {
  import opened Wrappers
  import opened Json

  datatype SessionData = SessionData(
    userUuid: string,
    accessToken: string,
    refreshToken: string,
    expiresAt: int,
    deviceId: string)

  datatype ProfileRow = ProfileRow(userUuid: string, payload: JsonObject, updatedAt: int)

  datatype FriendRow = FriendRow(
    userUuid: string, peerUuid: string, payload: JsonObject, version: int, updatedAt: int)

  datatype FriendAction = Upsert | Delete

  /** One entry of an incremental friend sync; `delete` entries carry no payload. */
  datatype FriendChange = FriendChange(
    action: FriendAction, peerUuid: string, payload: Option<JsonObject>, version: int,
    updatedAt: Option<int>)

  datatype FriendApplyRow = FriendApplyRow(
    userUuid: string, applyId: int, direction: string, status: int, payload: JsonObject,
    updatedAt: int)

  datatype BlacklistRow = BlacklistRow(
    userUuid: string, peerUuid: string, payload: JsonObject, updatedAt: int)

  datatype ConversationRow = ConversationRow(
    userUuid: string, convId: string, payload: JsonObject, updatedAt: int)

  datatype MessageRow = MessageRow(
    userUuid: string, convId: string, msgId: string, clientMsgId: Option<string>,
    seqNo: Option<int>, sendTime: int, payload: JsonObject, status: int)

  // Most recent first: the `ORDER BY … DESC` of the local store and the
  // `b.updatedAt - a.updatedAt` comparators of the renderer stores
  predicate FriendNewer(a: FriendRow, b: FriendRow) { a.updatedAt >= b.updatedAt }
  predicate BlacklistNewer(a: BlacklistRow, b: BlacklistRow) { a.updatedAt >= b.updatedAt }
  predicate ApplyNewer(a: FriendApplyRow, b: FriendApplyRow) { a.updatedAt >= b.updatedAt }
  predicate ConversationNewer(a: ConversationRow, b: ConversationRow) { a.updatedAt >= b.updatedAt }
  predicate SentLater(a: MessageRow, b: MessageRow) { a.sendTime >= b.sendTime }

  /** `n || fallback` on a number: 0 (and a missing value) is falsy. */
  function OrElse(n: int, fallback: int): int {
    if n != 0 then n else fallback
  }

  /** A JavaScript number as `Number.isFinite` sees it; `undefined`, NaN and
      the infinities are all `NotFinite`. */
  datatype JsNumber = Finite(value: real) | NotFinite

  /** `Math.trunc`: drops the fraction, rounding toward zero. */
  function Trunc(x: real): (r: int)
    ensures x >= 0.0 ==> 0 <= r && r as real <= x < r as real + 1.0
    ensures x < 0.0 ==> r <= 0 && r as real - 1.0 < x <= r as real
  {
    if x >= 0.0 then x.Floor else -((-x).Floor)
  }
}
