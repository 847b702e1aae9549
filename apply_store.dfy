/** The renderer's friend-application store
    (`src/renderer/src/stores/apply.store.ts`): the received applications
    (inbox), the sent ones, and the unread count with a flag telling whether
    the count came from the server.  Server responses and local-store
    replies are inputs; the writes the store hands to the local store are
    fire-and-forget and leave no trace in the store's own state. */
module ApplyStore {
  import opened Wrappers
  import opened Json
  import opened JsString
  import opened Keyed
  import opened Sorting
  import opened Rows
  import opened Paging

  // ---------------------------------------------------------------------
  // Server items and their rows
  // ---------------------------------------------------------------------

  /** A received application as the server lists it. */
  datatype ApplyItem = ApplyItem(
    applyId: int, applicantUuid: string, applicantNickname: string, applicantAvatar: string,
    reason: string, source: string, status: int, isRead: bool, createdAt: int)

  datatype TargetInfo = TargetInfo(nickname: Option<string>, avatar: Option<string>)

  /** A sent application as the server lists it. */
  datatype SentItem = SentItem(
    applyId: int, targetUuid: string, targetInfo: Option<TargetInfo>, reason: string,
    source: string, status: int, isRead: bool, createdAt: int)

  /** The body of a resend: the target, the reason (left out when empty),
      and the source tag. */
  datatype ResendRequest = ResendRequest(targetUuid: string, reason: Option<string>, source: string)

  const ResendSource := "desktop_resend"

  function Num(n: int): JsonValue { JNum(n as real) }

  /** `isRowRead`: the payload's `isRead` is `true` or `1`. */
  predicate IsRowRead(row: FriendApplyRow) {
    "isRead" in row.payload && (row.payload["isRead"] == JBool(true) || row.payload["isRead"] == Num(1))
  }

  /** `getString`: a string field of a payload, `''` otherwise. */
  function GetString(payload: JsonObject, key: string): string {
    StringField(payload, key, "")
  }

  /** `toApplyPayload`: every field of the item, by its own name, and
      nothing else. */
  function ToApplyPayload(item: ApplyItem): (p: JsonObject)
    ensures p.Keys == {"applyId", "applicantUuid", "applicantNickname", "applicantAvatar", "reason", "source",
                       "status", "isRead", "createdAt"}
    ensures GetString(p, "applicantUuid") == item.applicantUuid
    ensures GetString(p, "applicantNickname") == item.applicantNickname
    ensures GetString(p, "applicantAvatar") == item.applicantAvatar
    ensures GetString(p, "reason") == item.reason
    ensures GetString(p, "source") == item.source
    ensures p["applyId"] == Num(item.applyId) && p["status"] == Num(item.status)
    ensures p["createdAt"] == Num(item.createdAt)
    ensures p["isRead"] == JBool(item.isRead)
  {
    map[
      "applyId" := Num(item.applyId),
      "applicantUuid" := JStr(item.applicantUuid),
      "applicantNickname" := JStr(item.applicantNickname),
      "applicantAvatar" := JStr(item.applicantAvatar),
      "reason" := JStr(item.reason),
      "source" := JStr(item.source),
      "status" := Num(item.status),
      "isRead" := JBool(item.isRead),
      "createdAt" := Num(item.createdAt)]
  }

  /** `mapApplyToRow`: an inbox row whose read flag is the item's; a zero
      creation time is replaced by the current time. */
  function MapApplyToRow(user: string, item: ApplyItem, now: int): (r: FriendApplyRow)
    ensures r.userUuid == user && r.applyId == item.applyId && r.direction == "inbox"
    ensures r.status == item.status
    ensures r.payload == ToApplyPayload(item)
    ensures IsRowRead(r) <==> item.isRead
    ensures r.updatedAt == if item.createdAt != 0 then item.createdAt else now
  {
    FriendApplyRow(user, item.applyId, "inbox", item.status, ToApplyPayload(item), OrElse(item.createdAt, now))
  }

  /** `mapSentApplyToRow`: an outbox row naming the target; the target's
      nickname falls back to its id and its avatar to `''`. */
  function MapSentApplyToRow(user: string, item: SentItem, now: int): (r: FriendApplyRow)
    ensures r.userUuid == user && r.applyId == item.applyId && r.direction == "outbox"
    ensures r.status == item.status
    ensures GetString(r.payload, "targetUuid") == item.targetUuid
    ensures GetString(r.payload, "targetNickname")
            == if item.targetInfo.Some? && item.targetInfo.value.nickname.Some? then item.targetInfo.value.nickname.value
               else item.targetUuid
    ensures GetString(r.payload, "targetAvatar")
            == if item.targetInfo.Some? && item.targetInfo.value.avatar.Some? then item.targetInfo.value.avatar.value
               else ""
    ensures GetString(r.payload, "reason") == item.reason && GetString(r.payload, "source") == item.source
    ensures "status" in r.payload && r.payload["status"] == Num(item.status)
    ensures IsRowRead(r) <==> item.isRead
    ensures r.updatedAt == if item.createdAt != 0 then item.createdAt else now
  {
    var info := item.targetInfo.GetOr(TargetInfo(None, None));
    FriendApplyRow(user, item.applyId, "outbox", item.status,
      map[
        "applyId" := Num(item.applyId),
        "targetUuid" := JStr(item.targetUuid),
        "targetNickname" := JStr(info.nickname.GetOr(item.targetUuid)),
        "targetAvatar" := JStr(info.avatar.GetOr("")),
        "reason" := JStr(item.reason),
        "source" := JStr(item.source),
        "status" := Num(item.status),
        "isRead" := JBool(item.isRead),
        "createdAt" := Num(item.createdAt)],
      OrElse(item.createdAt, now))
  }

  function InboxRows(user: string, items: seq<ApplyItem>, now: int): (r: seq<FriendApplyRow>)
    ensures |r| == |items|
    ensures forall i :: 0 <= i < |items| ==> r[i] == MapApplyToRow(user, items[i], now)
  {
    seq(|items|, i requires 0 <= i < |items| => MapApplyToRow(user, items[i], now))
  }

  function SentRows(user: string, items: seq<SentItem>, now: int): (r: seq<FriendApplyRow>)
    ensures |r| == |items|
    ensures forall i :: 0 <= i < |items| ==> r[i] == MapSentApplyToRow(user, items[i], now)
  {
    seq(|items|, i requires 0 <= i < |items| => MapSentApplyToRow(user, items[i], now))
  }

  /** `buildUpdatedRow`: the row with its status and read flag patched (an
      absent patch field keeps the current value), in the column and in the
      payload alike, and stamped with the current time; nothing else of the
      payload changes. */
  function BuildUpdatedRow(row: FriendApplyRow, status: Option<int>, isRead: Option<bool>, now: int)
    : (r: FriendApplyRow)
    ensures r.userUuid == row.userUuid && r.applyId == row.applyId && r.direction == row.direction
    ensures r.status == status.GetOr(row.status)
    ensures IsRowRead(r) <==> isRead.GetOr(IsRowRead(row))
    ensures "status" in r.payload && r.payload["status"] == Num(r.status)
    ensures "isRead" in r.payload && r.payload["isRead"] == JBool(isRead.GetOr(IsRowRead(row)))
    ensures r.updatedAt == now
    ensures forall k :: k in row.payload && k != "status" && k != "isRead" ==> k in r.payload && r.payload[k] == row.payload[k]
  {
    var nextStatus := status.GetOr(row.status);
    var nextIsRead := isRead.GetOr(IsRowRead(row));
    row.(
      status := nextStatus,
      payload := row.payload["status" := Num(nextStatus)]["isRead" := JBool(nextIsRead)],
      updatedAt := now)
  }

  // ---------------------------------------------------------------------
  // Unread counting
  // ---------------------------------------------------------------------

  /** `countUnreadRows`. */
  function CountUnread(rows: seq<FriendApplyRow>): (n: int)
    ensures 0 <= n <= |rows|
    ensures n == 0 <==> forall j :: 0 <= j < |rows| ==> IsRowRead(rows[j])
  {
    if rows == [] then 0
    else
      var init := rows[..|rows| - 1];
      assert forall j :: 0 <= j < |init| ==> init[j] == rows[j];
      CountUnread(init) + (if IsRowRead(rows[|rows| - 1]) then 0 else 1)
  }

  lemma {:induction false} CountUnreadConcat(a: seq<FriendApplyRow>, b: seq<FriendApplyRow>)
    ensures CountUnread(a + b) == CountUnread(a) + CountUnread(b)
  {
    if b == [] {
      assert a + b == a;
    } else {
      assert (a + b)[..|a + b| - 1] == a + b[..|b| - 1];
      CountUnreadConcat(a, b[..|b| - 1]);
    }
  }

  /** Taking the row at `k` out removes its share of the count. */
  lemma {:induction false} CountUnreadRemove(b: seq<FriendApplyRow>, k: nat)
    requires k < |b|
    ensures CountUnread(b) == CountUnread(b[..k] + b[k + 1..]) + (if IsRowRead(b[k]) then 0 else 1)
  {
    var init := b[..|b| - 1];
    if k == |b| - 1 {
      assert b[..k] + b[k + 1..] == init;
    } else {
      CountUnreadRemove(init, k);
      var rest := init[..k] + init[k + 1..];
      assert b[..k] + b[k + 1..] == rest + [b[|b| - 1]];
      assert (rest + [b[|b| - 1]])[..|rest|] == rest;
    }
  }

  /** Taking the row at `k` out removes one copy of it. */
  lemma MultisetRemove(b: seq<FriendApplyRow>, k: nat)
    requires k < |b|
    ensures multiset(b[..k] + b[k + 1..]) == multiset(b) - multiset{b[k]}
  {
    assert b == b[..k] + [b[k]] + b[k + 1..];
  }

  /** The count does not depend on the order of the rows. */
  lemma {:induction false} CountUnreadPermutation(a: seq<FriendApplyRow>, b: seq<FriendApplyRow>)
    requires multiset(a) == multiset(b)
    ensures CountUnread(a) == CountUnread(b)
    decreases |a|
  {
    if a == [] {
      assert |b| == |multiset(b)| == 0;
    } else {
      var init := a[..|a| - 1];
      var x := a[|a| - 1];
      assert a == init + [x];
      assert x in multiset(b);
      var k :| 0 <= k < |b| && b[k] == x;
      CountUnreadRemove(b, k);
      MultisetRemove(b, k);
      CountUnreadPermutation(init, b[..k] + b[k + 1..]);
    }
  }

  /** Sorting a list does not change its unread count. */
  lemma SortKeepsUnread(rows: seq<FriendApplyRow>)
    ensures CountUnread(SortBy(rows, ApplyNewer)) == CountUnread(rows)
  {
    CountUnreadPermutation(SortBy(rows, ApplyNewer), rows);
  }

  // ---------------------------------------------------------------------
  // Merging by application id
  // ---------------------------------------------------------------------

  function ApplyIdOf(row: FriendApplyRow): int { row.applyId }

  /** Some row of `rows` has application id `k`. */
  predicate HasId(rows: seq<FriendApplyRow>, k: int) {
    LastIndex(rows, ApplyIdOf, k) >= 0
  }

  predicate UniqueIds(rows: seq<FriendApplyRow>) {
    forall i, j :: 0 <= i < j < |rows| ==> rows[i].applyId != rows[j].applyId
  }

  /** `map.set(row.applyId, row)` on the values of a `Map` keyed by id: the
      entry with the same id is replaced where it stands, or the row is
      appended. */
  function SetById(entries: seq<FriendApplyRow>, row: FriendApplyRow): seq<FriendApplyRow> {
    var i := LastIndex(entries, ApplyIdOf, row.applyId);
    if i >= 0 then entries[i := row] else entries + [row]
  }

  lemma SetByIdFacts(entries: seq<FriendApplyRow>, row: FriendApplyRow)
    requires UniqueIds(entries)
    ensures var r := SetById(entries, row);
            && UniqueIds(r) && row in r
            && (forall x :: x in r ==> x == row || (x in entries && x.applyId != row.applyId))
            && (forall x :: x in entries && x.applyId != row.applyId ==> x in r)
  {
    var i := LastIndex(entries, ApplyIdOf, row.applyId);
    var r := SetById(entries, row);
    if i >= 0 {
      assert r[i] == row;
      forall p, q | 0 <= p < q < |r| ensures r[p].applyId != r[q].applyId {
        assert entries[p].applyId != entries[q].applyId;
      }
      forall x | x in r ensures x == row || (x in entries && x.applyId != row.applyId) {
        var j :| 0 <= j < |r| && r[j] == x;
        if j != i {
          assert x == entries[j];
        }
      }
      forall x | x in entries && x.applyId != row.applyId ensures x in r {
        var j :| 0 <= j < |entries| && entries[j] == x;
        assert r[j] == x;
      }
    }
  }

  /** `Array.from(new Map(rows.map(r => [r.applyId, r])).values())`. */
  function IndexById(rows: seq<FriendApplyRow>): seq<FriendApplyRow> {
    if rows == [] then [] else SetById(IndexById(rows[..|rows| - 1]), rows[|rows| - 1])
  }

  /** The row the map keeps for id `k`: the last one written. */
  function LastById(rows: seq<FriendApplyRow>, k: int): Option<FriendApplyRow> {
    var i := LastIndex(rows, ApplyIdOf, k);
    if i >= 0 then Some(rows[i]) else None
  }

  /** Indexing by id keeps one row per id, the last one written, and every
      id of the input. */
  lemma {:induction false} IndexByIdFacts(rows: seq<FriendApplyRow>)
    ensures var r := IndexById(rows);
            && UniqueIds(r)
            && (forall x :: x in r ==> LastById(rows, x.applyId) == Some(x))
            && (forall k :: LastById(rows, k).Some? ==> LastById(rows, k).value in r)
  {
    if rows != [] {
      var init := rows[..|rows| - 1];
      var last := rows[|rows| - 1];
      var r0 := IndexById(init);
      IndexByIdFacts(init);
      SetByIdFacts(r0, last);
      forall k | k != last.applyId ensures LastById(rows, k) == LastById(init, k) {
      }
    }
  }

  /** `upsertInbox`/`upsertSent`'s map: the cached rows, then the incoming
      ones. */
  function MergeById(current: seq<FriendApplyRow>, incoming: seq<FriendApplyRow>): seq<FriendApplyRow> {
    IndexById(current + incoming)
  }

  /** The row kept for id `k`: the incoming one if any, else the cached one. */
  function LatestById(current: seq<FriendApplyRow>, incoming: seq<FriendApplyRow>, k: int)
    : Option<FriendApplyRow>
  {
    if HasId(incoming, k) then LastById(incoming, k) else LastById(current, k)
  }

  lemma LastByIdConcat(current: seq<FriendApplyRow>, incoming: seq<FriendApplyRow>, k: int)
    ensures LastById(current + incoming, k) == LatestById(current, incoming, k)
  {
    LastIndexConcat(current, incoming, ApplyIdOf, k);
  }

  /** The merged list holds one row per id, the incoming row winning over
      the cached one, and loses no id of either list. */
  lemma MergeByIdFacts(current: seq<FriendApplyRow>, incoming: seq<FriendApplyRow>)
    ensures var m := MergeById(current, incoming);
            && UniqueIds(m)
            && (forall x :: x in m ==> LatestById(current, incoming, x.applyId) == Some(x))
            && (forall k :: LatestById(current, incoming, k).Some? ==> LatestById(current, incoming, k).value in m)
  {
    IndexByIdFacts(current + incoming);
    forall k ensures LastById(current + incoming, k) == LatestById(current, incoming, k) {
      LastByIdConcat(current, incoming, k);
    }
  }

  /** Upserting one row: it is in the result, it is the only row with its
      id, and every other row is the cached row of its id. */
  lemma UpsertOneWins(current: seq<FriendApplyRow>, row: FriendApplyRow)
    ensures var m := MergeById(current, [row]);
            && row in m
            && (forall x :: x in m && x.applyId == row.applyId ==> x == row)
            && (forall x :: x in m && x.applyId != row.applyId ==> LastById(current, x.applyId) == Some(x))
  {
    MergeByIdFacts(current, [row]);
    assert LastIndex([row], ApplyIdOf, row.applyId) == 0;
    assert LatestById(current, [row], row.applyId) == Some(row);
  }

  // ---------------------------------------------------------------------
  // Marking read, acting on and resending applications
  // ---------------------------------------------------------------------

  /** The first row with id `id` (`Array.prototype.find`). */
  function Find(rows: seq<FriendApplyRow>, id: int): (r: Option<FriendApplyRow>)
    ensures r.None? <==> forall j :: 0 <= j < |rows| ==> rows[j].applyId != id
    ensures r.Some? ==> r.value in rows && r.value.applyId == id
  {
    if rows == [] then None
    else if rows[0].applyId == id then Some(rows[0])
    else
      var r := Find(rows[1..], id);
      assert forall j :: 1 <= j < |rows| ==> rows[j] == rows[1..][j - 1];
      r
  }

  lemma FindIsFirst(rows: seq<FriendApplyRow>, id: int, i: int)
    requires Find(rows, id).Some? && 0 <= i < |rows| && rows[i].applyId == id
    requires forall j :: 0 <= j < i ==> rows[j].applyId != id
    ensures Find(rows, id) == Some(rows[i])
  {
    if i > 0 {
      FindIsFirst(rows[1..], id, i - 1);
    }
  }

  /** Appending a row makes it the last row of its id. */
  lemma LastByIdAppend(rows: seq<FriendApplyRow>, x: FriendApplyRow, k: int)
    ensures LastById(rows + [x], k) == if x.applyId == k then Some(x) else LastById(rows, k)
  {
    assert (rows + [x])[..|rows|] == rows;
  }

  /** `markAsRead`'s updated rows: the cached rows whose id was named,
      patched as read. */
  function MarkedRows(rows: seq<FriendApplyRow>, ids: seq<int>, now: int): (r: seq<FriendApplyRow>)
    ensures forall j :: 0 <= j < |r| ==> r[j].applyId in ids && IsRowRead(r[j])
  {
    if rows == [] then []
    else
      var last := rows[|rows| - 1];
      var r0 := MarkedRows(rows[..|rows| - 1], ids, now);
      if last.applyId in ids then r0 + [BuildUpdatedRow(last, None, Some(true), now)] else r0
  }

  /** The marked rows name exactly the named ids that are cached, and each
      is the patched copy of the cached row of its id. */
  lemma {:induction false} MarkedRowsById(rows: seq<FriendApplyRow>, ids: seq<int>, now: int)
    ensures var r := MarkedRows(rows, ids, now);
            && (forall k :: HasId(r, k) <==> k in ids && HasId(rows, k))
            && (forall k :: HasId(r, k) ==>
                  LastById(rows, k).Some? && LastById(r, k) == Some(BuildUpdatedRow(LastById(rows, k).value, None, Some(true), now)))
  {
    if rows != [] {
      var init := rows[..|rows| - 1];
      var last := rows[|rows| - 1];
      var r0 := MarkedRows(init, ids, now);
      MarkedRowsById(init, ids, now);
      assert rows == init + [last];
      var b := BuildUpdatedRow(last, None, Some(true), now);
      forall k ensures LastById(rows, k) == if last.applyId == k then Some(last) else LastById(init, k) {
        LastByIdAppend(init, last, k);
      }
      if last.applyId in ids {
        forall k ensures LastById(r0 + [b], k) == if b.applyId == k then Some(b) else LastById(r0, k) {
          LastByIdAppend(r0, b, k);
        }
      }
    }
  }

  /** After `markAsRead`'s upsert every cached row named is read and
      otherwise the patched copy of itself; the rows not named are
      untouched. */
  lemma MarkedAreRead(inbox: seq<FriendApplyRow>, ids: seq<int>, now: int)
    ensures var m := MergeById(inbox, MarkedRows(inbox, ids, now));
            forall x :: x in m ==>
              && HasId(inbox, x.applyId)
              && (x.applyId in ids ==>
                    IsRowRead(x) && x == BuildUpdatedRow(LastById(inbox, x.applyId).value, None, Some(true), now))
              && (x.applyId !in ids ==> LastById(inbox, x.applyId) == Some(x))
  {
    var marked := MarkedRows(inbox, ids, now);
    MarkedRowsById(inbox, ids, now);
    MergeByIdFacts(inbox, marked);
    var m := MergeById(inbox, marked);
    forall x | x in m ensures HasId(inbox, x.applyId) {
      assert LatestById(inbox, marked, x.applyId) == Some(x);
    }
  }

  /** The status `handleApplyAction` records: 1 for accept, 2 otherwise. */
  function ActionStatus(action: int): (s: int)
    ensures s == 1 <==> action == 1
    ensures s == 1 || s == 2
  {
    if action == 1 then 1 else 2
  }

  /** `reason?.trim() || getString(payload, 'reason')`: a reason with some
      non-space character wins, trimmed; otherwise the stored reason. */
  function NextReason(reason: Option<string>, payload: JsonObject): (r: string)
    ensures reason.Some? && !AllSpace(reason.value) ==> r == Trim(reason.value)
    ensures reason.None? || AllSpace(reason.value) ==> r == GetString(payload, "reason")
  {
    var trimmed := if reason.Some? then Trim(reason.value) else "";
    TrimEmptyIffBlank(reason.GetOr(""));
    if trimmed != "" then trimmed else GetString(payload, "reason")
  }

  /** The resend body for a sent row: its target, the next reason unless
      that is empty, and the resend source tag. */
  function ResendRequestFor(current: FriendApplyRow, reason: Option<string>): (q: ResendRequest)
    ensures q.targetUuid == GetString(current.payload, "targetUuid")
    ensures q.reason.Some? <==> NextReason(reason, current.payload) != ""
    ensures q.reason.Some? ==> q.reason.value == NextReason(reason, current.payload)
    ensures q.source == ResendSource
  {
    var next := NextReason(reason, current.payload);
    ResendRequest(GetString(current.payload, "targetUuid"), if next == "" then None else Some(next), ResendSource)
  }

  /** The payload fields a resend overwrites; every other field of the
      sent row's payload is kept. */
  const ResendOverrides: set<string> := {"applyId", "source", "reason", "status", "isRead", "createdAt"}

  /** The outbox row recorded after a resend: pending (status 0), unread,
      with the new id (or the old one when the server gave none) and the
      new reason, tagged as a resend, for the same target. */
  function ResentRow(user: string, current: FriendApplyRow, reason: Option<string>, newId: Option<int>, now: int)
    : (r: FriendApplyRow)
    ensures r.userUuid == user && r.direction == "outbox" && r.status == 0 && !IsRowRead(r)
    ensures r.applyId == if newId.GetOr(0) != 0 then newId.value else current.applyId
    ensures GetString(r.payload, "targetUuid") == GetString(current.payload, "targetUuid")
    ensures GetString(r.payload, "reason") == NextReason(reason, current.payload)
    ensures GetString(r.payload, "source") == ResendSource
    ensures "applyId" in r.payload && r.payload["applyId"] == Num(r.applyId)
    ensures "status" in r.payload && r.payload["status"] == Num(0)
    ensures "isRead" in r.payload && r.payload["isRead"] == JBool(false)
    ensures "createdAt" in r.payload && r.payload["createdAt"] == Num(now)
    ensures forall k :: k in current.payload && k !in ResendOverrides ==> k in r.payload && r.payload[k] == current.payload[k]
    ensures r.payload.Keys == current.payload.Keys + ResendOverrides
    ensures r.updatedAt == now
  {
    var nextReason := NextReason(reason, current.payload);
    var nextId := OrElse(newId.GetOr(0), current.applyId);
    FriendApplyRow(user, nextId, "outbox", 0,
      current.payload["applyId" := Num(nextId)]["source" := JStr(ResendSource)]["reason" := JStr(nextReason)]
        ["status" := Num(0)]["isRead" := JBool(false)]["createdAt" := Num(now)],
      now)
  }

  // ---------------------------------------------------------------------
  // The store
  // ---------------------------------------------------------------------

  class Store {
    var inbox: seq<FriendApplyRow>
    var sent: seq<FriendApplyRow>
    var unreadCount: int
    var unreadCountSynced: bool

    constructor()
      ensures inbox == [] && sent == [] && unreadCount == 0 && !unreadCountSynced
    {
      inbox := [];
      sent := [];
      unreadCount := 0;
      unreadCountSynced := false;
    }

    /** `reset`. */
    method Reset()
      modifies this
      ensures inbox == [] && sent == [] && unreadCount == 0 && !unreadCountSynced
    {
      inbox := [];
      sent := [];
      unreadCount := 0;
      unreadCountSynced := false;
    }

    /** `loadInbox`: the local inbox and its own unread count; no user or
        a failed read leaves an empty inbox. */
    method LoadInbox(user: string, local: Reply<seq<FriendApplyRow>>)
      modifies this`inbox, this`unreadCount, this`unreadCountSynced
      ensures inbox == (if user != "" && local.Ok? then local.value else [])
      ensures unreadCount == CountUnread(inbox) && !unreadCountSynced
    {
      if user == "" {
        inbox := [];
        unreadCount := 0;
        unreadCountSynced := false;
        return;
      }
      match local {
        case Ok(rows) =>
          inbox := rows;
          unreadCount := CountUnread(inbox);
        case Failed =>
          inbox := [];
          unreadCount := 0;
      }
      unreadCountSynced := false;
    }

    /** `upsertInbox`: the cached and incoming rows merged by id, the
        incoming winning, most recent first; the count follows the rows.
        The write to the local store may fail without effect here. */
    method UpsertInbox(user: string, rows: seq<FriendApplyRow>)
      modifies this`inbox, this`unreadCount
      ensures inbox == SortBy(MergeById(old(inbox), rows), ApplyNewer)
      ensures unreadCount == CountUnread(inbox)
    {
      inbox := SortBy(MergeById(inbox, rows), ApplyNewer);
      unreadCount := CountUnread(inbox);
    }

    /** `replaceInbox`: exactly the given rows, most recent first. */
    method ReplaceInbox(user: string, rows: seq<FriendApplyRow>)
      modifies this`inbox, this`unreadCount
      ensures inbox == SortBy(rows, ApplyNewer)
      ensures unreadCount == CountUnread(rows)
    {
      inbox := SortBy(rows, ApplyNewer);
      SortKeepsUnread(rows);
      unreadCount := CountUnread(inbox);
    }

    /** `loadSent`. */
    method LoadSent(user: string, local: Reply<seq<FriendApplyRow>>)
      modifies this`sent
      ensures sent == (if user != "" && local.Ok? then local.value else [])
    {
      if user == "" {
        sent := [];
        return;
      }
      match local {
        case Ok(rows) => sent := rows;
        case Failed => sent := [];
      }
    }

    /** `upsertSent`. */
    method UpsertSent(user: string, rows: seq<FriendApplyRow>)
      modifies this`sent
      ensures sent == SortBy(MergeById(old(sent), rows), ApplyNewer)
    {
      sent := SortBy(MergeById(sent, rows), ApplyNewer);
    }

    /** `replaceSent`. */
    method ReplaceSent(user: string, rows: seq<FriendApplyRow>)
      modifies this`sent
      ensures sent == SortBy(rows, ApplyNewer)
    {
      sent := SortBy(rows, ApplyNewer);
    }

    /** `syncUnreadCountFromServer`: the server's count (a count that is
        not a number reads as 0) and the synced flag; on failure the local
        count, not synced.  No user: 0, not synced. */
    method SyncUnreadCountFromServer(user: string, server: Reply<Option<int>>)
      modifies this`unreadCount, this`unreadCountSynced
      ensures user == "" ==> unreadCount == 0 && !unreadCountSynced
      ensures user != "" && server.Ok? ==> unreadCount == server.value.GetOr(0) && unreadCountSynced
      ensures user != "" && server.Failed? ==> unreadCount == CountUnread(inbox) && !unreadCountSynced
    {
      if user == "" {
        unreadCount := 0;
        unreadCountSynced := false;
        return;
      }
      match server {
        case Ok(count) =>
          unreadCount := OrElse(count.GetOr(0), 0);
          unreadCountSynced := true;
        case Failed =>
          unreadCount := CountUnread(inbox);
          unreadCountSynced := false;
      }
    }

    /** `syncInboxFromServer`: when any page arrived, the inbox becomes
        exactly the pulled rows (stale cached rows are gone); otherwise it
        is reloaded from the local store.  The unread count is then synced. */
    method SyncInboxFromServer(user: string, server: int -> Reply<Page<ApplyItem>>, now: int,
                               local: Reply<seq<FriendApplyRow>>, unread: Reply<Option<int>>)
      modifies this`inbox, this`unreadCount, this`unreadCountSynced
      ensures user == "" ==> inbox == old(inbox) && unreadCount == old(unreadCount)
                             && unreadCountSynced == old(unreadCountSynced)
      ensures user != "" ==>
                var pull := PullFrom(server, 1, 1);
                && inbox == (if pull.fetchedAny then SortBy(InboxRows(user, pull.items, now), ApplyNewer)
                             else if local.Ok? then local.value else [])
                && unreadCount == (if unread.Ok? then unread.value.GetOr(0) else CountUnread(inbox))
                && unreadCountSynced == unread.Ok?
    {
      if user == "" {
        return;
      }
      var pull := PullAllPages(server);
      if pull.fetchedAny {
        ReplaceInbox(user, InboxRows(user, pull.items, now));
      } else {
        LoadInbox(user, local);
      }
      SyncUnreadCountFromServer(user, unread);
    }

    /** `syncSentFromServer`: as for the inbox, without an unread count. */
    method SyncSentFromServer(user: string, server: int -> Reply<Page<SentItem>>, now: int,
                              local: Reply<seq<FriendApplyRow>>)
      modifies this`sent
      ensures user == "" ==> sent == old(sent)
      ensures user != "" ==>
                var pull := PullFrom(server, 1, 1);
                sent == (if pull.fetchedAny then SortBy(SentRows(user, pull.items, now), ApplyNewer)
                         else if local.Ok? then local.value else [])
    {
      if user == "" {
        return;
      }
      var pull := PullAllPages(server);
      if pull.fetchedAny {
        ReplaceSent(user, SentRows(user, pull.items, now));
      } else {
        LoadSent(user, local);
      }
    }

    /** `markAsRead`: the server call's rejection propagates and changes
        nothing; otherwise the named cached rows are upserted as read and
        the unread count is synced.  No user or no ids: nothing happens. */
    method MarkAsRead(user: string, ids: seq<int>, server: Outcome, now: int, unread: Reply<Option<int>>)
      returns (outcome: Outcome)
      modifies this`inbox, this`unreadCount, this`unreadCountSynced
      ensures outcome == Threw <==> user != "" && |ids| > 0 && server == Threw
      ensures user == "" || |ids| == 0 || server == Threw ==>
                inbox == old(inbox) && unreadCount == old(unreadCount)
                && unreadCountSynced == old(unreadCountSynced)
      ensures user != "" && |ids| > 0 && server == Done ==>
                var marked := MarkedRows(old(inbox), ids, now);
                && inbox == (if |marked| > 0 then SortBy(MergeById(old(inbox), marked), ApplyNewer) else old(inbox))
                && unreadCount == (if unread.Ok? then unread.value.GetOr(0) else CountUnread(inbox))
                && unreadCountSynced == unread.Ok?
    {
      if user == "" || |ids| == 0 {
        return Done;
      }
      if server == Threw {
        return Threw;
      }
      var marked := MarkedRows(inbox, ids, now);
      if |marked| > 0 {
        UpsertInbox(user, marked);
      }
      SyncUnreadCountFromServer(user, unread);
      outcome := Done;
    }

    /** `handleApplyAction`: after the server accepted the action, the
        cached row of the application is upserted with the action's status
        and marked read, and the unread count is synced.  No user, id 0 or
        an application not in the inbox: nothing changes locally. */
    method HandleApplyAction(user: string, applyId: int, action: int, server: Outcome, now: int,
                             unread: Reply<Option<int>>)
      returns (outcome: Outcome)
      modifies this`inbox, this`unreadCount, this`unreadCountSynced
      ensures outcome == Threw <==> user != "" && applyId != 0 && server == Threw
      ensures user == "" || applyId == 0 || server == Threw || Find(old(inbox), applyId).None? ==>
                inbox == old(inbox) && unreadCount == old(unreadCount)
                && unreadCountSynced == old(unreadCountSynced)
      ensures user != "" && applyId != 0 && server == Done && Find(old(inbox), applyId).Some? ==>
                var next := BuildUpdatedRow(Find(old(inbox), applyId).value, Some(ActionStatus(action)), Some(true), now);
                && inbox == SortBy(MergeById(old(inbox), [next]), ApplyNewer)
                && unreadCount == (if unread.Ok? then unread.value.GetOr(0) else CountUnread(inbox))
                && unreadCountSynced == unread.Ok?
    {
      if user == "" || applyId == 0 {
        return Done;
      }
      if server == Threw {
        return Threw;
      }
      var target := Find(inbox, applyId);
      if target.None? {
        return Done;
      }
      var next := BuildUpdatedRow(target.value, Some(ActionStatus(action)), Some(true), now);
      UpsertInbox(user, [next]);
      SyncUnreadCountFromServer(user, unread);
      outcome := Done;
    }

    /** `retrySentApply`: resends a cached sent application that names a
        target and records the resent row in the outbox; the send's
        rejection propagates and changes nothing. */
    method RetrySentApply(user: string, applyId: int, reason: Option<string>,
                          send: ResendRequest -> Reply<Option<int>>, now: int)
      returns (outcome: Outcome)
      modifies this`sent
      ensures var current := Find(old(sent), applyId);
              var skip := user == "" || applyId == 0 || current.None?
                          || GetString(current.value.payload, "targetUuid") == "";
              && (skip ==> outcome == Done && sent == old(sent))
              && (!skip ==>
                    var response := send(ResendRequestFor(current.value, reason));
                    && (outcome == Threw <==> response.Failed?)
                    && (response.Failed? ==> sent == old(sent))
                    && (response.Ok? ==>
                          sent == SortBy(MergeById(old(sent), [ResentRow(user, current.value, reason, response.value, now)]), ApplyNewer)))
    {
      if user == "" || applyId == 0 {
        return Done;
      }
      var current := Find(sent, applyId);
      if current.None? {
        return Done;
      }
      var targetUuid := GetString(current.value.payload, "targetUuid");
      if targetUuid == "" {
        return Done;
      }
      var response := send(ResendRequestFor(current.value, reason));
      if response.Failed? {
        return Threw;
      }
      UpsertSent(user, [ResentRow(user, current.value, reason, response.value, now)]);
      outcome := Done;
    }
  }

  // ---------------------------------------------------------------------
  // What the store's operations guarantee
  // ---------------------------------------------------------------------

  /** After `markAsRead` every cached application it named is read, and the
      others are as they were. */
  lemma MarkAsReadMarks(inbox: seq<FriendApplyRow>, ids: seq<int>, now: int)
    ensures var after := SortBy(MergeById(inbox, MarkedRows(inbox, ids, now)), ApplyNewer);
            forall x :: x in after ==>
              (x.applyId in ids ==> IsRowRead(x))
              && (x.applyId !in ids ==> x in inbox)
  {
    var m := MergeById(inbox, MarkedRows(inbox, ids, now));
    MarkedAreRead(inbox, ids, now);
    forall x | x in SortBy(m, ApplyNewer) ensures x in m {
      SortByPermutes(m, ApplyNewer, x);
    }
  }

  /** After `handleApplyAction` the inbox holds the acted-on application
      once, read and with the action's status. */
  lemma ActionRecorded(inbox: seq<FriendApplyRow>, applyId: int, action: int, now: int)
    requires Find(inbox, applyId).Some?
    ensures var after := SortBy(MergeById(inbox, [BuildUpdatedRow(Find(inbox, applyId).value,
                                  Some(ActionStatus(action)), Some(true), now)]), ApplyNewer);
            && (exists x :: x in after && x.applyId == applyId)
            && forall x :: x in after && x.applyId == applyId ==>
                 IsRowRead(x) && x.status == ActionStatus(action) && x.updatedAt == now
  {
    var next := BuildUpdatedRow(Find(inbox, applyId).value, Some(ActionStatus(action)), Some(true), now);
    var m := MergeById(inbox, [next]);
    UpsertOneWins(inbox, next);
    SortByPermutes(m, ApplyNewer, next);
    forall x | x in SortBy(m, ApplyNewer) ensures x in m {
      SortByPermutes(m, ApplyNewer, x);
    }
  }

  /** After a successful resend the outbox holds the resent row, pending
      and unread, for the same target, and it is the only row with its id. */
  lemma ResendRecorded(sent: seq<FriendApplyRow>, user: string, current: FriendApplyRow,
                       reason: Option<string>, newId: Option<int>, now: int)
    ensures var row := ResentRow(user, current, reason, newId, now);
            var after := SortBy(MergeById(sent, [row]), ApplyNewer);
            && row in after
            && forall x :: x in after && x.applyId == row.applyId ==> x == row
  {
    var row := ResentRow(user, current, reason, newId, now);
    var m := MergeById(sent, [row]);
    UpsertOneWins(sent, row);
    SortByPermutes(m, ApplyNewer, row);
    forall x | x in SortBy(m, ApplyNewer) ensures x in m {
      SortByPermutes(m, ApplyNewer, x);
    }
  }

  /** A pull that fails after page 1 still replaces the lists: the rows
      `SyncInboxFromServer` and `SyncSentFromServer` install are built from
      page 1's items alone, and every cached row not among them is gone. */
  lemma PartialPullReplaces(user: string, inboxServer: int -> Reply<Page<ApplyItem>>,
                            sentServer: int -> Reply<Page<SentItem>>, now: int)
    requires inboxServer(1).Ok? && inboxServer(1).value.totalPages.GetOr(1) >= 2 && inboxServer(2).Failed?
    requires sentServer(1).Ok? && sentServer(1).value.totalPages.GetOr(1) >= 2 && sentServer(2).Failed?
    ensures var pull := PullFrom(inboxServer, 1, 1);
            pull.fetchedAny
            && SortBy(InboxRows(user, pull.items, now), ApplyNewer)
               == SortBy(InboxRows(user, inboxServer(1).value.items.GetOr([]), now), ApplyNewer)
    ensures var pull := PullFrom(sentServer, 1, 1);
            pull.fetchedAny
            && SortBy(SentRows(user, pull.items, now), ApplyNewer)
               == SortBy(SentRows(user, sentServer(1).value.items.GetOr([]), now), ApplyNewer)
  {
    LaterFailureKeepsFirstPage(inboxServer);
    LaterFailureKeepsFirstPage(sentServer);
  }

  /** A successful pull replaces the inbox: every row afterwards comes from
      a pulled item, whatever was cached before. */
  lemma SyncDropsStaleRows(user: string, items: seq<ApplyItem>, now: int, x: FriendApplyRow)
    requires x in SortBy(InboxRows(user, items, now), ApplyNewer)
    ensures exists i :: 0 <= i < |items| && x == MapApplyToRow(user, items[i], now)
  {
    SortByPermutes(InboxRows(user, items, now), ApplyNewer, x);
    var i :| 0 <= i < |items| && InboxRows(user, items, now)[i] == x;
  }
}
