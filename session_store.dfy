/** The renderer's chat-session store
    (`src/renderer/src/stores/session.store.ts`): the current user's
    conversations (most recent first), the loaded messages of each opened
    conversation, the active conversation and its draft.  Every local-store
    read and write goes through `safeRead`/`safeWrite`, which turn a failure
    into a fallback value and a cleared `localDBAvailable` flag. */
module SessionStore {
  import opened Wrappers
  import opened Json
  import opened JsString
  import opened Sorting
  import opened Rows

  const Minute := 60 * 1000

  // ---------------------------------------------------------------------
  // Seed data and getters
  // ---------------------------------------------------------------------

  function SeedConversation(user: string, convId: string, title: string, preview: string, unread: int,
                            color: string, updatedAt: int): ConversationRow
  {
    ConversationRow(user, convId,
      map["title" := JStr(title), "preview" := JStr(preview), "unread" := JNum(unread as real),
          "avatarColor" := JStr(color)],
      updatedAt)
  }

  /** `createSeedConversations`: three demo conversations, 5, 20 and 40
      minutes old, newest first. */
  function SeedConversations(user: string, now: int): (r: seq<ConversationRow>)
    ensures |r| == 3
  {
    [ SeedConversation(user, "conv:product", "产品群", "今晚发布候选版本，记得走 smoke 测试。", 2, "#6ca06f",
                       now - 5 * Minute),
      SeedConversation(user, "conv:ops", "运维值班", "网关 CPU 峰值恢复，告警已解除。", 0, "#7d8da5",
                       now - 20 * Minute),
      SeedConversation(user, "conv:design", "设计评审", "聊天输入区交互确认通过，进入联调阶段。", 0, "#9d7f5f",
                       now - 40 * Minute) ]
  }

  /** `createSeedMessages`: two demo messages of the conversation, two
      minutes apart, in sending order. */
  function SeedMessages(user: string, convId: string, now: int): (r: seq<MessageRow>)
    ensures |r| == 2
    ensures forall i :: 0 <= i < |r| ==> r[i].userUuid == user && r[i].convId == convId
    ensures r[0].sendTime < r[1].sendTime && r[0].msgId != r[1].msgId
  {
    var base := now - 15 * Minute;
    assert (convId + "-seed-1")[|convId| + 6] != (convId + "-seed-2")[|convId| + 6];
    [ MessageRow(user, convId, convId + "-seed-1", None, Some(1), base,
                 map["text" := JStr("欢迎使用 LCchat，本地缓存已经初始化。"), "from" := JStr("peer")], 1),
      MessageRow(user, convId, convId + "-seed-2", None, Some(2), base + 2 * Minute,
                 map["text" := JStr("你现在可以离线查看最近会话和草稿。"), "from" := JStr("self")], 1) ]
  }

  /** `getNumber`: a number field of a payload, or the fallback. */
  function NumberField(payload: JsonObject, key: string, fallback: real): (r: real)
    ensures key in payload && payload[key].JNum? ==> r == payload[key].n
    ensures !(key in payload && payload[key].JNum?) ==> r == fallback
  {
    if key in payload && payload[key].JNum? then payload[key].n else fallback
  }

  /** `getConversationTitle`: the payload's title, or the conversation id. */
  function ConversationTitle(row: ConversationRow): (r: string)
    ensures "title" in row.payload && row.payload["title"].JStr? ==> r == row.payload["title"].s
    ensures !("title" in row.payload && row.payload["title"].JStr?) ==> r == row.convId
  {
    StringField(row.payload, "title", row.convId)
  }

  /** `getConversationPreview`: the payload's preview, or `''`. */
  function ConversationPreview(row: ConversationRow): (r: string)
    ensures "preview" in row.payload && row.payload["preview"].JStr? ==> r == row.payload["preview"].s
    ensures !("preview" in row.payload && row.payload["preview"].JStr?) ==> r == ""
  {
    StringField(row.payload, "preview", "")
  }

  /** `getConversationUnread`: the payload's unread number, or 0. */
  function ConversationUnread(row: ConversationRow): (r: real)
    ensures "unread" in row.payload && row.payload["unread"].JNum? ==> r == row.payload["unread"].n
    ensures !("unread" in row.payload && row.payload["unread"].JNum?) ==> r == 0.0
  {
    NumberField(row.payload, "unread", 0.0)
  }

  /** The message `sendMessage` records. */
  function OwnMessage(user: string, convId: string, msgId: string, text: string, now: int): MessageRow {
    MessageRow(user, convId, msgId, None, None, now, map["text" := JStr(text), "from" := JStr("self")], 1)
  }

  /** `sendMessage`'s conversation update: the sent-to conversation gets the
      text as its preview and the send time as its time; the others stay. */
  function Touch(rows: seq<ConversationRow>, convId: string, text: string, now: int): (r: seq<ConversationRow>)
    ensures |r| == |rows|
    ensures forall i :: 0 <= i < |rows| && rows[i].convId != convId ==> r[i] == rows[i]
    ensures forall i :: 0 <= i < |rows| && rows[i].convId == convId ==>
              && r[i].userUuid == rows[i].userUuid && r[i].convId == convId
              && ConversationPreview(r[i]) == text && r[i].updatedAt == now
              && (forall k :: k in rows[i].payload && k != "preview" ==> k in r[i].payload && r[i].payload[k] == rows[i].payload[k])
  {
    seq(|rows|, i requires 0 <= i < |rows| =>
      if rows[i].convId != convId then rows[i]
      else rows[i].(payload := rows[i].payload["preview" := JStr(text)], updatedAt := now))
  }

  /** The first conversation with id `convId` (the `activeConversation`
      lookup). */
  function FindConversation(rows: seq<ConversationRow>, convId: string): (r: Option<ConversationRow>)
    ensures r.None? <==> forall j :: 0 <= j < |rows| ==> rows[j].convId != convId
    ensures r.Some? ==> r.value in rows && r.value.convId == convId
    ensures r.Some? ==> exists i :: 0 <= i < |rows| && rows[i] == r.value
                                    && forall j :: 0 <= j < i ==> rows[j].convId != convId
  {
    if rows == [] then None
    else if rows[0].convId == convId then Some(rows[0])
    else
      assert forall j :: 1 <= j < |rows| ==> rows[j] == rows[1..][j - 1];
      var r := FindConversation(rows[1..], convId);
      assert r.Some? ==> exists i :: 1 <= i < |rows| && rows[i] == r.value
                                     && forall j :: 1 <= j < i ==> rows[j].convId != convId by {
        if r.Some? {
          var k :| 0 <= k < |rows[1..]| && rows[1..][k] == r.value
                   && forall j :: 0 <= j < k ==> rows[1..][j].convId != convId;
          assert rows[k + 1] == r.value;
        }
      }
      r
  }

  /** The local-store replies `openConversation` consumes: the message page,
      the seed write (used only when the page is empty) and the draft. */
  datatype OpenReplies = OpenReplies(messages: Reply<seq<MessageRow>>, seedWrite: Outcome, draft: Reply<string>)

  /** The messages `openConversation` shows: the stored page, or the seed
      when there is none. */
  function OpenedMessages(user: string, convId: string, replies: OpenReplies, now: int): (r: seq<MessageRow>)
    ensures |r| > 0
    ensures replies.messages.Ok? && |replies.messages.value| > 0 ==> r == replies.messages.value
    ensures !(replies.messages.Ok? && |replies.messages.value| > 0) ==> r == SeedMessages(user, convId, now)
  {
    if replies.messages.Ok? && |replies.messages.value| > 0 then replies.messages.value
    else SeedMessages(user, convId, now)
  }

  /** Whether every local-store call of `openConversation` succeeded. */
  predicate OpenSucceeded(user: string, convId: string, replies: OpenReplies) {
    && replies.messages.Ok?
    && (|replies.messages.value| == 0 ==> replies.seedWrite == Done)
    && replies.draft.Ok?
  }

  /** Whether every local-store call of the loading half of `bootstrap`
      succeeded: the init, the conversation read and, when there was
      nothing to read, the seed write. */
  predicate LoadSucceeded(init: Outcome, cached: Reply<seq<ConversationRow>>, seedWrite: Outcome) {
    && init == Done
    && cached.Ok?
    && (|cached.value| == 0 ==> seedWrite == Done)
  }

  /** Most recent first. */
  predicate NewestFirst(rows: seq<ConversationRow>) {
    forall i, j :: 0 <= i < j < |rows| ==> rows[i].updatedAt >= rows[j].updatedAt
  }

  /** The list after a send: touched and sorted again, most recent first. */
  function TouchedSorted(rows: seq<ConversationRow>, convId: string, text: string, now: int): (r: seq<ConversationRow>)
    ensures r == SortBy(Touch(rows, convId, text, now), ConversationNewer) && NewestFirst(r)
  {
    SortedNewestFirst(Touch(rows, convId, text, now));
    SortBy(Touch(rows, convId, text, now), ConversationNewer)
  }

  /** Sorting a conversation list puts it most recent first. */
  lemma SortedNewestFirst(rows: seq<ConversationRow>)
    ensures NewestFirst(SortBy(rows, ConversationNewer))
  {
    SortBySorted(rows, ConversationNewer);
  }

  /** The seed is already most recent first, so sorting leaves it as it is. */
  lemma SeedSorted(user: string, now: int)
    ensures SortBy(SeedConversations(user, now), ConversationNewer) == SeedConversations(user, now)
  {
    SortBySortedIsIdentity(SeedConversations(user, now), ConversationNewer);
  }

  /** The conversations `bootstrap` shows: the cached ones sorted most recent
      first, or the seed when there are none (or the read failed). */
  function ShownConversations(user: string, cached: Reply<seq<ConversationRow>>, now: int): (r: seq<ConversationRow>)
    ensures |r| > 0 && NewestFirst(r)
    ensures cached.Ok? && |cached.value| > 0 ==> r == SortBy(cached.value, ConversationNewer)
    ensures !(cached.Ok? && |cached.value| > 0) ==> r == SeedConversations(user, now)
  {
    SeedSorted(user, now);
    SortedNewestFirst(if cached.Ok? then cached.value else []);
    SortedNewestFirst(SeedConversations(user, now));
    if cached.Ok? && |cached.value| > 0 then SortBy(cached.value, ConversationNewer) else SeedConversations(user, now)
  }

  // ---------------------------------------------------------------------
  // The store
  // ---------------------------------------------------------------------

  class Store {
    var currentUserUuid: string
    var conversations: seq<ConversationRow>
    var messagesByConversation: map<string, seq<MessageRow>>
    var activeConvId: string
    var activeDraft: string
    var loading: bool
    var localDBAvailable: bool

    /** The conversation list is always most recent first. */
    ghost predicate Valid()
      reads this`conversations
    {
      NewestFirst(conversations)
    }

    constructor()
      ensures currentUserUuid == "" && conversations == [] && messagesByConversation == map[]
      ensures activeConvId == "" && activeDraft == "" && !loading && localDBAvailable
      ensures Valid()
    {
      currentUserUuid := "";
      conversations := [];
      messagesByConversation := map[];
      activeConvId := "";
      activeDraft := "";
      loading := false;
      localDBAvailable := true;
    }

    /** `activeConversation`. */
    function ActiveConversation(): (r: Option<ConversationRow>)
      reads this
      ensures r.Some? ==> r.value in conversations && r.value.convId == activeConvId
      ensures r.None? ==> forall j :: 0 <= j < |conversations| ==> conversations[j].convId != activeConvId
    {
      FindConversation(conversations, activeConvId)
    }

    /** `activeMessages`. */
    function ActiveMessages(): (r: seq<MessageRow>)
      reads this
      ensures activeConvId in messagesByConversation ==> r == messagesByConversation[activeConvId]
      ensures activeConvId !in messagesByConversation ==> r == []
    {
      if activeConvId in messagesByConversation then messagesByConversation[activeConvId] else []
    }

    /** `safeRead`: the value read, or the fallback with the store marked
        unavailable; never fails. */
    method SafeRead<T>(reply: Reply<T>, fallback: T) returns (v: T)
      modifies this`localDBAvailable
      ensures v == (if reply.Ok? then reply.value else fallback)
      ensures localDBAvailable == (old(localDBAvailable) && reply.Ok?)
    {
      match reply {
        case Ok(x) => v := x;
        case Failed =>
          localDBAvailable := false;
          v := fallback;
      }
    }

    /** `safeWrite`: a failed write marks the store unavailable; never
        fails. */
    method SafeWrite(write: Outcome)
      modifies this`localDBAvailable
      ensures localDBAvailable == (old(localDBAvailable) && write == Done)
    {
      if write == Threw {
        localDBAvailable := false;
      }
    }

    /** `openConversation`: makes the conversation active and loads its
        messages (seeding an empty conversation) and its draft. */
    method OpenConversation(convId: string, replies: OpenReplies, now: int)
      modifies this`activeConvId, this`messagesByConversation, this`activeDraft, this`localDBAvailable
      ensures old(currentUserUuid) == "" ==>
                activeConvId == old(activeConvId) && messagesByConversation == old(messagesByConversation)
                && activeDraft == old(activeDraft) && localDBAvailable == old(localDBAvailable)
      ensures old(currentUserUuid) != "" ==>
                && activeConvId == convId
                && messagesByConversation
                   == old(messagesByConversation)[convId := OpenedMessages(currentUserUuid, convId, replies, now)]
                && activeDraft == (if replies.draft.Ok? then replies.draft.value else "")
                && localDBAvailable == (old(localDBAvailable) && OpenSucceeded(currentUserUuid, convId, replies))
    {
      if currentUserUuid == "" {
        return;
      }
      activeConvId := convId;
      var user := currentUserUuid;
      var messages := SafeRead(replies.messages, []);
      if |messages| == 0 {
        messages := SeedMessages(user, convId, now);
        SafeWrite(replies.seedWrite);
      }
      messagesByConversation := messagesByConversation[convId := messages];
      activeDraft := SafeRead(replies.draft, "");
    }

    /** The loading half of `bootstrap`: the cached conversations, or the
        seed (written back) when there are none, most recent first, with
        the newest active. */
    method LoadConversations(user: string, init: Outcome, cached: Reply<seq<ConversationRow>>, seedWrite: Outcome,
                             now: int)
      modifies this`loading, this`currentUserUuid, this`conversations, this`activeConvId, this`localDBAvailable
      ensures loading && currentUserUuid == user
      ensures conversations == ShownConversations(user, cached, now) && Valid()
      ensures activeConvId == conversations[0].convId
      ensures localDBAvailable == (old(localDBAvailable) && LoadSucceeded(init, cached, seedWrite))
    {
      loading := true;
      currentUserUuid := user;
      SafeWrite(init);
      var rows := SafeRead(cached, []);
      if |rows| == 0 {
        rows := SeedConversations(user, now);
        SafeWrite(seedWrite);
        conversations := rows;
      } else {
        conversations := SortBy(rows, ConversationNewer);
      }
      activeConvId := conversations[0].convId;
    }

    /** The work of `bootstrap` for a user whose conversations are not
        loaded yet: load them, open the newest, and stop loading. */
    method Boot(user: string, init: Outcome, cached: Reply<seq<ConversationRow>>, seedWrite: Outcome,
                open: OpenReplies, now: int)
      modifies this`loading, this`currentUserUuid, this`conversations, this`activeConvId, this`localDBAvailable,
               this`messagesByConversation, this`activeDraft
      requires user != ""
      ensures Valid()
      ensures currentUserUuid == user && !loading
      ensures conversations == ShownConversations(user, cached, now)
      ensures conversations[0].convId != "" ==>
                && activeConvId == conversations[0].convId
                && messagesByConversation == old(messagesByConversation)[activeConvId :=
                     OpenedMessages(user, activeConvId, open, now)]
                && activeDraft == (if open.draft.Ok? then open.draft.value else "")
                && localDBAvailable == (old(localDBAvailable) && LoadSucceeded(init, cached, seedWrite)
                                       && OpenSucceeded(user, activeConvId, open))
      ensures conversations[0].convId == "" ==>
                && activeConvId == ""
                && messagesByConversation == old(messagesByConversation)
                && activeDraft == old(activeDraft)
                && localDBAvailable == (old(localDBAvailable) && LoadSucceeded(init, cached, seedWrite))
    {
      LoadConversations(user, init, cached, seedWrite, now);
      if activeConvId != "" {
        OpenConversation(activeConvId, open, now);
      }
      loading := false;
    }

    /** `bootstrap`: loads (or seeds) the user's conversations, most recent
        first, and opens the newest.  Nothing happens without a user, or
        when the same user's conversations are already loaded. */
    method Bootstrap(user: string, init: Outcome, cached: Reply<seq<ConversationRow>>, seedWrite: Outcome,
                     open: OpenReplies, now: int)
      modifies this
      requires Valid()
      ensures Valid()
      ensures user == "" || (old(currentUserUuid) == user && |old(conversations)| > 0) ==>
                currentUserUuid == old(currentUserUuid) && conversations == old(conversations)
                && activeConvId == old(activeConvId) && activeDraft == old(activeDraft)
                && messagesByConversation == old(messagesByConversation)
                && loading == old(loading) && localDBAvailable == old(localDBAvailable)
      ensures user != "" && !(old(currentUserUuid) == user && |old(conversations)| > 0) ==>
                && currentUserUuid == user && !loading
                && conversations == ShownConversations(user, cached, now)
                && (conversations[0].convId != "" ==>
                      && activeConvId == conversations[0].convId
                      && messagesByConversation == old(messagesByConversation)[activeConvId :=
                           OpenedMessages(user, activeConvId, open, now)]
                      && activeDraft == (if open.draft.Ok? then open.draft.value else "")
                      && localDBAvailable == (old(localDBAvailable) && LoadSucceeded(init, cached, seedWrite)
                                             && OpenSucceeded(user, activeConvId, open)))
                && (conversations[0].convId == "" ==>
                      && activeConvId == ""
                      && messagesByConversation == old(messagesByConversation)
                      && activeDraft == old(activeDraft)
                      && localDBAvailable == (old(localDBAvailable) && LoadSucceeded(init, cached, seedWrite)))
    {
      if user == "" || (currentUserUuid == user && |conversations| > 0) {
        return;
      }
      Boot(user, init, cached, seedWrite, open, now);
    }

    /** `setDraft`: the draft is always updated; it is saved only with a
        user and an active conversation. */
    method SetDraft(draft: string, write: Outcome)
      modifies this`activeDraft, this`localDBAvailable
      ensures activeDraft == draft
      ensures localDBAvailable == (old(localDBAvailable) && (currentUserUuid == "" || activeConvId == "" || write == Done))
    {
      activeDraft := draft;
      if currentUserUuid == "" || activeConvId == "" {
        return;
      }
      SafeWrite(write);
    }

    /** The work of `sendMessage` once the text is known not to be blank
        and a conversation is open: record the message, make it the
        conversation's preview and time, re-sort, clear the draft. */
    method Post(normalized: string, msgId: string, now: int, messageWrite: Outcome, listWrite: Outcome,
                draftWrite: Outcome)
      modifies this`messagesByConversation, this`conversations, this`activeDraft, this`localDBAvailable
      requires currentUserUuid != "" && activeConvId != ""
      ensures Valid()
      ensures messagesByConversation == old(messagesByConversation)[activeConvId :=
                (if activeConvId in old(messagesByConversation) then old(messagesByConversation)[activeConvId] else [])
                + [OwnMessage(currentUserUuid, activeConvId, msgId, normalized, now)]]
      ensures conversations == SortBy(Touch(old(conversations), activeConvId, normalized, now), ConversationNewer)
      ensures activeDraft == ""
      ensures localDBAvailable == (old(localDBAvailable) && messageWrite == Done && listWrite == Done
                                   && draftWrite == Done)
    {
      var user := currentUserUuid;
      var convId := activeConvId;
      var message := OwnMessage(user, convId, msgId, normalized, now);
      SafeWrite(messageWrite);
      var previous := if convId in messagesByConversation then messagesByConversation[convId] else [];
      messagesByConversation := messagesByConversation[convId := previous + [message]];
      var sorted := TouchedSorted(conversations, convId, normalized, now);
      conversations := sorted;
      SafeWrite(listWrite);
      SetDraft("", draftWrite);
    }

    /** `sendMessage`: with a user, an active conversation and a text that
        is not blank, appends one message (the trimmed text) to the active
        conversation, makes it that conversation's preview and time,
        re-sorts the conversations and clears the draft. */
    method SendMessage(text: string, msgId: string, now: int, messageWrite: Outcome, listWrite: Outcome,
                       draftWrite: Outcome)
      modifies this`messagesByConversation, this`conversations, this`activeDraft, this`localDBAvailable
      requires Valid()
      ensures Valid()
      ensures AllSpace(text) || currentUserUuid == "" || activeConvId == "" ==>
                messagesByConversation == old(messagesByConversation) && conversations == old(conversations)
                && activeDraft == old(activeDraft) && localDBAvailable == old(localDBAvailable)
      ensures !AllSpace(text) && currentUserUuid != "" && activeConvId != "" ==>
                && messagesByConversation == old(messagesByConversation)[activeConvId :=
                     (if activeConvId in old(messagesByConversation) then old(messagesByConversation)[activeConvId] else [])
                     + [OwnMessage(currentUserUuid, activeConvId, msgId, Trim(text), now)]]
                && conversations == SortBy(Touch(old(conversations), activeConvId, Trim(text), now), ConversationNewer)
                && activeDraft == ""
                && localDBAvailable == (old(localDBAvailable) && messageWrite == Done && listWrite == Done
                                        && draftWrite == Done)
    {
      var normalized := Trim(text);
      TrimEmptyIffBlank(text);
      if normalized == "" || currentUserUuid == "" || activeConvId == "" {
        return;
      }
      Post(normalized, msgId, now, messageWrite, listWrite, draftWrite);
    }

    /** `clearState`: every field back to its initial value. */
    method ClearState()
      modifies this
      ensures currentUserUuid == "" && conversations == [] && messagesByConversation == map[]
      ensures activeConvId == "" && activeDraft == "" && !loading && localDBAvailable
      ensures Valid()
    {
      currentUserUuid := "";
      conversations := [];
      messagesByConversation := map[];
      activeConvId := "";
      activeDraft := "";
      loading := false;
      localDBAvailable := true;
    }
  }

  // ---------------------------------------------------------------------
  // What sending guarantees
  // ---------------------------------------------------------------------

  /** After a send, the conversation list holds the same conversations: the
      sent-to one with the new preview and time, every other one as it was,
      and the sent-to one first when its time is the latest. */
  lemma SendTouchesOnlyTarget(rows: seq<ConversationRow>, convId: string, text: string, now: int)
    requires forall i :: 0 <= i < |rows| ==> rows[i].updatedAt <= now
    ensures var after := SortBy(Touch(rows, convId, text, now), ConversationNewer);
            && |after| == |rows|
            && (forall x :: x in after && x.convId != convId ==> x in rows)
            && (forall x :: x in rows && x.convId != convId ==> x in after)
            && (forall x :: x in after && x.convId == convId ==> ConversationPreview(x) == text && x.updatedAt == now)
            && (forall i :: 0 <= i < |rows| && rows[i].convId == convId ==> after[0].updatedAt == now)
  {
    var touched := Touch(rows, convId, text, now);
    var after := SortBy(touched, ConversationNewer);
    forall x | x in after ensures x in touched {
      SortByPermutes(touched, ConversationNewer, x);
    }
    forall x | x in rows && x.convId != convId ensures x in after {
      var i :| 0 <= i < |rows| && rows[i] == x;
      assert touched[i] == x;
      SortByPermutes(touched, ConversationNewer, x);
    }
    forall i | 0 <= i < |rows| && rows[i].convId == convId ensures after[0].updatedAt == now {
      SortByPermutes(touched, ConversationNewer, touched[i]);
      SortedNewestFirst(touched);
      var j :| 0 <= j < |after| && after[j] == touched[i];
      if j > 0 {
        assert ConversationNewer(after[0], after[j]);
      }
      assert after[0] in touched;
    }
  }
}
