/** The main-process local cache (`src/main/ipc/handlers.localdb.ts`): one
    SQLite database whose tables (`src/main/db/schema.ts`) are modelled as
    finite maps from primary key to the stored columns.  Every read is
    filtered by the owning user, so the caches of different accounts never
    mix. */
module LocalDB {
  import opened Wrappers
  import opened Json
  import opened Keyed
  import opened Sorting
  import opened Rows

  // ---------------------------------------------------------------------
  // Stored columns
  // ---------------------------------------------------------------------

  /** `payload_json, updated_at`: the columns of profiles, blacklist and
      conversations besides the key. */
  datatype PayloadRec = PayloadRec(payloadJson: JsonText, updatedAt: int)

  datatype FriendRec = FriendRec(payloadJson: JsonText, version: int, updatedAt: int)

  datatype ApplyRec = ApplyRec(status: int, payloadJson: JsonText, updatedAt: int)

  datatype MessageRec = MessageRec(
    clientMsgId: Option<string>, seqNo: Option<int>, sendTime: int, payloadJson: JsonText,
    status: int)

  datatype DraftRec = DraftRec(draftText: string, updatedAt: int)

  datatype SyncRec = SyncRec(lastVersion: int, updatedAt: int)

  type PeerKey = (string, string)               // (user_uuid, peer_uuid) or (user_uuid, conv_id)
  type ApplyKey = (string, int, string)         // (user_uuid, apply_id, direction)
  type MessageKey = (string, string, string)    // (user_uuid, conv_id, msg_id)

  // ---------------------------------------------------------------------
  // Query arguments
  // ---------------------------------------------------------------------

  const DefaultLimit := 30
  const MaxLimit := 100

  /** `normalizeLimit`: a page size between 1 and 100; a missing or
      non-finite limit means 30, any other is truncated and clamped. */
  function NormalizeLimit(limit: JsNumber): (r: int)
    ensures 1 <= r <= MaxLimit
    ensures limit.NotFinite? ==> r == DefaultLimit
    ensures limit.Finite? && 1 <= Trunc(limit.value) <= MaxLimit ==> r == Trunc(limit.value)
    ensures limit.Finite? && Trunc(limit.value) < 1 ==> r == 1
    ensures limit.Finite? && Trunc(limit.value) > MaxLimit ==> r == MaxLimit
  {
    match limit
    case NotFinite => DefaultLimit
    case Finite(x) =>
      var n := Trunc(x);
      if n < 1 then 1 else if n > MaxLimit then MaxLimit else n
  }

  /** `normalizeCursor`: a strictly positive whole send time, or no cursor. */
  function NormalizeCursor(cursor: JsNumber): (r: Option<int>)
    ensures r.Some? <==> cursor.Finite? && Trunc(cursor.value) > 0
    ensures r.Some? ==> r.value == Trunc(cursor.value) && r.value >= 1
  {
    match cursor
    case NotFinite => None
    case Finite(x) => if Trunc(x) > 0 then Some(Trunc(x)) else None
  }

  // ---------------------------------------------------------------------
  // Row mappings: what each write stores and what each read returns
  // ---------------------------------------------------------------------

  function FriendKey(owner: string): FriendRow -> PeerKey {
    (item: FriendRow) => (owner, item.peerUuid)
  }

  /** A replace-all row: its own version unless 0, then the batch version. */
  function FriendRecOf(version: int, now: int): FriendRow -> FriendRec {
    (item: FriendRow) => FriendRec(SerializePayload(Some(item.payload)), OrElse(item.version, version), OrElse(item.updatedAt, now))
  }

  function ChangeKey(owner: string): FriendChange -> PeerKey {
    (c: FriendChange) => (owner, c.peerUuid)
  }

  function ChangeRecOf(latestVersion: int, now: int): FriendChange -> FriendRec {
    (c: FriendChange) => FriendRec(SerializePayload(c.payload), OrElse(c.version, latestVersion), OrElse(c.updatedAt.GetOr(0), now))
  }

  function BlockKey(owner: string): BlacklistRow -> PeerKey {
    (item: BlacklistRow) => (owner, item.peerUuid)
  }

  function BlockRecOf(now: int): BlacklistRow -> PayloadRec {
    (item: BlacklistRow) => PayloadRec(SerializePayload(Some(item.payload)), OrElse(item.updatedAt, now))
  }

  /** A request without a direction is stored in the inbox. */
  function ApplyKeyOf(owner: string): FriendApplyRow -> ApplyKey {
    (item: FriendApplyRow) => (owner, item.applyId, if item.direction == "" then "inbox" else item.direction)
  }

  function ApplyRecOf(now: int): FriendApplyRow -> ApplyRec {
    (item: FriendApplyRow) => ApplyRec(item.status, SerializePayload(Some(item.payload)), OrElse(item.updatedAt, now))
  }

  function ConversationKey(owner: string): ConversationRow -> PeerKey {
    (item: ConversationRow) => (owner, item.convId)
  }

  function ConversationRecOf(now: int): ConversationRow -> PayloadRec {
    (item: ConversationRow) => PayloadRec(SerializePayload(Some(item.payload)), OrElse(item.updatedAt, now))
  }

  /** Messages are keyed by the conversation given to the call, not the
      row's own `convId`. */
  function MessageKeyOf(owner: string, conv: string): MessageRow -> MessageKey {
    (item: MessageRow) => (owner, conv, item.msgId)
  }

  function MessageRecOf(item: MessageRow): MessageRec {
    MessageRec(item.clientMsgId, item.seqNo, item.sendTime, SerializePayload(Some(item.payload)), item.status)
  }

  function FriendRowOf(k: PeerKey, rec: FriendRec): FriendRow {
    FriendRow(k.0, k.1, ParsePayload(rec.payloadJson), rec.version, rec.updatedAt)
  }

  function BlacklistRowOf(k: PeerKey, rec: PayloadRec): BlacklistRow {
    BlacklistRow(k.0, k.1, ParsePayload(rec.payloadJson), rec.updatedAt)
  }

  function ApplyRowOf(k: ApplyKey, rec: ApplyRec): FriendApplyRow {
    FriendApplyRow(k.0, k.1, k.2, rec.status, ParsePayload(rec.payloadJson), rec.updatedAt)
  }

  function ConversationRowOf(k: PeerKey, rec: PayloadRec): ConversationRow {
    ConversationRow(k.0, k.1, ParsePayload(rec.payloadJson), rec.updatedAt)
  }

  function MessageRowOf(k: MessageKey, rec: MessageRec): MessageRow {
    MessageRow(k.0, k.1, k.2, rec.clientMsgId, rec.seqNo, rec.sendTime, ParsePayload(rec.payloadJson), rec.status)
  }

  // Primary keys read back from the rows
  function FriendRowKey(r: FriendRow): PeerKey { (r.userUuid, r.peerUuid) }
  function BlacklistRowKey(r: BlacklistRow): PeerKey { (r.userUuid, r.peerUuid) }
  function ApplyRowKey(r: FriendApplyRow): ApplyKey { (r.userUuid, r.applyId, r.direction) }
  function ConversationRowKey(r: ConversationRow): PeerKey { (r.userUuid, r.convId) }
  function MessageRowKey(r: MessageRow): MessageKey { (r.userUuid, r.convId, r.msgId) }

  // `WHERE` filters
  function OwnedBy<V>(owner: string): (PeerKey, V) -> bool {
    (k: PeerKey, _: V) => k.0 == owner
  }

  function InboxOf(owner: string): (ApplyKey, ApplyRec) -> bool {
    (k: ApplyKey, _: ApplyRec) => k.0 == owner && k.2 == "inbox"
  }

  // ---------------------------------------------------------------------
  // Specifications of the batch writes
  // ---------------------------------------------------------------------

  /** `DELETE FROM t WHERE user_uuid = ?` on a table keyed by (user, peer). */
  function DropOwner<V>(m: map<PeerKey, V>, owner: string): (r: map<PeerKey, V>)
    ensures forall k :: k in r <==> k in m && k.0 != owner
    ensures forall k :: k in r ==> r[k] == m[k]
  {
    map k | k in m && k.0 != owner :: m[k]
  }

  /** The owner's rows deleted, then the batch written; `key` gives each
      item's primary key, which belongs to the owner. */
  function ReplaceOwner<V, I>(m: map<PeerKey, V>, owner: string, items: seq<I>, key: I -> PeerKey, val: I -> V)
    : map<PeerKey, V>
  {
    PutAll(DropOwner(m, owner), items, key, val)
  }

  ghost predicate OwnedBatch<I>(items: seq<I>, owner: string, key: I -> PeerKey) {
    && (forall i :: 0 <= i < |items| ==> key(items[i]).0 == owner)
    && (forall i, j :: 0 <= i < j < |items| ==> key(items[i]) != key(items[j]))
  }

  /** After a replace-all, the owner's rows are exactly the batch, each as
      written, and every other user's rows are untouched. */
  lemma ReplaceOwnerAt<V, I>(m: map<PeerKey, V>, owner: string, items: seq<I>, key: I -> PeerKey, val: I -> V, k: PeerKey)
    requires OwnedBatch(items, owner, key)
    ensures var r := ReplaceOwner(m, owner, items, key, val);
            && (k.0 != owner ==> (k in r <==> k in m) && (k in m ==> r[k] == m[k]))
            && (k.0 == owner ==> (k in r <==> exists i :: 0 <= i < |items| && key(items[i]) == k))
            && (forall i :: 0 <= i < |items| && key(items[i]) == k ==> r[k] == val(items[i]))
  {
    PutAllAt(DropOwner(m, owner), items, key, val, k);
    var j := LastIndex(items, key, k);
    forall i | 0 <= i < |items| && key(items[i]) == k ensures i == j {
    }
  }

  /** Replacing twice with the same batch is replacing once. */
  lemma ReplaceOwnerIdempotent<V, I>(m: map<PeerKey, V>, owner: string, items: seq<I>, key: I -> PeerKey, val: I -> V)
    requires OwnedBatch(items, owner, key)
    ensures ReplaceOwner(ReplaceOwner(m, owner, items, key, val), owner, items, key, val)
         == ReplaceOwner(m, owner, items, key, val)
  {
    var once := ReplaceOwner(m, owner, items, key, val);
    var twice := ReplaceOwner(once, owner, items, key, val);
    forall k ensures (k in twice <==> k in once) && (k in once ==> twice[k] == once[k]) {
      ReplaceOwnerAt(m, owner, items, key, val, k);
      ReplaceOwnerAt(once, owner, items, key, val, k);
      if k.0 == owner && k in once {
        var i :| 0 <= i < |items| && key(items[i]) == k;
      }
    }
  }

  /** The friend table after an incremental sync: each change, in list
      order, deletes or upserts the owner's row for its peer. */
  function ChangedFriends(m: map<PeerKey, FriendRec>, owner: string, changes: seq<FriendChange>, latestVersion: int, now: int)
    : map<PeerKey, FriendRec>
  {
    if changes == [] then m
    else
      var prev := ChangedFriends(m, owner, changes[..|changes| - 1], latestVersion, now);
      var c := changes[|changes| - 1];
      match c.action
      case Delete => prev - {ChangeKey(owner)(c)}
      case Upsert => prev[ChangeKey(owner)(c) := ChangeRecOf(latestVersion, now)(c)]
  }

  function ChangePeer(c: FriendChange): string { c.peerUuid }

  /** The last change that names a peer decides its row; a peer no change
      names, and every other user's row, is untouched. */
  lemma {:induction false} LastChangeWins(m: map<PeerKey, FriendRec>, owner: string, changes: seq<FriendChange>, latestVersion: int, now: int, k: PeerKey)
    ensures var r := ChangedFriends(m, owner, changes, latestVersion, now);
            var j := LastIndex(changes, ChangePeer, k.1);
            if k.0 != owner || j < 0 then (k in r <==> k in m) && (k in m ==> r[k] == m[k])
            else if changes[j].action.Delete? then k !in r
            else k in r && r[k] == ChangeRecOf(latestVersion, now)(changes[j])
  {
    if changes != [] {
      LastChangeWins(m, owner, changes[..|changes| - 1], latestVersion, now, k);
    }
  }

  /** Re-applying the same change list changes nothing more. */
  lemma ChangedFriendsIdempotent(m: map<PeerKey, FriendRec>, owner: string, changes: seq<FriendChange>, latestVersion: int, now: int)
    ensures var once := ChangedFriends(m, owner, changes, latestVersion, now);
            ChangedFriends(once, owner, changes, latestVersion, now) == once
  {
    var once := ChangedFriends(m, owner, changes, latestVersion, now);
    var twice := ChangedFriends(once, owner, changes, latestVersion, now);
    forall k ensures (k in twice <==> k in once) && (k in once ==> twice[k] == once[k]) {
      LastChangeWins(m, owner, changes, latestVersion, now, k);
      LastChangeWins(once, owner, changes, latestVersion, now, k);
    }
  }

  /** A write of inbox requests never touches a sent request with the same
      id: the direction is part of the key. */
  lemma DirectionsKeptApart(m: map<ApplyKey, ApplyRec>, owner: string, items: seq<FriendApplyRow>, now: int, applyId: int)
    requires forall i :: 0 <= i < |items| ==> items[i].direction in {"", "inbox"}
    ensures var r := PutAll(m, items, ApplyKeyOf(owner), ApplyRecOf(now));
            var k := (owner, applyId, "outbox");
            (k in r <==> k in m) && (k in m ==> r[k] == m[k])
  {
    var k := (owner, applyId, "outbox");
    PutAllAt(m, items, ApplyKeyOf(owner), ApplyRecOf(now), k);
    forall i | 0 <= i < |items| ensures ApplyKeyOf(owner)(items[i]) != k {
      assert ApplyKeyOf(owner)(items[i]).2 == "inbox";
    }
  }

  // ---------------------------------------------------------------------
  // Reads
  // ---------------------------------------------------------------------

  /** `row` is the row read back from the entry under its own key, and
      that entry is one `select` admits. */
  ghost predicate StoredRow<K, V, R>(row: R, m: map<K, V>, select: (K, V) -> bool, build: (K, V) -> R, keyOf: R -> K) {
    keyOf(row) in m && select(keyOf(row), m[keyOf(row)]) && row == build(keyOf(row), m[keyOf(row)])
  }

  /** `rows` lists, once each, the row of every entry `select` admits and
      nothing else. */
  ghost predicate Lists<K, V, R>(rows: seq<R>, m: map<K, V>, select: (K, V) -> bool, build: (K, V) -> R, keyOf: R -> K) {
    && (forall k :: k in m && select(k, m[k]) ==> build(k, m[k]) in rows)
    && (forall i :: 0 <= i < |rows| ==> StoredRow(rows[i], m, select, build, keyOf))
    && (forall i, j :: 0 <= i < j < |rows| ==> rows[i] != rows[j])
  }

  ghost function Selected<K, V>(m: map<K, V>, select: (K, V) -> bool): set<K> {
    set k | k in m && select(k, m[k])
  }

  /** Every row carries its primary key. */
  ghost predicate KeyRecoverable<K, V, R>(m: map<K, V>, build: (K, V) -> R, keyOf: R -> K) {
    forall k :: k in m ==> keyOf(build(k, m[k])) == k
  }

  /** The rows of the entries in `done`, once each. */
  ghost predicate Collected<K, V, R>(rows: seq<R>, done: set<K>, m: map<K, V>, build: (K, V) -> R, keyOf: R -> K) {
    && (forall k :: k in done ==> k in m && build(k, m[k]) in rows)
    && (forall i :: 0 <= i < |rows| ==> keyOf(rows[i]) in done && keyOf(rows[i]) in m && rows[i] == build(keyOf(rows[i]), m[keyOf(rows[i])]))
    && (forall i, j :: 0 <= i < j < |rows| ==> rows[i] != rows[j])
  }

  /** Splicing the row of a further entry into the collection. */
  lemma CollectOne<K, V, R>(rows: seq<R>, done: set<K>, m: map<K, V>, build: (K, V) -> R, keyOf: R -> K, k: K, p: nat)
    requires Collected(rows, done, m, build, keyOf) && KeyRecoverable(m, build, keyOf)
    requires k in m && k !in done && p <= |rows|
    ensures Collected(rows[..p] + [build(k, m[k])] + rows[p..], done + {k}, m, build, keyOf)
  {
    var row := build(k, m[k]);
    assert keyOf(row) == k;
    forall i | 0 <= i < |rows| ensures rows[i] != row {
      assert keyOf(rows[i]) in done;
    }
    SpliceDistinct(rows, row, p);
    var rows' := rows[..p] + [row] + rows[p..];
    forall i | 0 <= i < |rows'|
      ensures keyOf(rows'[i]) in done + {k} && keyOf(rows'[i]) in m && rows'[i] == build(keyOf(rows'[i]), m[keyOf(rows'[i])])
    {
      if i < p {
        assert rows'[i] == rows[i];
      } else if i > p {
        assert rows'[i] == rows[i - 1];
      }
    }
    forall k' | k' in done + {k} ensures k' in m && build(k', m[k']) in rows' {
      if k' != k {
        var i :| 0 <= i < |rows| && rows[i] == build(k', m[k']);
        if i < p {
          assert rows'[i] == rows[i];
        } else {
          assert rows'[i + 1] == rows[i];
        }
      } else {
        assert rows'[p] == row;
      }
    }
  }

  /** One step of the sorted collection: the new row inserted in order. */
  lemma CollectSorted<K, V, R(!new)>(rows: seq<R>, done: set<K>, m: map<K, V>, build: (K, V) -> R, keyOf: R -> K,
                                     le: (R, R) -> bool, k: K)
    requires Total(le) && Transitive(le) && SortedBy(rows, le)
    requires Collected(rows, done, m, build, keyOf) && KeyRecoverable(m, build, keyOf)
    requires k in m && k !in done
    ensures SortedBy(InsertBy(rows, build(k, m[k]), le), le)
    ensures Collected(InsertBy(rows, build(k, m[k]), le), done + {k}, m, build, keyOf)
  {
    InsertBySorted(rows, build(k, m[k]), le);
    CollectOne(rows, done, m, build, keyOf, k, InsertionPoint(rows, build(k, m[k]), le));
  }

  /** The state of the collection loop: `done` collected in order, `todo`
      left to do. */
  ghost predicate Collecting<K, V, R(!new)>(rows: seq<R>, todo: set<K>, done: set<K>, m: map<K, V>, select: (K, V) -> bool,
                                            build: (K, V) -> R, keyOf: R -> K, le: (R, R) -> bool)
  {
    && todo !! done && todo + done == Selected(m, select)
    && |rows| == |done|
    && Collected(rows, done, m, build, keyOf)
    && SortedBy(rows, le)
  }

  lemma CollectStep<K, V, R(!new)>(rows: seq<R>, todo: set<K>, done: set<K>, m: map<K, V>, select: (K, V) -> bool,
                                   build: (K, V) -> R, keyOf: R -> K, le: (R, R) -> bool, k: K)
    requires Total(le) && Transitive(le) && KeyRecoverable(m, build, keyOf)
    requires Collecting(rows, todo, done, m, select, build, keyOf, le) && k in todo
    ensures Collecting(InsertBy(rows, build(k, m[k]), le), todo - {k}, done + {k}, m, select, build, keyOf, le)
  {
    CollectSorted(rows, done, m, build, keyOf, le, k);
  }

  /** `SELECT … WHERE select ORDER BY …`: the matching rows in `le` order;
      rows that tie come out in no particular order. */
  method SelectSorted<K(==), V, R(!new)>(m: map<K, V>, select: (K, V) -> bool, build: (K, V) -> R, keyOf: R -> K,
                                         le: (R, R) -> bool)
    returns (rows: seq<R>)
    requires Total(le) && Transitive(le)
    requires KeyRecoverable(m, build, keyOf)
    ensures Lists(rows, m, select, build, keyOf)
    ensures |rows| == |Selected(m, select)|
    ensures SortedBy(rows, le)
  {
    var todo := set k | k in m && select(k, m[k]);
    ghost var done: set<K> := {};
    rows := [];
    while todo != {}
      invariant Collecting(rows, todo, done, m, select, build, keyOf, le)
      decreases |todo|
    {
      var k :| k in todo;
      CollectStep(rows, todo, done, m, select, build, keyOf, le, k);
      rows := InsertBy(rows, build(k, m[k]), le);
      todo := todo - {k};
      done := done + {k};
    }
    CollectedLists(rows, m, select, build, keyOf);
  }

  lemma CollectedLists<K, V, R>(rows: seq<R>, m: map<K, V>, select: (K, V) -> bool, build: (K, V) -> R, keyOf: R -> K)
    requires Collected(rows, Selected(m, select), m, build, keyOf)
    ensures Lists(rows, m, select, build, keyOf)
  {
    forall k | k in m && select(k, m[k]) ensures build(k, m[k]) in rows {
      assert k in Selected(m, select);
    }
  }

  /** Splicing a new element into a list without repeats keeps it without
      repeats. */
  lemma SpliceDistinct<T>(s: seq<T>, x: T, p: nat)
    requires p <= |s| && x !in s
    requires forall i, j :: 0 <= i < j < |s| ==> s[i] != s[j]
    ensures var r := s[..p] + [x] + s[p..];
            forall i, j :: 0 <= i < j < |r| ==> r[i] != r[j]
  {
    var r := s[..p] + [x] + s[p..];
    forall i, j | 0 <= i < j < |r| ensures r[i] != r[j] {
      var si := if i < p then i else i - 1;
      var sj := if j <= p then j else j - 1;
      assert i != p ==> r[i] == s[si];
      assert j != p ==> r[j] == s[sj];
    }
  }

  /** The rows of a conversation, strictly older than the cursor when there
      is one. */
  predicate InPage(k: MessageKey, rec: MessageRec, owner: string, conv: string, cursor: Option<int>) {
    k.0 == owner && k.1 == conv && (cursor.None? || rec.sendTime < cursor.value)
  }

  function PageFilter(owner: string, conv: string, cursor: Option<int>): (MessageKey, MessageRec) -> bool {
    (k: MessageKey, rec: MessageRec) => InPage(k, rec, owner, conv, cursor)
  }

  /** `page` holds the `limit` latest messages `select` admits (all of them
      when there are fewer), once each, oldest first: no message left out is
      later than one on the page. */
  ghost predicate IsNewestPage(page: seq<MessageRow>, messages: map<MessageKey, MessageRec>,
                               select: (MessageKey, MessageRec) -> bool, limit: int)
  {
    var eligible := Selected(messages, select);
    && |page| == (if |eligible| < limit then |eligible| else limit)
    && (forall i :: 0 <= i < |page| ==> StoredRow(page[i], messages, select, MessageRowOf, MessageRowKey))
    && (forall i, j :: 0 <= i < j < |page| ==> page[i] != page[j] && page[i].sendTime <= page[j].sendTime)
    && (forall k, i ::
          k in messages && select(k, messages[k]) && MessageRowOf(k, messages[k]) !in page && 0 <= i < |page|
          ==> messages[k].sendTime <= page[i].sendTime)
  }

  lemma NewestPageOf(messages: map<MessageKey, MessageRec>, select: (MessageKey, MessageRec) -> bool,
                     rows: seq<MessageRow>, n: nat, page: seq<MessageRow>)
    requires Lists(rows, messages, select, MessageRowOf, MessageRowKey) && |rows| == |Selected(messages, select)|
    requires |page| == (if |rows| < n then |rows| else n)
    requires forall i :: 0 <= i < |page| ==> page[i] == rows[|page| - 1 - i]
    requires forall i, j :: 0 <= i < j < |page| ==> page[i] != page[j] && SentLater(page[j], page[i])
    requires forall x, i :: x in rows && x !in page && 0 <= i < |page| ==> SentLater(page[i], x)
    ensures IsNewestPage(page, messages, select, n)
  {
    forall i | 0 <= i < |page| ensures StoredRow(page[i], messages, select, MessageRowOf, MessageRowKey) {
      assert page[i] == rows[|page| - 1 - i];
    }
    forall k, i | k in messages && select(k, messages[k]) && MessageRowOf(k, messages[k]) !in page && 0 <= i < |page|
      ensures messages[k].sendTime <= page[i].sendTime
    {
      assert SentLater(page[i], MessageRowOf(k, messages[k]));
    }
  }

  function Reversed<T>(s: seq<T>): (r: seq<T>)
    ensures |r| == |s|
    ensures forall i :: 0 <= i < |s| ==> r[i] == s[|s| - 1 - i]
  {
    if s == [] then [] else Reversed(s[1..]) + [s[0]]
  }

  /** The first `n` elements of a list ordered by `le`, reversed: a list
      ordered the other way, holding elements no smaller than any it left
      out. */
  /** The listed messages, newest first, cut to `n` and reversed, are the
      newest page. */
  lemma MessagePage(messages: map<MessageKey, MessageRec>, select: (MessageKey, MessageRec) -> bool,
                    rows: seq<MessageRow>, n: nat)
    requires Lists(rows, messages, select, MessageRowOf, MessageRowKey) && |rows| == |Selected(messages, select)|
    requires SortedBy(rows, SentLater)
    ensures IsNewestPage(Reversed(if |rows| <= n then rows else rows[..n]), messages, select, n)
  {
    NewestReversed(rows, n, SentLater);
    NewestPageOf(messages, select, rows, n, Reversed(if |rows| <= n then rows else rows[..n]));
  }

  lemma NewestReversed<T>(rows: seq<T>, n: nat, le: (T, T) -> bool)
    requires SortedBy(rows, le)
    requires forall i, j :: 0 <= i < j < |rows| ==> rows[i] != rows[j]
    ensures var page := Reversed(if |rows| <= n then rows else rows[..n]);
            && |page| == (if |rows| < n then |rows| else n)
            && (forall i :: 0 <= i < |page| ==> page[i] == rows[|page| - 1 - i])
            && (forall i, j :: 0 <= i < j < |page| ==> page[i] != page[j] && le(page[j], page[i]))
            && (forall x, i :: x in rows && x !in page && 0 <= i < |page| ==> le(page[i], x))
  {
    var top := if |rows| <= n then rows else rows[..n];
    var page := Reversed(top);
    assert forall i :: 0 <= i < |page| ==> page[i] == rows[|page| - 1 - i];
    LeftOutIsOlder(rows, page, le);
  }

  /** What a prefix of an ordered list leaves out is no greater than what
      it keeps. */
  lemma LeftOutIsOlder<T>(rows: seq<T>, page: seq<T>, le: (T, T) -> bool)
    requires SortedBy(rows, le) && |page| <= |rows|
    requires forall i :: 0 <= i < |page| ==> page[i] == rows[|page| - 1 - i]
    ensures forall x, i :: x in rows && x !in page && 0 <= i < |page| ==> le(page[i], x)
  {
    forall q | 0 <= q < |page| ensures rows[q] in page {
      assert page[|page| - 1 - q] == rows[q];
    }
    forall x, i | x in rows && x !in page && 0 <= i < |page| ensures le(page[i], x) {
      var p :| 0 <= p < |rows| && rows[p] == x;
      assert p >= |page|;
    }
  }

  // ---------------------------------------------------------------------
  // The database
  // ---------------------------------------------------------------------

  class Store {
    var profiles: map<string, PayloadRec>
    var friends: map<PeerKey, FriendRec>
    var applies: map<ApplyKey, ApplyRec>
    var blacklist: map<PeerKey, PayloadRec>
    var conversations: map<PeerKey, PayloadRec>
    var messages: map<MessageKey, MessageRec>
    var drafts: map<PeerKey, DraftRec>
    var syncState: map<PeerKey, SyncRec>

    /** A freshly created database: every table empty. */
    constructor ()
      ensures profiles == map[] && friends == map[] && applies == map[] && blacklist == map[]
      ensures conversations == map[] && messages == map[] && drafts == map[] && syncState == map[]
    {
      profiles := map[];
      friends := map[];
      applies := map[];
      blacklist := map[];
      conversations := map[];
      messages := map[];
      drafts := map[];
      syncState := map[];
    }

    /** `upsertSyncState`: the version is overwritten, whether or not it is
        newer than the stored one. */
    method UpsertSyncState(owner: string, domain: string, lastVersion: int, now: int)
      modifies this`syncState
      ensures syncState == old(syncState)[(owner, domain) := SyncRec(lastVersion, now)]
    {
      syncState := syncState[(owner, domain) := SyncRec(lastVersion, now)];
    }

    /** `profile.get`: the cached profile, or null. */
    function ProfileOf(owner: string): (r: Option<ProfileRow>)
      reads this
      ensures r.Some? <==> owner in profiles
      ensures r.Some? ==> r.value.userUuid == owner && r.value.updatedAt == profiles[owner].updatedAt
      ensures r.Some? ==> r.value.payload == ParsePayload(profiles[owner].payloadJson)
    {
      if owner in profiles then
        Some(ProfileRow(owner, ParsePayload(profiles[owner].payloadJson), profiles[owner].updatedAt))
      else None
    }

    /** `profile.upsert`: the profile reads back as written (a zero
        `updatedAt` becomes the current time). */
    method UpsertProfile(profile: ProfileRow, now: int)
      modifies this`profiles
      ensures profiles == old(profiles)[profile.userUuid := PayloadRec(SerializePayload(Some(profile.payload)), OrElse(profile.updatedAt, now))]
      ensures ProfileOf(profile.userUuid) == Some(profile.(updatedAt := OrElse(profile.updatedAt, now)))
    {
      profiles := profiles[profile.userUuid := PayloadRec(SerializePayload(Some(profile.payload)), OrElse(profile.updatedAt, now))];
      PayloadRoundTrip(Some(profile.payload));
    }

    /** `friends.getList`: the owner's friends, most recently updated first. */
    method GetFriends(owner: string) returns (rows: seq<FriendRow>)
      ensures Lists(rows, friends, OwnedBy(owner), FriendRowOf, FriendRowKey)
      ensures SortedBy(rows, FriendNewer)
    {
      rows := SelectSorted(friends, OwnedBy(owner), FriendRowOf, FriendRowKey, FriendNewer);
    }

    /** `friends.replaceAll`: in one transaction the owner's friends are
        deleted and the batch inserted; a batch naming a peer twice violates
        the primary key, the transaction rolls back and the call fails before
        the sync cursor is written. */
    method ReplaceFriends(owner: string, items: seq<FriendRow>, version: int, now: int) returns (ok: bool)
      modifies this`friends, this`syncState
      ensures ok <==> forall i, j :: 0 <= i < j < |items| ==> items[i].peerUuid != items[j].peerUuid
      ensures ok ==> friends == ReplaceOwner(old(friends), owner, items, FriendKey(owner), FriendRecOf(version, now))
      ensures ok ==> syncState == old(syncState)[(owner, "friend") := SyncRec(version, now)]
      ensures !ok ==> friends == old(friends) && syncState == old(syncState)
    {
      var inserted, table := InsertEach(DropOwner(friends, owner), items, FriendKey(owner), FriendRecOf(version, now));
      if !inserted {
        return false;
      }
      friends := table;
      UpsertSyncState(owner, "friend", version, now);
      ok := true;
    }

    /** `friends.applyChanges`: the changes in list order, then the sync
        cursor set to the latest version. */
    method ApplyFriendChanges(owner: string, changes: seq<FriendChange>, latestVersion: int, now: int)
      modifies this`friends, this`syncState
      ensures friends == ChangedFriends(old(friends), owner, changes, latestVersion, now)
      ensures syncState == old(syncState)[(owner, "friend") := SyncRec(latestVersion, now)]
    {
      var i := 0;
      while i < |changes|
        invariant 0 <= i <= |changes|
        invariant friends == ChangedFriends(old(friends), owner, changes[..i], latestVersion, now)
        invariant syncState == old(syncState)
      {
        assert changes[..i + 1][..i] == changes[..i];
        var c := changes[i];
        match c.action {
          case Delete => friends := friends - {ChangeKey(owner)(c)};
          case Upsert => friends := friends[ChangeKey(owner)(c) := ChangeRecOf(latestVersion, now)(c)];
        }
        i := i + 1;
      }
      assert changes[..i] == changes;
      UpsertSyncState(owner, "friend", latestVersion, now);
    }

    /** `applies.getInbox`: the owner's received requests, newest first. */
    method GetInbox(owner: string) returns (rows: seq<FriendApplyRow>)
      ensures Lists(rows, applies, InboxOf(owner), ApplyRowOf, ApplyRowKey)
      ensures SortedBy(rows, ApplyNewer)
    {
      rows := SelectSorted(applies, InboxOf(owner), ApplyRowOf, ApplyRowKey, ApplyNewer);
    }

    /** `applies.upsertInbox`: each request upserted under its direction. */
    method UpsertApplies(owner: string, items: seq<FriendApplyRow>, now: int)
      modifies this`applies
      ensures applies == PutAll(old(applies), items, ApplyKeyOf(owner), ApplyRecOf(now))
    {
      applies := PutEach(applies, items, ApplyKeyOf(owner), ApplyRecOf(now));
    }

    /** `blacklist.getList`: the owner's blocked users, newest first. */
    method GetBlacklist(owner: string) returns (rows: seq<BlacklistRow>)
      ensures Lists(rows, blacklist, OwnedBy(owner), BlacklistRowOf, BlacklistRowKey)
      ensures SortedBy(rows, BlacklistNewer)
    {
      rows := SelectSorted(blacklist, OwnedBy(owner), BlacklistRowOf, BlacklistRowKey, BlacklistNewer);
    }

    /** `blacklist.replaceAll`: like the friend replace, without a sync
        cursor. */
    method ReplaceBlacklist(owner: string, items: seq<BlacklistRow>, now: int) returns (ok: bool)
      modifies this`blacklist
      ensures ok <==> forall i, j :: 0 <= i < j < |items| ==> items[i].peerUuid != items[j].peerUuid
      ensures ok ==> blacklist == ReplaceOwner(old(blacklist), owner, items, BlockKey(owner), BlockRecOf(now))
      ensures !ok ==> blacklist == old(blacklist)
    {
      var inserted, table := InsertEach(DropOwner(blacklist, owner), items, BlockKey(owner), BlockRecOf(now));
      if !inserted {
        return false;
      }
      blacklist := table;
      ok := true;
    }

    /** `chat.getConversations`: the owner's conversations, newest first. */
    method GetConversations(owner: string) returns (rows: seq<ConversationRow>)
      ensures Lists(rows, conversations, OwnedBy(owner), ConversationRowOf, ConversationRowKey)
      ensures SortedBy(rows, ConversationNewer)
    {
      rows := SelectSorted(conversations, OwnedBy(owner), ConversationRowOf, ConversationRowKey, ConversationNewer);
    }

    /** `chat.upsertConversations`. */
    method UpsertConversations(owner: string, items: seq<ConversationRow>, now: int)
      modifies this`conversations
      ensures conversations == PutAll(old(conversations), items, ConversationKey(owner), ConversationRecOf(now))
    {
      conversations := PutEach(conversations, items, ConversationKey(owner), ConversationRecOf(now));
    }

    /** `chat.getMessages`: the `limit` newest messages of the conversation
        older than the cursor, returned oldest first. */
    method GetMessages(owner: string, conv: string, cursor: JsNumber, limit: JsNumber) returns (page: seq<MessageRow>)
      ensures IsNewestPage(page, messages, PageFilter(owner, conv, NormalizeCursor(cursor)), NormalizeLimit(limit))
    {
      var c := NormalizeCursor(cursor);
      var n := NormalizeLimit(limit);
      var rows := SelectSorted(messages, PageFilter(owner, conv, c), MessageRowOf, MessageRowKey, SentLater);
      page := Reversed(if |rows| <= n then rows else rows[..n]);
      MessagePage(messages, PageFilter(owner, conv, c), rows, n);
    }

    /** `chat.upsertMessages`: each message upserted under the given
        conversation. */
    method UpsertMessages(owner: string, conv: string, items: seq<MessageRow>)
      modifies this`messages
      ensures messages == PutAll(old(messages), items, MessageKeyOf(owner, conv), MessageRecOf)
    {
      messages := PutEach(messages, items, MessageKeyOf(owner, conv), MessageRecOf);
    }

    /** `chat.getDraft`: the saved draft, or the empty string. */
    function DraftOf(owner: string, conv: string): (r: string)
      reads this
      ensures (owner, conv) !in drafts ==> r == ""
      ensures (owner, conv) in drafts ==> r == drafts[(owner, conv)].draftText
    {
      if (owner, conv) in drafts then drafts[(owner, conv)].draftText else ""
    }

    /** `chat.saveDraft`: the draft reads back as saved; other drafts keep
        theirs. */
    method SaveDraft(owner: string, conv: string, draft: string, now: int)
      modifies this`drafts
      ensures drafts == old(drafts)[(owner, conv) := DraftRec(draft, now)]
      ensures DraftOf(owner, conv) == draft
      ensures forall o, c :: (o, c) != (owner, conv) ==> DraftOf(o, c) == old(DraftOf(o, c))
    {
      drafts := drafts[(owner, conv) := DraftRec(draft, now)];
    }
  }
}
