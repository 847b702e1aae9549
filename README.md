# LCchat desktop client — a Dafny model of its data core

This project models the data core of the LCchat desktop chat client, an
Electron application written in TypeScript, and proves properties of that
model. It covers:

- **The main-process local store** (`handlers.localdb.ts`): the SQLite
  tables of the local cache, modelled as finite maps keyed by their primary
  keys (`LocalDB.Store`). It covers:
  - page-size and cursor normalisation;
  - payload (de)serialisation;
  - replace-all in a transaction;
  - incremental friend changes;
  - keyed upserts;
  - ordered `SELECT`s;
  - the newest-page message query;
  - drafts and the sync cursor.
- **The renderer stores**, each a class whose fields the store's actions
  update:
  - friend applications, with paging and read marks (`ApplyStore`);
  - conversations, messages and drafts (`SessionStore`);
  - friends, blacklist and profile (`FriendStore`, `BlacklistStore`,
    `UserStore`);
  - the login session (`AuthStore`);
  - online presence (`PresenceStore`).
- **The shared login-session cell** behind `window.api.session`
  (`SessionVault`). The auth store, the request interceptor and the token
  refresh all share it.
- **The HTTP layer**:
  - business-code unwrapping and the request headers (`Interceptor`);
  - the single-flight token refresh (`RefreshCoordinator`);
  - the one-shot retry after an HTTP 401, with the response handlers as
    they are installed (`Interceptor.InstalledResponse`);
  - the refresh itself (`SessionRefresh`).
- **The user-facing error texts**: the per-action code tables and the
  cascade they share (`ErrorText`, `ContactErrors`, `AuthErrors`,
  `SecurityErrors`).
- **Friend grouping** (`FriendGrouping`): tags normalised, friends bucketed
  per tag, buckets sorted by a preferred tag order, then by name, with the
  ungrouped bucket last.
- **The QR login-token reader** (`QrCode`).
- **The login device description** (`DeviceInfo`).

Generic pieces are proved once and reused:
- `Keyed`: batched upserts and plain inserts into a keyed table;
- `Sorting`: a stable sort by a comparator, as `Array.prototype.sort` is;
- `Distinct`: order-preserving de-duplication;
- `Paging`: the server page-pulling loop;
- `JsString`: `trim`, `toLowerCase`, `includes` and `slice`.

Everything the client obtains from outside is a parameter of the operation
that uses it:
- the bridge to the main process;
- the HTTP server;
- the clock;
- random ids;
- `navigator`;
- URL parsing;
- percent-decoding;
- locale-aware comparison.

A failing call is the `Failed` case of `Reply`, or `Threw` of `Outcome`.
The stores are proved against what each reply or outcome would make them do.

The model follows the code wherever the repository's own documentation says
otherwise:
- the friend sync cursor is overwritten, not kept monotonic;
- a refresh request that is rejected does not clear the stored session;
  only a refresh yielding no access token does, and it does so on every
  retry that ends that way;
- a pull of applications that fails after page 1 still replaces the cached
  inbox (or outbox) with the pages fetched so far, rather than leaving the
  list as it was (`Paging.LaterFailureKeepsFirstPage`,
  `ApplyStore.PartialPullReplaces`);
- a business-level token error (codes 20002 and 20003) never triggers a
  refresh and a retry. `unwrapBusinessCode` and `normalizeTransportError`
  are installed as one fulfilled/rejected pair, so the business error the
  first raises rejects the request without reaching the second. Only an
  HTTP 401 is refreshed and retried (`Interceptor.InstalledResponse`).
  `Interceptor.NormalizeTransportError` on its own still models the
  handler's token-error branch, which is unreachable as installed.

## Model

| member | source | states |
|---|---|---|
| Json.PayloadRoundTrip | src/main/ipc/handlers.localdb.ts:33-47 | a payload written by `serializePayload` reads back unchanged through `parsePayload`; no payload reads back as `{}` |
| Json.SerializePayload | src/main/ipc/handlers.localdb.ts:33-35 | the stored text always parses, to the payload as an object, `{}` when absent |
| Json.ParsePayload | src/main/ipc/handlers.localdb.ts:37-47 | the parsed object, or `{}` |
| Json.NonObjectPayloadIsEmpty | src/main/ipc/handlers.localdb.ts:37-47 | text that does not parse, or parses to anything but an object, reads as `{}` |
| Json.StringField | src/renderer/src/stores/session.store.ts:5-8 | `getString`: the field's text when it is a string, else the fallback |
| Rows.Trunc | src/main/ipc/handlers.localdb.ts:49-55 | `Math.trunc`: the integer part, rounding toward zero, within 1 of the input |
| Keyed.LastIndex | src/main/ipc/handlers.localdb.ts:236-265 | the index of the last item with a key, or -1 when none has it |
| Keyed.PutAllAt | src/main/ipc/handlers.localdb.ts:236-265 | after a batch of `INSERT … ON CONFLICT DO UPDATE` the last item written for a key wins; other keys keep their rows or stay absent |
| Keyed.PutAllConcat | src/main/ipc/handlers.localdb.ts:236-265 | writing `a + b` is writing `a`, then `b` |
| Keyed.PutEach | src/main/ipc/handlers.localdb.ts:241-262 | the upsert loop leaves exactly the table `PutAll` describes |
| Keyed.InsertEach | src/main/ipc/handlers.localdb.ts:149-166 | plain inserts in a transaction succeed exactly when no key repeats or is present; then the table is `PutAll` of the batch |
| Sorting.InsertBy | src/renderer/src/stores/session.store.ts:145-145 | inserting keeps every element (multiset grows by the new one) |
| Sorting.InsertionPoint | src/renderer/src/stores/session.store.ts:145-145 | the insertion point lies after every element ordered before the new one and before the first that is not |
| Sorting.SortBy | src/renderer/src/stores/session.store.ts:145-145 | `[...s].sort(cmp)` is a permutation of `s` |
| Sorting.SortBySorted | src/renderer/src/stores/session.store.ts:145-145 | under a total preorder the sorted copy is ordered |
| Sorting.SortByPermutes | src/renderer/src/stores/session.store.ts:145-145 | an element is in the sorted copy exactly when it is in the input |
| Sorting.SortBySortedIsIdentity | src/renderer/src/stores/session.store.ts:145-145 | an already ordered list is left as it is (the sort is stable) |
| Sorting.SortByAgree | src/renderer/src/modules/contact/utils/friend-grouping.ts:54-71 | two comparators that agree on distinct elements sort a repeat-free list alike |
| Distinct.FirstIndex | src/renderer/src/stores/presence.store.ts:17-19 | the first position of a value: it holds the value and no earlier one does |
| Distinct.Dedupe | src/renderer/src/stores/presence.store.ts:17-19 | `[...new Set(s)]`: no repeats, the same values, in order of first occurrence |
| Distinct.DedupeKeepsDistinct | src/renderer/src/stores/presence.store.ts:17-19 | a list without repeats is its own dedupe |
| Distinct.PermutationKeepsDistinct | src/renderer/src/modules/contact/utils/friend-grouping.ts:47-71 | a rearrangement of a repeat-free list has no repeats |
| LocalDB.NormalizeLimit | src/main/ipc/handlers.localdb.ts:49-55 | a page size in 1..100: 30 for a missing or non-finite limit, otherwise the truncated limit clamped |
| LocalDB.NormalizeCursor | src/main/ipc/handlers.localdb.ts:57-64 | a cursor exists exactly for a finite number whose truncation is positive, and is that truncation |
| LocalDB.DropOwner | src/main/ipc/handlers.localdb.ts:150-150 | `DELETE … WHERE user_uuid = ?` removes exactly the owner's rows and keeps the rest unchanged |
| LocalDB.ReplaceOwnerAt | src/main/ipc/handlers.localdb.ts:144-170 | after a replace-all the owner's rows are exactly the batch, each as written; other users' rows are untouched |
| LocalDB.ReplaceOwnerIdempotent | src/main/ipc/handlers.localdb.ts:144-170 | replacing twice with the same batch equals replacing once |
| LocalDB.LastChangeWins | src/main/ipc/handlers.localdb.ts:172-207 | the last change naming a peer decides its row (deleted, or the change's record); unnamed peers and other users are untouched |
| LocalDB.ChangedFriendsIdempotent | src/main/ipc/handlers.localdb.ts:172-207 | applying the same change list again changes nothing |
| LocalDB.DirectionsKeptApart | src/main/ipc/handlers.localdb.ts:236-265 | writing inbox requests never touches an outbox request with the same id |
| LocalDB.SelectSorted | src/main/ipc/handlers.localdb.ts:119-142 | a `SELECT … ORDER BY` lists every selected entry once, nothing else, in the order asked for |
| LocalDB.NewestPageOf | src/main/ipc/handlers.localdb.ts:371-427 | the message page holds the `limit` newest messages below the cursor, oldest first, and every message left out is older |
| LocalDB.NewestReversed | src/main/ipc/handlers.localdb.ts:376-427 | the first `n` rows of a newest-first list, reversed: oldest first, without repeats, and no row left out is newer than a row kept |
| LocalDB.LeftOutIsOlder | src/main/ipc/handlers.localdb.ts:380-425 | what the `LIMIT` leaves out is no newer than anything on the page |
| LocalDB.Store.constructor | src/main/ipc/handlers.localdb.ts:83-85 | a fresh database has every table empty |
| LocalDB.Store.UpsertSyncState | src/main/ipc/handlers.localdb.ts:66-80 | the sync version is overwritten, not checked for being newer |
| LocalDB.Store.ProfileOf | src/main/ipc/handlers.localdb.ts:87-102 | the cached profile of a user exists exactly when one was stored, with its owner and time, and its payload is the stored text read through `parsePayload` |
| LocalDB.Store.UpsertProfile | src/main/ipc/handlers.localdb.ts:104-117 | the profile reads back as written (a zero time becomes now) |
| LocalDB.Store.GetFriends | src/main/ipc/handlers.localdb.ts:119-142 | the owner's friends, each once, most recently updated first |
| LocalDB.Store.ReplaceFriends | src/main/ipc/handlers.localdb.ts:144-170 | succeeds exactly when the batch names each peer once; then the owner's friends are the batch and the cursor is the version; on failure nothing changes |
| LocalDB.Store.ApplyFriendChanges | src/main/ipc/handlers.localdb.ts:172-207 | the changes applied in list order, then the cursor set to the latest version |
| LocalDB.Store.GetInbox | src/main/ipc/handlers.localdb.ts:209-234 | the owner's inbox requests, each once, newest first |
| LocalDB.Store.UpsertApplies | src/main/ipc/handlers.localdb.ts:236-265 | each request upserted under (owner, id, direction), an empty direction meaning inbox |
| LocalDB.Store.GetBlacklist | src/main/ipc/handlers.localdb.ts:267-288 | the owner's blocked users, each once, newest first |
| LocalDB.Store.ReplaceBlacklist | src/main/ipc/handlers.localdb.ts:290-314 | succeeds exactly when no peer repeats; then the owner's blacklist is the batch; otherwise unchanged |
| LocalDB.Store.GetConversations | src/main/ipc/handlers.localdb.ts:316-341 | the owner's conversations, each once, newest first |
| LocalDB.Store.UpsertConversations | src/main/ipc/handlers.localdb.ts:343-369 | each conversation upserted under (owner, conversation) |
| LocalDB.Store.GetMessages | src/main/ipc/handlers.localdb.ts:371-427 | the newest `limit` messages of the conversation below the cursor, returned oldest first |
| LocalDB.Store.UpsertMessages | src/main/ipc/handlers.localdb.ts:429-479 | each message upserted under the conversation given to the call |
| LocalDB.Store.DraftOf | src/main/ipc/handlers.localdb.ts:497-504 | the saved draft, or `''` |
| LocalDB.Store.SaveDraft | src/main/ipc/handlers.localdb.ts:481-495 | the draft reads back as saved; every other draft keeps its text |
| Paging.PullAllPages | src/renderer/src/stores/apply.store.ts:202-243 | the request loop yields exactly the pull `PullFrom` describes |
| Paging.PullRequests | src/renderer/src/stores/apply.store.ts:211-234 | pages are requested 1, 2, … without gaps, never beyond 50, every request but the last succeeding |
| Paging.FirstPageDecides | src/renderer/src/stores/apply.store.ts:211-243 | page 1 is always requested; something was fetched exactly when it arrived |
| Paging.LaterFailureKeepsFirstPage | src/renderer/src/stores/apply.store.ts:213-234 | when page 1 arrives announcing more pages and page 2 fails, the loop stops with page 1's items and still counts as having fetched |
| Paging.PagesRequested | src/renderer/src/stores/apply.store.ts:211-234 | with a constant page count `n`, exactly `min(max(n,1),50)` pages are requested |
| Paging.FiftyPagesAtMost | src/renderer/src/stores/apply.store.ts:211-234 | a server claiming 999 pages is asked for pages 1 to 50 only |
| ApplyStore.ToApplyPayload | src/renderer/src/stores/apply.store.ts:15-27 | exactly the nine fields of the item, each under its own name with the item's value |
| ApplyStore.MapApplyToRow | src/renderer/src/stores/apply.store.ts:29-38 | an inbox row keyed by the item's id, carrying the item's fields as its payload; a zero creation time becomes now |
| ApplyStore.InboxRows | src/renderer/src/stores/apply.store.ts:228-230 | each server item becomes its inbox row, in order |
| ApplyStore.MapSentApplyToRow | src/renderer/src/stores/apply.store.ts:40-59 | an outbox row naming the target, with its reason, source, status and read flag; the nickname falls back to the target id, the avatar to `''` |
| ApplyStore.SentRows | src/renderer/src/stores/apply.store.ts:270-272 | each server item becomes its outbox row, in order |
| ApplyStore.BuildUpdatedRow | src/renderer/src/stores/apply.store.ts:75-95 | status and read flag patched in the column and mirrored in the payload (`status`, `isRead` as a boolean), an absent patch field keeping the current value; every other payload field kept; stamped now |
| ApplyStore.CountUnread | src/renderer/src/stores/apply.store.ts:66-68 | the number of unread rows, at most the number of rows |
| ApplyStore.CountUnreadPermutation | src/renderer/src/stores/apply.store.ts:66-68 | the unread count does not depend on row order |
| ApplyStore.SortKeepsUnread | src/renderer/src/stores/apply.store.ts:145-146 | sorting the inbox does not change its unread count |
| ApplyStore.IndexByIdFacts | src/renderer/src/stores/apply.store.ts:137-145 | indexing by id keeps one row per id, the last one written, and every id |
| ApplyStore.SetByIdFacts | src/renderer/src/stores/apply.store.ts:137-140 | setting a row by id keeps ids unique, holds the row, and keeps every other id's row |
| ApplyStore.MergeByIdFacts | src/renderer/src/stores/apply.store.ts:137-145 | merging keeps one row per id, the incoming row beating the cached one, and loses no id |
| ApplyStore.UpsertOneWins | src/renderer/src/stores/apply.store.ts:137-145 | an upserted row is the only row of its id; every other row is the cached row of its id |
| ApplyStore.FindIsFirst | src/renderer/src/stores/apply.store.ts:322-325 | `find` gives the first row with the id, or none when no row has it |
| ApplyStore.Find | src/renderer/src/stores/apply.store.ts:322-325 | a row with the id exactly when some row has it |
| ApplyStore.MarkedAreRead | src/renderer/src/stores/apply.store.ts:295-301 | after `markAsRead`'s upsert every named row is read; rows not named are untouched |
| ApplyStore.MarkedRows | src/renderer/src/stores/apply.store.ts:295-297 | every row written by `markAsRead` has a named id and is marked read |
| ApplyStore.MarkedRowsById | src/renderer/src/stores/apply.store.ts:295-297 | the written rows name exactly the named ids that are cached, each the cached row patched as read at `now` |
| ApplyStore.ActionStatus | src/renderer/src/stores/apply.store.ts:327-327 | accept records status 1, reject status 2 |
| ApplyStore.NextReason | src/renderer/src/stores/apply.store.ts:351-351 | a reason with a non-space character wins, trimmed; otherwise the stored reason |
| ApplyStore.ResendRequestFor | src/renderer/src/stores/apply.store.ts:352-356 | the resend names the cached target, the next reason unless empty, and the source `desktop_resend` |
| ApplyStore.ResentRow | src/renderer/src/stores/apply.store.ts:358-375 | the resent outbox row: pending, unread, the new id (or the old one), the new reason, stamped now; its payload keeps every other field of the sent row and overrides id, source, reason, status, read flag and creation time |
| ApplyStore.Store.constructor | src/renderer/src/stores/apply.store.ts:98-101 | empty lists, count 0, not synced |
| ApplyStore.Store.Reset | src/renderer/src/stores/apply.store.ts:103-108 | every field back to its initial value |
| ApplyStore.Store.LoadInbox | src/renderer/src/stores/apply.store.ts:110-128 | the local inbox and its unread count; no user or a failed read gives an empty inbox |
| ApplyStore.Store.UpsertInbox | src/renderer/src/stores/apply.store.ts:130-147 | cached and incoming rows merged by id, incoming winning, most recent first; the count follows |
| ApplyStore.Store.ReplaceInbox | src/renderer/src/stores/apply.store.ts:149-158 | exactly the given rows, most recent first, with their unread count |
| ApplyStore.Store.LoadSent | src/renderer/src/stores/apply.store.ts:160-172 | the local outbox; no user or a failed read gives an empty outbox |
| ApplyStore.Store.UpsertSent | src/renderer/src/stores/apply.store.ts:174-190 | cached and incoming sent rows merged by id, incoming winning, most recent first |
| ApplyStore.Store.ReplaceSent | src/renderer/src/stores/apply.store.ts:192-200 | exactly the given sent rows, most recent first |
| ApplyStore.Store.SyncUnreadCountFromServer | src/renderer/src/stores/apply.store.ts:380-396 | the server's count (0 when not a number) and synced; on failure the local count, not synced; no user gives 0 |
| ApplyStore.Store.SyncInboxFromServer | src/renderer/src/stores/apply.store.ts:202-243 | when a page arrived the inbox is exactly the pulled rows; otherwise it is reloaded locally |
| ApplyStore.Store.SyncSentFromServer | src/renderer/src/stores/apply.store.ts:245-284 | the same for the outbox |
| ApplyStore.Store.MarkAsRead | src/renderer/src/stores/apply.store.ts:286-304 | a rejected server call changes nothing; otherwise the named cached rows become read |
| ApplyStore.Store.HandleApplyAction | src/renderer/src/stores/apply.store.ts:306-334 | after the server accepts, the cached application is upserted read with the action's status |
| ApplyStore.Store.RetrySentApply | src/renderer/src/stores/apply.store.ts:336-378 | a cached sent application with a target is resent and recorded pending in the outbox |
| ApplyStore.MarkAsReadMarks | src/renderer/src/stores/apply.store.ts:286-304 | after `markAsRead` every named cached application is read and the others are as they were |
| ApplyStore.ActionRecorded | src/renderer/src/stores/apply.store.ts:306-334 | after `handleApplyAction` the inbox holds the application once, read, with the action's status |
| ApplyStore.ResendRecorded | src/renderer/src/stores/apply.store.ts:336-378 | after a resend the outbox holds the resent row, pending and unread, the only row of its id |
| ApplyStore.SyncDropsStaleRows | src/renderer/src/stores/apply.store.ts:236-240 | after a successful pull every inbox row comes from a pulled item, whatever was cached |
| ApplyStore.PartialPullReplaces | src/renderer/src/stores/apply.store.ts:213-284 | a pull of inbox or outbox that fails after page 1 replaces the list with the rows of page 1 alone |
| SessionStore.SeedConversations | src/renderer/src/stores/session.store.ts:15-52 | three demo conversations |
| SessionStore.SeedMessages | src/renderer/src/stores/session.store.ts:54-82 | two demo messages of the conversation, the first sent earlier, with different ids |
| SessionStore.NumberField | src/renderer/src/stores/session.store.ts:10-13 | a number field of a payload, or the fallback |
| SessionStore.ConversationTitle | src/renderer/src/stores/session.store.ts:244-246 | the payload's title, or the conversation id |
| SessionStore.ConversationPreview | src/renderer/src/stores/session.store.ts:248-250 | the payload's preview, or `''` |
| SessionStore.ConversationUnread | src/renderer/src/stores/session.store.ts:252-254 | the payload's unread number, or 0 when it holds none |
| SessionStore.Touch | src/renderer/src/stores/session.store.ts:221-234 | only the sent-to conversation changes: new preview and time |
| SessionStore.FindConversation | src/renderer/src/stores/session.store.ts:113-115 | the first conversation with the id, or none exactly when no conversation has it |
| SessionStore.OpenedMessages | src/renderer/src/stores/session.store.ts:163-170 | the stored page when it is not empty, otherwise the two seed messages |
| SessionStore.SortedNewestFirst | src/renderer/src/stores/session.store.ts:145-145 | sorting a conversation list puts it most recent first |
| SessionStore.SeedSorted | src/renderer/src/stores/session.store.ts:15-52 | the seed is already most recent first, so sorting leaves it as it is |
| SessionStore.ShownConversations | src/renderer/src/stores/session.store.ts:134-145 | the cached conversations sorted newest first, or the seed when there are none |
| SessionStore.Store.constructor | src/renderer/src/stores/session.store.ts:85-91 | no user, no conversations, no draft, not loading, the local store available |
| SessionStore.Store.ActiveConversation | src/renderer/src/stores/session.store.ts:113-115 | the conversation whose id is active, or none |
| SessionStore.Store.ActiveMessages | src/renderer/src/stores/session.store.ts:117-119 | the active conversation's messages, or none |
| SessionStore.Store.SafeRead | src/renderer/src/stores/session.store.ts:93-101 | the value read, or the fallback with the store marked unavailable |
| SessionStore.Store.SafeWrite | src/renderer/src/stores/session.store.ts:103-111 | a failed write marks the store unavailable |
| SessionStore.Store.OpenConversation | src/renderer/src/stores/session.store.ts:155-178 | activates the conversation, loads (or seeds) its messages and its draft |
| SessionStore.Store.LoadConversations | src/renderer/src/stores/session.store.ts:130-146 | cached or seeded conversations, newest first, the newest active; the store stays available only if the init, the read and any seed write succeed |
| SessionStore.Store.Boot | src/renderer/src/stores/session.store.ts:130-152 | loads the conversations, opens the newest (messages, draft, availability as `openConversation`), or with an empty id leaves messages and draft; stops loading |
| SessionStore.Store.Bootstrap | src/renderer/src/stores/session.store.ts:121-153 | nothing without a user or for the same loaded user; otherwise loads, sorts and opens the newest, with the draft and availability that loading and opening leave |
| SessionStore.Store.SetDraft | src/renderer/src/stores/session.store.ts:180-190 | the draft is always updated; saved only with a user and an active conversation |
| SessionStore.Store.Post | src/renderer/src/stores/session.store.ts:198-241 | records the message, updates the conversation, re-sorts, clears the draft |
| SessionStore.Store.SendMessage | src/renderer/src/stores/session.store.ts:192-242 | with a user, an active conversation and non-blank text, appends exactly one message (trimmed text); otherwise nothing |
| SessionStore.Store.ClearState | src/renderer/src/stores/session.store.ts:256-264 | every field back to its initial value |
| SessionStore.SendTouchesOnlyTarget | src/renderer/src/stores/session.store.ts:221-236 | after a send the list holds the same conversations: the target updated, the others as they were, newest first |
| SessionVault.Vault.constructor | src/main/ipc/handlers.session.ts:25-38 | the vault starts with the given session |
| SessionVault.Vault.Get | src/main/ipc/handlers.session.ts:56-60 | returns the stored session |
| SessionVault.Vault.Set | src/main/ipc/handlers.session.ts:40-43 | stores the given session |
| SessionVault.Vault.Clear | src/main/ipc/handlers.session.ts:45-53 | empties the vault |
| AuthStore.DemoSession | src/renderer/src/stores/auth.store.ts:5-13 | tokens derived from the user id, valid an hour from now, for the given device |
| AuthStore.UserOf | src/renderer/src/stores/auth.store.ts:20-20 | the session's user, or `''` |
| AuthStore.IsAuthenticated | src/renderer/src/stores/auth.store.ts:19-19 | authenticated exactly when a session with a non-empty access token is held |
| AuthStore.DemoUserFor | src/renderer/src/stores/auth.store.ts:43-43 | the trimmed input, or `demo-user` when blank |
| AuthStore.DemoSignInAuthenticates | src/renderer/src/stores/auth.store.ts:41-45 | a demo sign-in always yields an authenticated session for a non-empty user |
| AuthStore.Store.constructor | src/renderer/src/stores/auth.store.ts:16-17 | no session, not hydrated |
| AuthStore.Store.HydrateSession | src/renderer/src/stores/auth.store.ts:22-29 | the first call copies the vault's session; later calls change nothing |
| AuthStore.Store.SignIn | src/renderer/src/stores/auth.store.ts:31-39 | the session is set and persisted; a failing local-store init is caught and plays no part |
| AuthStore.Store.SignInWithDemoAccount | src/renderer/src/stores/auth.store.ts:41-45 | signs in the demo session of the normalised user |
| AuthStore.Store.SignOut | src/renderer/src/stores/auth.store.ts:47-50 | no session in memory or in the vault |
| FriendStore.LoadedFriends | src/renderer/src/stores/friend.store.ts:9-21 | the stored rows, or nothing without a user or when the read fails |
| FriendStore.Store.constructor | src/renderer/src/stores/friend.store.ts:6-7 | no friends, version 0 |
| FriendStore.Store.LoadFriends | src/renderer/src/stores/friend.store.ts:9-21 | the list becomes `LoadedFriends`; the store is read only with a user |
| FriendStore.Store.ReplaceAll | src/renderer/src/stores/friend.store.ts:23-31 | the list becomes the items and the version the latest; the write's outcome plays no part |
| FriendStore.Store.ApplyChanges | src/renderer/src/stores/friend.store.ts:33-45 | after handing over the changes the list is reloaded, and the version set; only the reload's reply decides the list |
| BlacklistStore.LoadedBlacklist | src/renderer/src/stores/blacklist.store.ts:8-20 | the stored rows, or nothing without a user or when the read fails |
| BlacklistStore.Store.constructor | src/renderer/src/stores/blacklist.store.ts:6-6 | an empty list |
| BlacklistStore.Store.Load | src/renderer/src/stores/blacklist.store.ts:8-20 | the list becomes `LoadedBlacklist`; the store is read only with a user |
| BlacklistStore.Store.ReplaceAll | src/renderer/src/stores/blacklist.store.ts:22-29 | the list becomes the given one; the write's outcome plays no part |
| UserStore.LoadedProfile | src/renderer/src/stores/user.store.ts:8-20 | the stored profile, or none without a user or when the read fails |
| UserStore.Store.constructor | src/renderer/src/stores/user.store.ts:6-6 | no profile |
| UserStore.Store.LoadProfile | src/renderer/src/stores/user.store.ts:8-20 | the profile becomes `LoadedProfile`; the store is read only with a user |
| UserStore.Store.SaveProfile | src/renderer/src/stores/user.store.ts:22-35 | the profile becomes the given payload stamped now; the write's outcome plays no part |
| SessionRefresh.NonNegative | src/renderer/src/shared/http/session-refresh.ts:45-45 | `Math.max(0, n)`: `n` when it is not negative, else 0 |
| SessionRefresh.NextSession | src/renderer/src/shared/http/session-refresh.ts:42-46 | the stored session with the new token, expiring `max(0, expiresIn)` seconds from now |
| SessionRefresh.RefreshSessionToken | src/renderer/src/shared/http/session-refresh.ts:16-50 | `null` without a post when there is no refresh token or user; a rejected post or refused reply throws and leaves the vault; otherwise the next session is stored and returned |
| SessionRefresh.RefreshedStaysRefreshable | src/renderer/src/shared/http/session-refresh.ts:42-48 | a refreshed session can be refreshed again and carries its access token; only token and expiry change |
| Interceptor.UnwrapBusinessCode | src/renderer/src/shared/http/interceptor.ts:49-66 | a non-zero numeric code becomes a business error with that code, message (default text) and trace id; anything else resolves |
| Interceptor.IsAuthFreeEndpoint | src/renderer/src/shared/http/interceptor.ts:75-85 | an endpoint is auth-free exactly when its url contains the login or refresh-token path |
| Interceptor.CanRetry | src/renderer/src/shared/http/interceptor.ts:87-102 | a config can be retried exactly when it exists, was not retried, and its url names neither the login nor the refresh-token path |
| Interceptor.IsTokenBusinessError | src/renderer/src/shared/http/interceptor.ts:104-111 | a business error with code 20002 or 20003, both login-status codes |
| Interceptor.AttachHeaders | src/renderer/src/shared/http/interceptor.ts:25-47 | sets the device id; JSON content type unless form data (then removed); the bearer token when the vault has one; other headers kept |
| Interceptor.RefreshCoordinator.constructor | src/renderer/src/shared/http/interceptor.ts:73-73 | no refresh pending |
| Interceptor.RefreshCoordinator.Begin | src/renderer/src/shared/http/interceptor.ts:113-118 | joins the pending refresh or starts one; a stored session results exactly when the session was refreshable; a failed refresh leaves the stored session |
| Interceptor.RefreshCoordinator.Settle | src/renderer/src/shared/http/interceptor.ts:115-117 | the pending slot is cleared |
| Interceptor.RefreshCoordinator.RefreshSessionOnce | src/renderer/src/shared/http/interceptor.ts:113-121 | the pending refresh's result or a new one's; the slot is empty afterwards; a failed refresh leaves the stored session |
| Interceptor.RetryWithFreshToken | src/renderer/src/shared/http/interceptor.ts:123-138 | marks the config retried; a thrown refresh rejects and leaves the stored session, no token clears the session and rejects as expired, otherwise resends with the new bearer token |
| Interceptor.NormalizeTransportError | src/renderer/src/shared/http/interceptor.ts:140-157 | token errors and HTTP 401 on a retryable config are retried once, a rejected refresh leaving the session; every other error rejects unchanged, touching nothing |
| Interceptor.InstalledResponse | src/renderer/src/shared/http/interceptor.ts:159-164 | a reply goes through `unwrapBusinessCode` alone: a token error code rejects with the business error, with no refresh and the session untouched; only a transport failure reaches `normalizeTransportError`, and only an HTTP 401 on a retryable config is refreshed and retried |
| PresenceStore.ToPresenceStatus | src/renderer/src/stores/presence.store.ts:21-29 | a missing flag is offline, a missing time `''`, missing platforms `[]` |
| PresenceStore.Cleaned | src/renderer/src/stores/presence.store.ts:17-19 | exactly the trimmed non-empty entries, none longer than the input; one entry gives its trimmed self or nothing |
| PresenceStore.CleanedConcat | src/renderer/src/stores/presence.store.ts:17-19 | cleaning a concatenation cleans each part in turn, so every entry keeps its place and multiplicity |
| PresenceStore.NormalizeUuidList | src/renderer/src/stores/presence.store.ts:17-19 | trimmed non-empty entries, each once, in first-occurrence order |
| PresenceStore.NormalizeKeepsNormal | src/renderer/src/stores/presence.store.ts:17-19 | an already normal list is kept as it is |
| PresenceStore.ChunkedShape | src/renderer/src/stores/presence.store.ts:31-37 | the chunks concatenate to the input; none empty, all but the last full |
| PresenceStore.SplitChunks | src/renderer/src/stores/presence.store.ts:31-37 | the loop cuts exactly the chunks `Chunked` describes |
| PresenceStore.StatusesOf | src/renderer/src/stores/presence.store.ts:89-94 | a failed request gives no status; a reply gives one status per returned user, in order |
| PresenceStore.DeliveredConcat | src/renderer/src/stores/presence.store.ts:86-97 | delivering `a + b` is delivering `a`, then `b` |
| PresenceStore.FailedChunkSkipped | src/renderer/src/stores/presence.store.ts:86-97 | a failed chunk delivers nothing and does not stop the others |
| PresenceStore.BatchRequests | src/renderer/src/stores/presence.store.ts:80-98 | every normalised uuid is requested in exactly one request, in order, at most 100 per request |
| PresenceStore.Store.constructor | src/renderer/src/stores/presence.store.ts:40-40 | no statuses |
| PresenceStore.Store.Reset | src/renderer/src/stores/presence.store.ts:42-44 | no statuses |
| PresenceStore.Store.GetStatus | src/renderer/src/stores/presence.store.ts:46-52 | the status under the trimmed uuid; none for a blank or unknown uuid |
| PresenceStore.Store.UpsertStatuses | src/renderer/src/stores/presence.store.ts:54-64 | the last item for each uuid wins; every other entry is kept |
| PresenceStore.Store.SyncSingle | src/renderer/src/stores/presence.store.ts:66-78 | requests the trimmed uuid unless blank; an arriving status is upserted; a failure changes nothing |
| PresenceStore.Store.SyncBatch | src/renderer/src/stores/presence.store.ts:80-98 | requests the normalised uuids in chunks of 100, all chunks; the delivered statuses are upserted in order |
| PresenceStore.Store.SyncChunks | src/renderer/src/stores/presence.store.ts:86-97 | one request per chunk, failures skipped, the statuses upserted in order |
| ErrorText.NormalizeErrorMessage | src/renderer/src/shared/utils/error.ts:1-11 | an `Error`'s message, a string as it is, a fixed text otherwise |
| ErrorText.ResolveAuthStatusMessage | src/renderer/src/modules/contact/error-message.ts:83-88 | a text exactly for codes 20001–20003 |
| ErrorText.ResolveByTable | src/renderer/src/modules/contact/error-message.ts:90-105 | the login-status text first, then the action's text for the code, then the thrown value's message |
| ContactErrors.ResolveRelationErrorMessage | src/renderer/src/modules/contact/error-message.ts:90-105 | the cascade with the relation table of the action |
| ContactErrors.TableAvoidsLoginCodes | src/renderer/src/modules/contact/error-message.ts:31-81 | no relation table holds a login-status code or an empty text |
| ContactErrors.NotInBlacklistOnlyOnRemove | src/renderer/src/modules/contact/error-message.ts:31-81 | 16004 has a text only when removing from the blacklist |
| ContactErrors.RelationExamples | src/renderer/src/modules/contact/error-message.spec.ts:4-26 | the four cases the tests state: 12003, 16003, 20002 and an error without a code |
| AuthErrors.ResolveAuthErrorMessage | src/renderer/src/modules/auth/error-message.ts:88-103 | the cascade with the auth table of the action |
| AuthErrors.TableAvoidsLoginCodes | src/renderer/src/modules/auth/error-message.ts:31-79 | no auth table holds a login-status code or an empty text |
| AuthErrors.AuthExamples | src/renderer/src/modules/auth/error-message.spec.ts:10-28 | the three cases the tests state: 11028, 11007 and an error without a code |
| SecurityErrors.ResolveSecurityErrorMessage | src/renderer/src/modules/security/error-message.ts:63-78 | the cascade with the security table of the action |
| SecurityErrors.TableAvoidsLoginCodes | src/renderer/src/modules/security/error-message.ts:25-54 | no security table holds a login-status code or an empty text |
| SecurityErrors.SecurityExamples | src/renderer/src/modules/security/error-message.spec.ts:4-30 | the cases the tests state, including `isSendTooFrequentError` for 11028 and for an error without a code |
| SecurityErrors.IsSendTooFrequentError | src/renderer/src/modules/security/error-message.ts:80-82 | true exactly for code 11028, whose text, while sending an email code, is the too-frequent text whatever the error |
| FriendGrouping.NormalizeTagName | src/renderer/src/modules/contact/utils/friend-grouping.ts:14-17 | a tag name is never empty |
| FriendGrouping.NormalizeTagNameCases | src/renderer/src/modules/contact/utils/friend-grouping.ts:14-17 | a non-blank tag gives its trimmed value, a missing or blank one `未分组` |
| FriendGrouping.NormalizeTagNameIdempotent | src/renderer/src/modules/contact/utils/friend-grouping.ts:14-17 | normalising a normalised name changes nothing |
| FriendGrouping.GroupKey | src/renderer/src/modules/contact/utils/friend-grouping.ts:49-49 | `ungrouped` exactly for `未分组`, otherwise `tag:<name>` |
| FriendGrouping.GroupKeyInjective | src/renderer/src/modules/contact/utils/friend-grouping.ts:49-49 | different names get different keys |
| FriendGrouping.FirstPositions | src/renderer/src/modules/contact/utils/friend-grouping.ts:31-37 | every tag of the preferred order with its first position |
| FriendGrouping.BuildOrderMap | src/renderer/src/modules/contact/utils/friend-grouping.ts:31-37 | the loop builds exactly `TagOrder` |
| FriendGrouping.MembersCount | src/renderer/src/modules/contact/utils/friend-grouping.ts:39-45 | a bucket holds exactly the friends with its tag, each as often as listed |
| FriendGrouping.BucketIndex | src/renderer/src/modules/contact/utils/friend-grouping.ts:42-42 | the bucket of a tag, or none when no bucket has it |
| FriendGrouping.BucketsNext | src/renderer/src/modules/contact/utils/friend-grouping.ts:40-45 | one more friend grows its tag's bucket, or adds a bucket at the end |
| FriendGrouping.GroupByTag | src/renderer/src/modules/contact/utils/friend-grouping.ts:39-45 | the loop builds exactly `Buckets`: one bucket per tag in order of first appearance |
| FriendGrouping.UnsortedGroups | src/renderer/src/modules/contact/utils/friend-grouping.ts:47-53 | before sorting, the group names are the tags without repeats, in order of first appearance |
| FriendGrouping.ToGroups | src/renderer/src/modules/contact/utils/friend-grouping.ts:47-53 | one group per bucket, in order |
| FriendGrouping.BuildFriendGroups | src/renderer/src/modules/contact/utils/friend-grouping.ts:23-72 | the method yields `FriendGroups`; an empty list gives no groups |
| FriendGrouping.FriendGroupsPartition | src/renderer/src/modules/contact/utils/friend-grouping.ts:39-53 | groups have distinct names, one per tag that occurs; each keyed by its name, holding exactly its tag's friends, counted |
| FriendGrouping.FriendGroups | src/renderer/src/modules/contact/utils/friend-grouping.ts:23-72 | one group per distinct tag; none exactly for no friends |
| FriendGrouping.FriendInItsGroup | src/renderer/src/modules/contact/utils/friend-grouping.ts:39-45 | every friend is in the group of its tag |
| FriendGrouping.FriendGroupsItemsSorted | src/renderer/src/modules/contact/utils/friend-grouping.ts:19-21 | under a collation every group's friends are ordered by title |
| FriendGrouping.GroupPreorderIsPreorder | src/renderer/src/modules/contact/utils/friend-grouping.ts:54-71 | the group order, made total, is a total preorder under a collation |
| FriendGrouping.FriendGroupsOrdered | src/renderer/src/modules/contact/utils/friend-grouping.ts:54-71 | every group may stay in front of every later one under the source's comparator |
| FriendGrouping.PreferredTagsFirst | src/renderer/src/modules/contact/utils/friend-grouping.ts:54-71 | listed tags come first, in preferred order; unlisted after; an unlisted `未分组` is last |
| QrCode.SafeDecode | src/renderer/src/shared/utils/qrcode.ts:1-7 | the decoded text, or the input when decoding throws |
| QrCode.SegmentLength | src/renderer/src/shared/utils/qrcode.ts:17-17 | the run of `[^/?#]` characters from a position |
| QrCode.PathToken | src/renderer/src/shared/utils/qrcode.ts:17-18 | the leftmost match of `/\/q\/([^/?#]+)/i`: the first `/q/` (any case) followed by a segment character, and the longest run after it |
| QrCode.PathTokenShape | src/renderer/src/shared/utils/qrcode.ts:17-18 | a matched token is non-empty and holds no `/`, `?` or `#` |
| QrCode.ExtractQRCodeToken | src/renderer/src/shared/utils/qrcode.ts:9-40 | the token never starts or ends with white space; blank input gives `''` |
| QrCode.RawToken | src/renderer/src/shared/utils/qrcode.ts:30-39 | text that is no link, has no `/q/` segment and no `qrcode:` prefix is returned trimmed |
| QrCode.UndecodableSegment | src/renderer/src/shared/utils/qrcode.ts:1-7 | a `/q/` segment that cannot be decoded is returned raw, trimmed |
| QrCode.LinkPathToken | src/renderer/src/shared/utils/qrcode.ts:15-20 | a link whose path is `/q/<segment>` gives the decoded segment, trimmed |
| QrCode.LinkQueryToken | src/renderer/src/shared/utils/qrcode.ts:22-25 | a link without `/q/` but with a non-empty `token` gives it, trimmed |
| QrCode.SchemeToken | src/renderer/src/shared/utils/qrcode.ts:35-37 | `qrcode:` in any case gives the rest, trimmed |
| QrCode.SchemeExample | src/renderer/src/shared/utils/qrcode.ts:35-37 | `qrcode: token_1` gives `token_1` |
| DeviceInfo.MacTestsSubsumed | src/renderer/src/modules/auth/device-info.ts:8-8 | the three Mac tests together are the `mac` test alone |
| DeviceInfo.DetectPlatform | src/renderer/src/modules/auth/device-info.ts:3-15 | Windows, then macOS, then Linux by substring of the lower-cased text; else the raw platform or `Unknown`; never empty |
| DeviceInfo.SafeTrim | src/renderer/src/modules/auth/device-info.ts:17-23 | the fallback for blank input; otherwise a prefix of the trimmed value of at most `maxLength` characters, all of it when it fits |
| DeviceInfo.DeviceNameNeverBlank | src/renderer/src/modules/auth/device-info.ts:31-31 | the device name is never blank, so its fallback is unreachable |
| DeviceInfo.BuildLoginDeviceInfo | src/renderer/src/modules/auth/device-info.ts:25-35 | name ≤ 64, platform ≤ 32, OS version ≤ 128, app version ≤ 32, none empty; a trimmed id of ≤ 57 characters gives `LCchat-<id>` |
| DeviceInfo.DeviceTestName | src/renderer/src/modules/auth/device-info.ts:31-31 | device `device-test` is named `LCchat-device-test` |
| JsString.TrimShape | src/renderer/src/modules/auth/device-info.ts:18-18 | `trim()` cuts only white space off the ends and leaves none at either end |
| JsString.Trim | src/renderer/src/stores/presence.store.ts:18-18 | `trim()` never lengthens its input |
| JsString.TrimEmptyIffBlank | src/renderer/src/modules/auth/device-info.ts:18-19 | the trimmed text is empty exactly when the text is blank |
| JsString.TrimIdempotent | src/renderer/src/shared/utils/qrcode.ts:10-10 | trimming twice is trimming once |
| JsString.Lower | src/renderer/src/modules/auth/device-info.ts:4-4 | `toLowerCase()`: the same length, each ASCII capital lowered, every other character kept |
| JsString.Prefix | src/renderer/src/modules/auth/device-info.ts:22-22 | `slice(0, n)`: a prefix of at most `n` characters, the whole text when it fits |
| DeviceInfo.SafeTrimFits | src/renderer/src/modules/auth/device-info.ts:17-23 | with a fallback that fits, the field is never empty and fits |
| DeviceInfo.DeviceName | src/renderer/src/modules/auth/device-info.ts:31-31 | a trimmed id of up to 57 characters gives the device name `LCchat-<id>` |

## Left out

- I/O and process plumbing are not modelled: SQLite, Electron IPC
  registration, session-file reads and writes, logging and the `console`
  warnings. The tables are maps, and a handler is a method of
  `LocalDB.Store`. The renderer sees each bridge call only as a reply
  passed in.
- Schema migrations and the database file's location (`src/main/db/*`) are
  not part of this model.
- `SessionVault.Vault`: reading the session file can fail or hold invalid
  JSON. The model starts the cell from the value that load produced; a
  failed file write is not modelled.
- `now()` is one parameter per call. Where the source reads the clock
  several times in one handler, the model uses one value.
- The HTTP API wrappers (`modules/*/api.ts`, `shared/http/client.ts`) are
  not part of this model. Their results are inputs, and so is the business
  code `extractBizCode` finds on a thrown value.
- `Paging`: the pulled pages are requested by page number alone. The
  fixed request parameters (`status: -1`, `pageSize: 100`) are part of the
  server function given as input.
- JavaScript numbers are integers. The exception is the page size and
  cursor of `getMessages`, which are reals or not finite
  (`Rows.JsNumber`). Non-integral timestamps, ids and versions, and `NaN`
  codes, are not modelled.
- `Number.MAX_SAFE_INTEGER` as "not in the preferred order" is modelled as
  an absent rank (`FriendGrouping.Rank`).
- `localeCompare`, `new URL`, `decodeURIComponent`, `randomUUID` and
  `navigator` are parameters. Collation is assumed total and transitive
  only where a lemma says so (`FriendGrouping.Collation`).
- `toLowerCase` is modelled for ASCII letters only. String lengths and
  `slice` count characters, not UTF-16 code units.
- JSON text is the abstract pair `JSON.stringify` / `JSON.parse`, with
  parsing failures and non-object values as distinct cases. The concrete
  syntax is not modelled.
- `Interceptor.RefreshCoordinator`: concurrency is not modelled. Callers
  that overlap with a pending refresh are modelled as joining it before it
  settles, which is the only interleaving the single-flight slot allows.
  Promise scheduling is not modelled.
- `Interceptor.IsAuthFreeEndpoint`: the `login-by-code` test is not a
  separate case in its contract. Any url containing it also contains the
  login path, so the contract states the two-test form.
- `PresenceStore.SplitChunks` requires a positive chunk size. The source
  would loop forever on 0, and its only caller passes 100.
- `FriendGrouping`: the group field `label` is named `name`, because
  `label` is a keyword of the language.
- `SessionStore.SeedConversations` states only the count. That the seed is
  newest first is `SessionStore.SeedSorted`; the seed's texts and colours
  are constants.
- `DeviceInfo`: the `LCchat-Unknown` fallback is never produced
  (`DeviceInfo.DeviceNameNeverBlank`), so no lemma is about it.
- The date and presence formatting helpers (`shared/utils/time.ts`,
  `shared/utils/presence.ts`) are not part of this model. They rest on
  `Date` parsing and locale formatting.
- UI components, router guards and the device-id memoisers are not part
  of this model.
- `shared/utils/error.spec.ts` imports `extractBizCode` and
  `extractTraceId` from `error.ts`, and expects a payload's `message` to
  be preferred by `normalizeErrorMessage`. The `error.ts` modelled here
  defines neither function and has no such branch.
  `ErrorText.NormalizeErrorMessage` follows `error.ts` as it stands, and
  the business code is an input.
