/** The presence cache (`src/renderer/src/stores/presence.store.ts`): a map
    from user uuid to online status, filled one user at a time or in batches
    of 100 normalised uuids.  The status requests are inputs: the server's
    reply, or a rejected request. */
module PresenceStore {
  import opened Wrappers
  import opened JsString
  import opened Keyed
  import opened Distinct

  const BatchSize := 100

  datatype PresenceStatus = PresenceStatus(userUuid: string, isOnline: bool, lastSeenAt: string,
                                           onlinePlatforms: seq<string>)

  /** A status item as the server sends it: `isOnline`, `lastSeenAt` and an
      array `onlinePlatforms` may each be missing. */
  datatype OnlineStatusItem = OnlineStatusItem(userUuid: string, isOnline: Option<bool>,
                                               lastSeenAt: Option<string>,
                                               onlinePlatforms: Option<seq<string>>)

  /** `toPresenceStatus`: a missing flag is offline, a missing or empty
      `lastSeenAt` is `""` and missing platforms are `[]`. */
  function ToPresenceStatus(item: OnlineStatusItem): (r: PresenceStatus)
    ensures r.userUuid == item.userUuid
    ensures r.isOnline <==> item.isOnline == Some(true)
    ensures r.lastSeenAt == (if item.lastSeenAt.Some? then item.lastSeenAt.value else "")
    ensures r.onlinePlatforms == (if item.onlinePlatforms.Some? then item.onlinePlatforms.value else [])
  {
    PresenceStatus(item.userUuid, item.isOnline.GetOr(false), item.lastSeenAt.GetOr(""),
                   item.onlinePlatforms.GetOr([]))
  }

  function StatusKey(s: PresenceStatus): string { s.userUuid }
  function Self(s: PresenceStatus): PresenceStatus { s }

  /** The trimmed entries that are not empty, in order
      (`map(trim).filter(Boolean)`); `CleanedConcat` and the one-entry case
      below fix the order and the multiplicity. */
  function Cleaned(xs: seq<string>): (r: seq<string>)
    ensures |r| <= |xs|
    ensures forall i :: 0 <= i < |r| ==> r[i] != ""
    ensures forall u :: u in r <==> u != "" && exists i :: 0 <= i < |xs| && Trim(xs[i]) == u
    ensures |xs| == 1 ==> r == if Trim(xs[0]) == "" then [] else [Trim(xs[0])]
  {
    if xs == [] then []
    else
      var init := xs[..|xs| - 1];
      var t := Trim(xs[|xs| - 1]);
      assert forall i :: 0 <= i < |init| ==> init[i] == xs[i];
      Cleaned(init) + (if t == "" then [] else [t])
  }

  /** Cleaning a concatenation cleans each part in turn: every entry keeps
      its place and its multiplicity. */
  lemma {:induction false} CleanedConcat(a: seq<string>, b: seq<string>)
    ensures Cleaned(a + b) == Cleaned(a) + Cleaned(b)
  {
    if b == [] {
      assert a + b == a;
    } else {
      var init := b[..|b| - 1];
      assert (a + b)[..|a + b| - 1] == a + init;
      assert (a + b)[|a + b| - 1] == b[|b| - 1];
      CleanedConcat(a, init);
    }
  }

  /** `normalizeUuidList`: the trimmed, non-empty entries, each once, in
      the order they first appear. */
  function NormalizeUuidList(userUuids: seq<string>): (r: seq<string>)
    ensures NoDuplicates(r)
    ensures forall u :: u in r <==> u != "" && exists i :: 0 <= i < |userUuids| && Trim(userUuids[i]) == u
    ensures forall u :: u in r <==> u in Cleaned(userUuids)
    ensures forall i, j :: 0 <= i < j < |r| ==> FirstIndex(Cleaned(userUuids), r[i]) < FirstIndex(Cleaned(userUuids), r[j])
  {
    var cleaned := Cleaned(userUuids);
    var r := Dedupe(cleaned);
    assert forall u :: u in r <==> u in cleaned;
    r
  }

  /** A list that is already normal (distinct, trimmed, non-blank entries)
      is kept as it is. */
  lemma NormalizeKeepsNormal(userUuids: seq<string>)
    requires NoDuplicates(userUuids)
    requires forall i :: 0 <= i < |userUuids| ==> userUuids[i] != "" && Trim(userUuids[i]) == userUuids[i]
    ensures NormalizeUuidList(userUuids) == userUuids
  {
    CleanedKeepsTrimmed(userUuids);
    DedupeKeepsDistinct(userUuids);
  }

  lemma {:induction false} CleanedKeepsTrimmed(xs: seq<string>)
    requires forall i :: 0 <= i < |xs| ==> xs[i] != "" && Trim(xs[i]) == xs[i]
    ensures Cleaned(xs) == xs
  {
    if xs != [] {
      CleanedKeepsTrimmed(xs[..|xs| - 1]);
      assert xs[..|xs| - 1] + [xs[|xs| - 1]] == xs;
    }
  }

  /** The chunks `splitChunks` cuts: `size` items each, the last one
      possibly shorter. */
  function Chunked<T>(items: seq<T>, size: nat): seq<seq<T>>
    requires size > 0
    decreases |items|
  {
    if items == [] then []
    else if |items| <= size then [items]
    else [items[..size]] + Chunked(items[size..], size)
  }

  function Concat<T>(chunks: seq<seq<T>>): seq<T> {
    if chunks == [] then [] else chunks[0] + Concat(chunks[1..])
  }

  lemma {:induction false} ConcatAppend<T>(a: seq<seq<T>>, b: seq<seq<T>>)
    ensures Concat(a + b) == Concat(a) + Concat(b)
  {
    if a == [] {
      assert a + b == b;
    } else {
      assert (a + b)[0] == a[0];
      assert (a + b)[1..] == a[1..] + b;
      ConcatAppend(a[1..], b);
      assert Concat(a + b) == a[0] + (Concat(a[1..]) + Concat(b));
    }
  }

  /** The chunks put back together are the input; none is empty, all are
      full but the last. */
  lemma {:induction false} ChunkedShape<T>(items: seq<T>, size: nat)
    requires size > 0
    ensures var c := Chunked(items, size);
            && Concat(c) == items
            && (forall i :: 0 <= i < |c| ==> 0 < |c[i]| <= size)
            && (forall i :: 0 <= i < |c| - 1 ==> |c[i]| == size)
    decreases |items|
  {
    var c := Chunked(items, size);
    if items != [] && |items| > size {
      var head, tail := items[..size], items[size..];
      var rest := Chunked(tail, size);
      ChunkedShape(tail, size);
      assert c == [head] + rest;
      assert c[0] == head && c[1..] == rest;
      assert Concat(c) == head + Concat(rest);
      assert head + tail == items;
      forall i | 1 <= i < |c| ensures c[i] == rest[i - 1] { }
    } else if items != [] {
      assert c == [items] && c[1..] == [];
    }
  }

  /** `splitChunks` for a positive chunk size. */
  method SplitChunks<T>(items: seq<T>, chunkSize: nat) returns (chunks: seq<seq<T>>)
    requires chunkSize > 0
    ensures chunks == Chunked(items, chunkSize)
  {
    chunks := [];
    var i := 0;
    while i < |items|
      invariant i < |items| ==> chunks + Chunked(items[i..], chunkSize) == Chunked(items, chunkSize)
      invariant i >= |items| ==> chunks == Chunked(items, chunkSize)
      decreases |items| - i
    {
      var end := if i + chunkSize < |items| then i + chunkSize else |items|;
      if i + chunkSize < |items| {
        assert items[i..][..chunkSize] == items[i..end];
        assert items[i..][chunkSize..] == items[i + chunkSize..];
      } else {
        assert items[i..] == items[i..end];
      }
      chunks := chunks + [items[i..end]];
      i := i + chunkSize;
    }
  }

  /** The statuses a batch sync delivers: those of each chunk whose request
      succeeded (`users`, or none when missing), chunk after chunk. */
  function Delivered(chunks: seq<seq<string>>, fetch: seq<string> -> Reply<Option<seq<OnlineStatusItem>>>)
    : seq<PresenceStatus>
  {
    if chunks == [] then []
    else StatusesOf(fetch(chunks[0])) + Delivered(chunks[1..], fetch)
  }

  function StatusesOf(reply: Reply<Option<seq<OnlineStatusItem>>>): (r: seq<PresenceStatus>)
    ensures reply.Failed? ==> r == []
    ensures reply.Ok? ==> |r| == |reply.value.GetOr([])|
                          && forall i :: 0 <= i < |r| ==> r[i] == ToPresenceStatus(reply.value.GetOr([])[i])
  {
    match reply
    case Failed => []
    case Ok(users) =>
      var items := users.GetOr([]);
      seq(|items|, i requires 0 <= i < |items| => ToPresenceStatus(items[i]))
  }

  /** Delivering `a + b` is delivering `a`, then `b`. */
  lemma {:induction false} DeliveredConcat(a: seq<seq<string>>, b: seq<seq<string>>,
                                           fetch: seq<string> -> Reply<Option<seq<OnlineStatusItem>>>)
    ensures Delivered(a + b, fetch) == Delivered(a, fetch) + Delivered(b, fetch)
  {
    if a == [] {
      assert a + b == b;
    } else {
      assert (a + b)[0] == a[0];
      assert (a + b)[1..] == a[1..] + b;
      DeliveredConcat(a[1..], b, fetch);
    }
  }

  /** A failed chunk delivers nothing and stops nothing: the chunks before
      and after it are delivered as if it were not there. */
  lemma {:induction false} FailedChunkSkipped(chunks: seq<seq<string>>,
                                              fetch: seq<string> -> Reply<Option<seq<OnlineStatusItem>>>, i: nat)
    requires i < |chunks| && fetch(chunks[i]).Failed?
    ensures Delivered(chunks, fetch) == Delivered(chunks[..i], fetch) + Delivered(chunks[i + 1..], fetch)
  {
    if i > 0 {
      FailedChunkSkipped(chunks[1..], fetch, i - 1);
      assert chunks[1..][..i - 1] == chunks[..i][1..];
      assert chunks[1..][i..] == chunks[i + 1..];
    }
  }

  /** Every normalised uuid is requested in exactly one batch request, in
      order, and no request asks for more than 100 uuids. */
  lemma BatchRequests(userUuids: seq<string>)
    ensures var requests := Chunked(NormalizeUuidList(userUuids), BatchSize);
            && Concat(requests) == NormalizeUuidList(userUuids)
            && (forall i :: 0 <= i < |requests| ==> 0 < |requests[i]| <= BatchSize)
            && (forall i :: 0 <= i < |requests| - 1 ==> |requests[i]| == BatchSize)
  {
    ChunkedShape(NormalizeUuidList(userUuids), BatchSize);
  }

  /** The presence store: the status of each user, by uuid. */
  class Store {
    var statusByUserUuid: map<string, PresenceStatus>

    constructor()
      ensures statusByUserUuid == map[]
    {
      statusByUserUuid := map[];
    }

    /** `reset`. */
    method Reset()
      modifies this
      ensures statusByUserUuid == map[]
    {
      statusByUserUuid := map[];
    }

    /** `getStatus`: the status stored under the trimmed uuid; none for a
        blank uuid or an unknown one. */
    function GetStatus(userUuid: string): (r: Option<PresenceStatus>)
      reads this
      ensures r.Some? <==> !AllSpace(userUuid) && Trim(userUuid) in statusByUserUuid
      ensures r.Some? ==> r.value == statusByUserUuid[Trim(userUuid)]
    {
      TrimEmptyIffBlank(userUuid);
      var normalized := Trim(userUuid);
      if normalized == "" then None
      else if normalized in statusByUserUuid then Some(statusByUserUuid[normalized])
      else None
    }

    /** `upsertStatuses`: the last item for each uuid wins, every other
        entry is kept; an empty list changes nothing. */
    method UpsertStatuses(items: seq<PresenceStatus>)
      modifies this
      ensures statusByUserUuid == PutAll(old(statusByUserUuid), items, StatusKey, Self)
      ensures forall k :: LastIndex(items, StatusKey, k) >= 0 ==>
                k in statusByUserUuid && statusByUserUuid[k] == items[LastIndex(items, StatusKey, k)]
      ensures forall k :: LastIndex(items, StatusKey, k) < 0 ==>
                (k in statusByUserUuid <==> k in old(statusByUserUuid))
                && (k in statusByUserUuid ==> statusByUserUuid[k] == old(statusByUserUuid)[k])
    {
      if |items| == 0 {
        return;
      }
      var next := PutEach(statusByUserUuid, items, StatusKey, Self);
      forall k {
        PutAllAt(statusByUserUuid, items, StatusKey, Self, k);
      }
      statusByUserUuid := next;
    }

    /** `syncSingle`: the trimmed uuid is requested unless it is blank (then
        `requested` is none), and a status that arrives is upserted under
        the uuid it carries; a failed request changes nothing. */
    method SyncSingle(userUuid: string, fetch: string -> Reply<OnlineStatusItem>)
      returns (requested: Option<string>)
      modifies this
      ensures requested.None? <==> AllSpace(userUuid)
      ensures requested.Some? ==> requested.value == Trim(userUuid)
      ensures requested.Some? && fetch(requested.value).Ok? ==>
                var status := ToPresenceStatus(fetch(requested.value).value);
                statusByUserUuid == old(statusByUserUuid)[status.userUuid := status]
      ensures requested.None? || fetch(requested.value).Failed? ==> statusByUserUuid == old(statusByUserUuid)
    {
      TrimEmptyIffBlank(userUuid);
      var normalized := Trim(userUuid);
      if normalized == "" {
        return None;
      }
      requested := Some(normalized);
      var response := fetch(normalized);
      if response.Ok? {
        UpsertStatuses([ToPresenceStatus(response.value)]);
      }
    }

    /** `syncBatch`: the normalised uuids are requested in chunks of 100, in
        order, every chunk whatever happened to the ones before; the
        statuses delivered are upserted in that order. */
    method SyncBatch(userUuids: seq<string>, fetch: seq<string> -> Reply<Option<seq<OnlineStatusItem>>>)
      returns (requested: seq<seq<string>>)
      modifies this
      ensures requested == Chunked(NormalizeUuidList(userUuids), BatchSize)
      ensures statusByUserUuid == PutAll(old(statusByUserUuid), Delivered(requested, fetch), StatusKey, Self)
    {
      var normalized := NormalizeUuidList(userUuids);
      if |normalized| == 0 {
        return [];
      }
      requested := SplitChunks(normalized, BatchSize);
      SyncChunks(requested, fetch);
    }

    /** The loop of `syncBatch`: one request per chunk, a failure caught and
        the next chunk requested. */
    method SyncChunks(chunks: seq<seq<string>>, fetch: seq<string> -> Reply<Option<seq<OnlineStatusItem>>>)
      modifies this
      ensures statusByUserUuid == PutAll(old(statusByUserUuid), Delivered(chunks, fetch), StatusKey, Self)
    {
      var i := 0;
      while i < |chunks|
        invariant 0 <= i <= |chunks|
        invariant statusByUserUuid == PutAll(old(statusByUserUuid), Delivered(chunks[..i], fetch), StatusKey, Self)
      {
        var response := fetch(chunks[i]);
        var statuses := StatusesOf(response);
        DeliveredNext(chunks, i, fetch);
        PutAllConcat(old(statusByUserUuid), Delivered(chunks[..i], fetch), statuses, StatusKey, Self);
        UpsertStatuses(statuses);
        i := i + 1;
      }
      assert chunks[..i] == chunks;
    }
  }

  lemma DeliveredNext(chunks: seq<seq<string>>, i: nat, fetch: seq<string> -> Reply<Option<seq<OnlineStatusItem>>>)
    requires i < |chunks|
    ensures Delivered(chunks[..i + 1], fetch) == Delivered(chunks[..i], fetch) + StatusesOf(fetch(chunks[i]))
  {
    assert chunks[..i + 1] == chunks[..i] + [chunks[i]];
    DeliveredConcat(chunks[..i], [chunks[i]], fetch);
    assert [chunks[i]][1..] == [];
  }
}
