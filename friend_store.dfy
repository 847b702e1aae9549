/** The renderer's friend list cache (`src/renderer/src/stores/friend.store.ts`):
    the owner's friend rows and the friend-sync version.  The local store
    calls are inputs: a read's rows or its failure, a write's outcome.  A
    failure of the local store is swallowed and never reaches the caller. */
module FriendStore {
  import opened Wrappers
  import opened Rows

  /** The list `loadFriends` shows: the stored rows, or nothing without a
      user or when the read fails. */
  function LoadedFriends(user: string, read: Reply<seq<FriendRow>>): (r: seq<FriendRow>)
    ensures user == "" || read.Failed? ==> r == []
    ensures user != "" && read.Ok? ==> r == read.value
  {
    if user == "" then []
    else match read
      case Ok(rows) => rows
      case Failed => []
  }

  class Store {
    var friends: seq<FriendRow>
    var version: int

    constructor()
      ensures friends == [] && version == 0
    {
      friends := [];
      version := 0;
    }

    /** `loadFriends`; `read` is consulted only when there is a user. */
    method LoadFriends(user: string, read: Reply<seq<FriendRow>>)
      modifies this`friends
      ensures friends == LoadedFriends(user, read)
    {
      if user == "" {
        friends := [];
        return;
      }
      match read {
        case Ok(rows) => friends := rows;
        case Failed => friends := [];
      }
    }

    /** `replaceAll`: the list becomes a copy of `items` and the version
        `latestVersion`.  The local write's failure is caught and ignored,
        so its outcome has no part in the new state. */
    method ReplaceAll(user: string, items: seq<FriendRow>, latestVersion: int)
      modifies this`friends, this`version
      ensures friends == items && version == latestVersion
    {
      friends := items;
      version := latestVersion;
    }

    /** `applyChanges`: after handing the changes to the local store, the
        list is reloaded from it (`reload`), not built from the changes, and
        the version becomes `latestVersion`.  A failure of the hand-over is
        caught and ignored: only the reload's reply decides the list. */
    method ApplyChanges(user: string, changes: seq<FriendChange>, latestVersion: int,
                        reload: Reply<seq<FriendRow>>)
      modifies this`friends, this`version
      ensures friends == LoadedFriends(user, reload) && version == latestVersion
    {
      LoadFriends(user, reload);
      version := latestVersion;
    }
  }
}
