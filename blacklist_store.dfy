/** The renderer's blacklist cache (`src/renderer/src/stores/blacklist.store.ts`).
    A local-store failure is swallowed: `load` falls back to an empty list
    and `replaceAll` keeps the new list in memory. */
module BlacklistStore {
  import opened Wrappers
  import opened Rows

  /** The list `load` shows: the stored rows, or nothing without a user or
      when the read fails. */
  function LoadedBlacklist(user: string, read: Reply<seq<BlacklistRow>>): (r: seq<BlacklistRow>)
    ensures user == "" || read.Failed? ==> r == []
    ensures user != "" && read.Ok? ==> r == read.value
  {
    if user == "" then []
    else match read
      case Ok(rows) => rows
      case Failed => []
  }

  class Store {
    var items: seq<BlacklistRow>

    constructor()
      ensures items == []
    {
      items := [];
    }

    /** `load`; `read` is consulted only when there is a user. */
    method Load(user: string, read: Reply<seq<BlacklistRow>>)
      modifies this`items
      ensures items == LoadedBlacklist(user, read)
    {
      if user == "" {
        items := [];
        return;
      }
      match read {
        case Ok(rows) => items := rows;
        case Failed => items := [];
      }
    }

    /** `replaceAll`: the list becomes a copy of `list`.  The local write's
        failure is caught and ignored, so its outcome has no part in the
        new state. */
    method ReplaceAll(user: string, list: seq<BlacklistRow>)
      modifies this`items
      ensures items == list
    {
      items := list;
    }
  }
}
