/** The renderer's profile cache (`src/renderer/src/stores/user.store.ts`). */
module UserStore {
  import opened Wrappers
  import opened Json
  import opened Rows

  /** The profile `loadProfile` shows: the stored one (possibly none), or
      none without a user or when the read fails. */
  function LoadedProfile(user: string, read: Reply<Option<ProfileRow>>): (r: Option<ProfileRow>)
    ensures user == "" || read.Failed? ==> r == None
    ensures user != "" && read.Ok? ==> r == read.value
  {
    if user == "" then None
    else match read
      case Ok(p) => p
      case Failed => None
  }

  class Store {
    var profile: Option<ProfileRow>

    constructor()
      ensures profile == None
    {
      profile := None;
    }

    /** `loadProfile`; `read` is consulted only when there is a user. */
    method LoadProfile(user: string, read: Reply<Option<ProfileRow>>)
      modifies this`profile
      ensures profile == LoadedProfile(user, read)
    {
      if user == "" {
        profile := None;
        return;
      }
      match read {
        case Ok(p) => profile := p;
        case Failed => profile := None;
      }
    }

    /** `saveProfile`: the profile becomes exactly the given payload, stamped
        `now`.  The local upsert's failure is caught and ignored, so its
        outcome has no part in the new state. */
    method SaveProfile(user: string, payload: JsonObject, now: int)
      modifies this`profile
      ensures profile == Some(ProfileRow(user, payload, now))
    {
      var next := ProfileRow(user, payload, now);
      profile := Some(next);
    }
  }
}
