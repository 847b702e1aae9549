/** The persisted login session behind `window.api.session`: one cell that
    `get` reads, `set` overwrites and `clear` empties.  The auth store, the
    request interceptor and the token refresh all share it. */
module SessionVault {
  import opened Wrappers
  import opened Rows

  class Vault {
    var stored: Option<SessionData>

    constructor(initial: Option<SessionData>)
      ensures stored == initial
    {
      stored := initial;
    }

    /** `session.get()`. */
    method Get() returns (s: Option<SessionData>)
      ensures s == stored
    {
      s := stored;
    }

    /** `session.set(payload)`. */
    method Set(payload: SessionData)
      modifies this
      ensures stored == Some(payload)
    {
      stored := Some(payload);
    }

    /** `session.clear()`. */
    method Clear()
      modifies this
      ensures stored == None
    {
      stored := None;
    }
  }
}
