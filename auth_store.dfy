/** The renderer's login state (`src/renderer/src/stores/auth.store.ts`): the
    current session, whether it was read back from the vault yet, and the
    sign-in/sign-out actions that keep the vault in step. */
module AuthStore {
  import opened Wrappers
  import opened JsString
  import opened Rows
  import opened SessionVault

  const Hour := 60 * 60 * 1000
  const DemoUser := "demo-user"

  /** `createDemoSession`: tokens derived from the user id, valid for an
      hour from `now`. */
  function DemoSession(user: string, deviceId: string, now: int): (r: SessionData)
    ensures r.userUuid == user && r.deviceId == deviceId
    ensures r.accessToken == "demo_access_" + user && r.refreshToken == "demo_refresh_" + user
    ensures r.expiresAt == now + Hour
    ensures r.accessToken != "" && r.refreshToken != ""
  {
    SessionData(user, "demo_access_" + user, "demo_refresh_" + user, now + Hour, deviceId)
  }

  /** `isAuthenticated`: a session with an access token. */
  function IsAuthenticated(session: Option<SessionData>): (r: bool)
    ensures session.None? ==> !r
    ensures session.Some? ==> (r <==> session.value.accessToken != "")
  {
    session.Some? && session.value.accessToken != ""
  }

  /** `userUuid`: the session's user, or the empty string. */
  function UserOf(session: Option<SessionData>): (r: string)
    ensures session.None? ==> r == ""
    ensures session.Some? ==> r == session.value.userUuid
  {
    match session
    case Some(s) => s.userUuid
    case None => ""
  }

  /** The user of a demo sign-in: the trimmed input, or `demo-user` when it
      is blank. */
  function DemoUserFor(input: string): (r: string)
    ensures r != ""
    ensures !AllSpace(input) ==> r == Trim(input)
    ensures AllSpace(input) ==> r == DemoUser
  {
    TrimEmptyIffBlank(input);
    if Trim(input) != "" then Trim(input) else DemoUser
  }

  /** A demo sign-in always yields an authenticated session for a non-empty
      user, whatever was typed. */
  lemma DemoSignInAuthenticates(input: string, deviceId: string, now: int)
    ensures var s := DemoSession(DemoUserFor(input), deviceId, now);
            IsAuthenticated(Some(s)) && UserOf(Some(s)) != ""
  {
  }

  class Store {
    var session: Option<SessionData>
    var hydrated: bool
    const vault: Vault

    constructor(vault: Vault)
      ensures session == None && !hydrated && this.vault == vault
    {
      session := None;
      hydrated := false;
      this.vault := vault;
    }

    /** `hydrateSession`: the first call copies the vault's session; later
        calls change nothing. */
    method HydrateSession()
      modifies this`session, this`hydrated
      ensures hydrated
      ensures old(hydrated) ==> session == old(session)
      ensures !old(hydrated) ==> session == vault.stored
    {
      if hydrated {
        return;
      }
      session := vault.Get();
      hydrated := true;
    }

    /** `signIn`: the session is set and persisted.  A failing local-store
        initialisation is caught and ignored, so its outcome has no part in
        the new state. */
    method SignIn(next: SessionData)
      modifies this`session, vault
      ensures session == Some(next) && vault.stored == Some(next)
    {
      session := Some(next);
      vault.Set(next);
    }

    /** `signInWithDemoAccount`. */
    method SignInWithDemoAccount(input: string, deviceId: string, now: int)
      modifies this`session, vault
      ensures session == Some(DemoSession(DemoUserFor(input), deviceId, now))
      ensures vault.stored == session && IsAuthenticated(session)
    {
      var user := Trim(input);
      if user == "" {
        user := DemoUser;
      }
      TrimEmptyIffBlank(input);
      SignIn(DemoSession(user, deviceId, now));
    }

    /** `signOut`: no session in memory or in the vault. */
    method SignOut()
      modifies this`session, vault
      ensures session == None && vault.stored == None && !IsAuthenticated(session)
    {
      session := None;
      vault.Clear();
    }
  }
}
