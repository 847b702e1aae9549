/** The access-token refresh (`src/renderer/src/shared/http/session-refresh.ts`):
    read the stored session, post its refresh token, and store the session
    with the new access token and expiry.  The post is an input: the
    server's reply, or a rejected request. */
module SessionRefresh {
  import opened Wrappers
  import opened Rows
  import opened SessionVault

  /** The body posted to `/api/v1/public/user/refresh-token`. */
  datatype RefreshRequest = RefreshRequest(uuid: string, deviceId: string, refreshToken: string)

  /** The refresh reply: the business code and `data.accessToken` /
      `data.expiresIn` (seconds), when present. */
  datatype RefreshReply = RefreshReply(code: int, accessToken: Option<string>, expiresIn: int)

  /** `Math.max(0, n)`. */
  function NonNegative(n: int): (r: nat)
    ensures r >= n && (n >= 0 ==> r == n)
    ensures n < 0 ==> r == 0
  {
    if n < 0 then 0 else n
  }

  /** The next session: the stored one with the new access token, expiring
      `expiresIn` seconds (never fewer than 0) after `now`. */
  function NextSession(current: SessionData, accessToken: string, expiresIn: int, now: int): (r: SessionData)
    ensures r.userUuid == current.userUuid && r.refreshToken == current.refreshToken
    ensures r.deviceId == current.deviceId
    ensures r.accessToken == accessToken
    ensures r.expiresAt >= now
    ensures expiresIn >= 0 ==> r.expiresAt == now + expiresIn * 1000
    ensures expiresIn < 0 ==> r.expiresAt == now
  {
    current.(accessToken := accessToken, expiresAt := now + NonNegative(expiresIn) * 1000)
  }

  /** Whether the stored session can be refreshed at all. */
  predicate Refreshable(stored: Option<SessionData>) {
    stored.Some? && stored.value.refreshToken != "" && stored.value.userUuid != ""
  }

  /** Whether a reply carries a new session: code 0 and a non-empty token. */
  predicate Accepted(reply: RefreshReply) {
    reply.code == 0 && reply.accessToken.Some? && reply.accessToken.value != ""
  }

  /** `refreshSessionToken`: `Ok(None)` without a post when the stored session
      lacks a refresh token or user; `Failed` (a throw) when the post is
      rejected or the reply is not accepted, leaving the vault as it was;
      otherwise the next session, stored and returned. */
  method RefreshSessionToken(vault: Vault, post: RefreshRequest -> Reply<RefreshReply>, now: int)
    returns (r: Reply<Option<SessionData>>)
    modifies vault
    ensures !Refreshable(old(vault.stored)) ==> r == Ok(None) && vault.stored == old(vault.stored)
    ensures Refreshable(old(vault.stored)) ==>
              var s := old(vault.stored).value;
              var reply := post(RefreshRequest(s.userUuid, s.deviceId, s.refreshToken));
              if reply.Ok? && Accepted(reply.value) then
                var next := NextSession(s, reply.value.accessToken.value, reply.value.expiresIn, now);
                r == Ok(Some(next)) && vault.stored == Some(next)
              else
                r == Failed && vault.stored == old(vault.stored)
  {
    var current := vault.Get();
    if current.None? || current.value.refreshToken == "" || current.value.userUuid == "" {
      return Ok(None);
    }
    var s := current.value;
    var response := post(RefreshRequest(s.userUuid, s.deviceId, s.refreshToken));
    if response.Failed? {
      return Failed;
    }
    var payload := response.value;
    if payload.code != 0 || payload.accessToken.None? || payload.accessToken.value == "" {
      return Failed;
    }
    var next := NextSession(s, payload.accessToken.value, payload.expiresIn, now);
    vault.Set(next);
    r := Ok(Some(next));
  }

  /** A refreshed session can itself be refreshed again later and carries
      an access token: only the token and the expiry change. */
  lemma RefreshedStaysRefreshable(current: SessionData, accessToken: string, expiresIn: int, now: int)
    requires Refreshable(Some(current)) && accessToken != ""
    ensures var next := NextSession(current, accessToken, expiresIn, now);
            Refreshable(Some(next)) && next.accessToken != ""
            && next == current.(accessToken := next.accessToken, expiresAt := next.expiresAt)
  {
  }
}
