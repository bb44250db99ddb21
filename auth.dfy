/** The OAuth access-token provider: the token file is read once and cached, a token
    refreshed within the last eight hours (less a one-minute margin) is served as it
    is, and an older one is exchanged with the refresh_token grant (section 6 of
    RFC 6749), the answer merged into the stored tokens and written back. The clock
    and the token endpoint's answer are inputs. */
module Auth {
  import opened Wrappers
  import opened Text
  import opened Domain

  const REFRESH_INTERVAL_MS: int := 8 * 60 * 60 * 1000
  const REFRESH_BUFFER_MS: int := 60000

  /** The contents of auth.json; `lastRefresh` is a time in milliseconds. */
  datatype AuthFile = AuthFile(accessToken: string, refreshToken: string, idToken: Option<string>, lastRefresh: Option<int>)

  /** What the token endpoint does with the refresh request: the request fails, the
      server answers with a non-2xx status, or it answers with a JSON body whose
      fields may each be missing. */
  datatype TokenResponse =
    | RequestFailed(message: string)
    | Rejected(status: int, statusText: string)
    | Granted(accessToken: Option<string>, refreshToken: Option<string>, idToken: Option<string>)

  /** A missing `last_refresh` counts as 0, which is never fresh. */
  function LastRefresh(tokens: AuthFile): int {
    tokens.lastRefresh.GetOr(0)
  }

  /** The tokens may be served without a refresh at time `now`. */
  predicate Fresh(tokens: AuthFile, now: int) {
    LastRefresh(tokens) > 0 && now < LastRefresh(tokens) + REFRESH_INTERVAL_MS - REFRESH_BUFFER_MS
  }

  /** The freshness rule spelled out: a recorded refresh at a positive time less than
      7 hours 59 minutes before `now`. */
  lemma FreshIff(tokens: AuthFile, now: int)
    ensures Fresh(tokens, now) <==>
      tokens.lastRefresh.Some? && tokens.lastRefresh.value > 0 && now - tokens.lastRefresh.value < 28740000
  {
  }

  /** `refresh`: the tokens that replace `tokens` once the server has answered at time
      `refreshedAt`, or the error raised. */
  function Refresh(tokens: AuthFile, response: TokenResponse, refreshedAt: int): (r: Result<AuthFile>)
    ensures response.RequestFailed? ==> r == Err(response.message)
    ensures response.Rejected? ==>
      r == Err("OAuth refresh failed: " + IntToString(response.status) + " " + response.statusText)
    ensures response.Granted? && !Truthy(response.accessToken) ==> r == Err("OAuth refresh returned no access_token")
    ensures r.Ok? <==> response.Granted? && Truthy(response.accessToken)
    ensures r.Ok? ==> r.value.accessToken == response.accessToken.value && r.value.lastRefresh == Some(refreshedAt)
    ensures r.Ok? && response.refreshToken.None? ==> r.value.refreshToken == tokens.refreshToken
    ensures r.Ok? && response.refreshToken.Some? ==> r.value.refreshToken == response.refreshToken.value
    ensures r.Ok? && response.idToken.None? ==> r.value.idToken == tokens.idToken
    ensures r.Ok? && response.idToken.Some? ==> r.value.idToken == response.idToken
  {
    match response
    case RequestFailed(message) => Err(message)
    case Rejected(status, statusText) => Err("OAuth refresh failed: " + IntToString(status) + " " + statusText)
    case Granted(access, refresh, id) =>
      if !Truthy(access) then Err("OAuth refresh returned no access_token")
      else Ok(AuthFile(access.value, refresh.GetOr(tokens.refreshToken), if id.Some? then id else tokens.idToken, Some(refreshedAt)))
  }

  /** One `getAccessToken` on loaded tokens: the token served (or the error) and the
      tokens held afterwards. */
  function Serve(tokens: AuthFile, now: int, response: TokenResponse, refreshedAt: int): (AuthFile, Result<string>) {
    if Fresh(tokens, now) then (tokens, Ok(tokens.accessToken))
    else match Refresh(tokens, response, refreshedAt)
      case Ok(updated) => (updated, Ok(updated.accessToken))
      case Err(message) => (tokens, Err(message))
  }

  /** Fresh tokens are served as they are and nothing is requested; stale ones are
      replaced by the refreshed tokens, or kept when the refresh fails. */
  lemma ServeMeaning(tokens: AuthFile, now: int, response: TokenResponse, refreshedAt: int)
    ensures var (held, r) := Serve(tokens, now, response, refreshedAt);
      (Fresh(tokens, now) ==> held == tokens && r == Ok(tokens.accessToken))
      && (!Fresh(tokens, now) && Refresh(tokens, response, refreshedAt).Err? ==>
        held == tokens && r == Err(Refresh(tokens, response, refreshedAt).message))
      && (!Fresh(tokens, now) && Refresh(tokens, response, refreshedAt).Ok? ==>
        held == Refresh(tokens, response, refreshedAt).value && r == Ok(held.accessToken))
  {
  }

  /** A token file without `last_refresh` is always refreshed, whatever the time. */
  lemma MissingLastRefreshRefreshes(tokens: AuthFile, now: int, response: TokenResponse, refreshedAt: int)
    requires tokens.lastRefresh.None?
    ensures Serve(tokens, now, response, refreshedAt) ==
      match Refresh(tokens, response, refreshedAt)
      case Ok(updated) => (updated, Ok(updated.accessToken))
      case Err(message) => (tokens, Err(message))
  {
  }

  /** After a successful refresh, a second call inside the window serves the new token
      without asking the server again, whatever it would answer. */
  lemma RefreshedServedAgain(tokens: AuthFile, response: TokenResponse, refreshedAt: int,
                             now: int, later: TokenResponse, laterAt: int)
    requires Refresh(tokens, response, refreshedAt).Ok?
    requires 0 < refreshedAt <= now < refreshedAt + REFRESH_INTERVAL_MS - REFRESH_BUFFER_MS
    ensures var updated := Refresh(tokens, response, refreshedAt).value;
      Serve(updated, now, later, laterAt) == (updated, Ok(response.accessToken.value))
  {
  }

  /** `OAuthTokenProvider`: the cache and the token file it reads and writes. */
  class TokenProvider {
    /** The tokens loaded or refreshed so far. */
    var cached: Option<AuthFile>
    /** auth.json: its parsed contents, or the error that reading or parsing it raises. */
    var stored: Result<AuthFile>

    constructor(stored: Result<AuthFile>)
      ensures cached == None && this.stored == stored
    {
      cached := None;
      this.stored := stored;
    }

    /** `loadTokens`: the cache, else the file, which is then cached. */
    method LoadTokens() returns (r: Result<AuthFile>)
      modifies this
      ensures stored == old(stored)
      ensures old(cached).Some? ==> r == Ok(old(cached).value) && cached == old(cached)
      ensures old(cached).None? ==> r == stored && cached == (if stored.Ok? then Some(stored.value) else None)
    {
      if cached.Some? {
        return Ok(cached.value);
      }
      r := stored;
      if r.Ok? {
        cached := Some(r.value);
      }
    }

    /** `getAccessToken` at time `now`; `response` is what the token endpoint answers if
        it is asked, at time `refreshedAt`. A refresh replaces both the cache and the
        file; a failed one leaves both as they were after loading. */
    method GetAccessToken(now: int, response: TokenResponse, refreshedAt: int) returns (r: Result<string>)
      modifies this
      ensures old(cached).None? && old(stored).Err? ==>
        r == Err(old(stored).message) && cached == None && stored == old(stored)
      ensures old(cached).Some? || old(stored).Ok? ==>
        var tokens := if old(cached).Some? then old(cached).value else old(stored).value;
        var (held, served) := Serve(tokens, now, response, refreshedAt);
        r == served && cached == Some(held)
        && stored == (if !Fresh(tokens, now) && served.Ok? then Ok(held) else old(stored))
    {
      var loaded := LoadTokens();
      if loaded.Err? {
        return Err(loaded.message);
      }
      var tokens := loaded.value;
      if Fresh(tokens, now) {
        return Ok(tokens.accessToken);
      }
      var refreshed := Refresh(tokens, response, refreshedAt);
      if refreshed.Err? {
        return Err(refreshed.message);
      }
      var updated := refreshed.value;
      stored := Ok(updated);
      cached := Some(updated);
      r := Ok(updated.accessToken);
    }
  }
}
