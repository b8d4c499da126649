/**
 * The second HTTP client (src/utils/api.js). It has the same shape as the shell's
 * client but reads the token under a different key, `session_token`, and ends the
 * session on every 401 whatever the endpoint, redirecting at once unless already on
 * the landing page. Both clients share one `localStorage`, so the lemmas at the end
 * show what the differing key names do to each other's session.
 */
module AltClient {
  import opened Wrappers
  import opened Http
  import opened Browser
  import AppClient

  const TokenKey := "session_token"
  const UserKey := "user"

  /** The request interceptor: attach `Bearer <token>` when `session_token` is stored. */
  method OnRequest(w: Window, config: RequestConfig)
    modifies config
    ensures config.headers == WithBearer(old(config.headers), StoredToken(w.storage, TokenKey))
    ensures config.url == old(config.url)
  {
    var token := StoredToken(w.storage, TokenKey);
    if token.Some? {
      config.SetAuthorization(BearerPrefix + token.value);
    }
  }

  /** The browser state after this client's response interceptor handles an error. */
  function OnErrorEnv(env: Env, e: ApiError): (r: Env)
    ensures !HasStatus(e, Unauthorized) ==> r == env
    ensures HasStatus(e, Unauthorized) ==>
              && r.storage == env.storage - {TokenKey, UserKey}
              && r.pathname == LandingPath
              && r.logoutToastShown == env.logoutToastShown
              && r.toasts == env.toasts && r.timers == env.timers
    ensures Consistent(env) ==> Consistent(r)
  {
    if HasStatus(e, Unauthorized) then
      env.(storage := env.storage - {TokenKey} - {UserKey}, pathname := LandingPath)
    else env
  }

  /**
   * The response interceptor: successes pass through; every error is rejected
   * unchanged, and a 401 first clears the session and leaves the page.
   */
  method OnResponse<T>(w: Window, outcome: Outcome<T>) returns (result: Outcome<T>)
    requires w.Valid()
    modifies w
    ensures result == outcome
    ensures w.Snapshot() == if outcome.Err? then OnErrorEnv(old(w.Snapshot()), outcome.error)
                            else old(w.Snapshot())
    ensures w.Valid()
  {
    result := outcome;
    if outcome.Err? && HasStatus(outcome.error, Unauthorized) {
      w.RemoveItem(TokenKey);
      w.RemoveItem(UserKey);
      assert w.storage == old(w.storage) - {TokenKey, UserKey};
      if w.pathname != LandingPath {
        w.Navigate(LandingPath);
      }
    }
  }

  /**
   * Key drift, one way: after this client ends the session on a 401, the shell's
   * client still finds its own token and keeps sending it, although the cached
   * user both share is gone.
   */
  lemma AltLogoutKeepsShellToken(env: Env, e: ApiError)
    requires HasStatus(e, Unauthorized) && AppClient.TokenKey in env.storage
    ensures var r := OnErrorEnv(env, e);
            && StoredToken(r.storage, AppClient.TokenKey) == StoredToken(env.storage, AppClient.TokenKey)
            && AppClient.UserKey !in r.storage
  {
    assert AppClient.TokenKey != TokenKey by {
      assert |AppClient.TokenKey| != |TokenKey|;
    }
  }

  /** Key drift, the other way: the shell's client never removes `session_token`. */
  lemma ShellLogoutKeepsAltToken(env: Env, url: string, e: ApiError)
    ensures StoredToken(AppClient.OnErrorEnv(env, url, e).storage, TokenKey) == StoredToken(env.storage, TokenKey)
  {
    assert AppClient.TokenKey != TokenKey by {
      assert |AppClient.TokenKey| != |TokenKey|;
    }
  }

  /**
   * Unlike the shell's client, this one ends the session on a 401 from an
   * authentication endpoint too, and even on the landing page.
   */
  lemma AltIgnoresExclusions(env: Env, url: string, e: ApiError)
    requires HasStatus(e, Unauthorized) && !AppClient.EndsSession(url, env.pathname)
    ensures AppClient.OnErrorEnv(env, url, e) == env
    ensures OnErrorEnv(env, e).storage == env.storage - {TokenKey, UserKey}
  {
  }
}
