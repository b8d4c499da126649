/**
 * The shared HTTP client of the application shell (src/App.js): a request
 * interceptor that attaches the stored bearer token, and a response interceptor
 * that ends the session on a 401 Unauthorized answer, except for authentication
 * and public endpoints and on the landing page, showing at most one
 * session-expired toast and redirect at a time.
 */
module AppClient {
  import opened Wrappers
  import opened Text
  import opened Http
  import opened Browser

  /** The storage keys this client reads and clears. */
  const TokenKey := "sessionToken"
  const UserKey := "user"

  const AuthSegment := "/auth/"
  const WasteTypesSegment := "/waste-types"
  const SeedDataSegment := "/seed-data"

  const SessionExpiredMessage := "Sesi Anda telah berakhir. Silakan login kembali"

  /** The request interceptor: attach `Bearer <token>` when a token is stored. */
  method OnRequest(w: Window, config: RequestConfig)
    modifies config
    ensures config.headers == WithBearer(old(config.headers), StoredToken(w.storage, TokenKey))
    ensures config.url == old(config.url)
  {
    var token := StoredToken(w.storage, TokenKey);
    if token.Some? {
      config.SetAuthorization(BearerPrefix + token.value);
    }
  }

  /**
   * A 401 for `url`, seen while the window shows `pathname`, ends the session:
   * the URL names no authentication or public endpoint and the page is not the landing page.
   */
  predicate EndsSession(url: string, pathname: string) {
    && !Includes(url, AuthSegment)
    && !Includes(url, WasteTypesSegment)
    && !Includes(url, SeedDataSegment)
    && pathname != LandingPath
  }

  /** The browser state after the response interceptor handles an error for `url`. */
  function OnErrorEnv(env: Env, url: string, e: ApiError): (r: Env)
    ensures !(HasStatus(e, Unauthorized) && EndsSession(url, env.pathname)) ==> r == env
    ensures HasStatus(e, Unauthorized) && EndsSession(url, env.pathname) ==>
              && r.storage == env.storage - {TokenKey, UserKey}
              && r.logoutToastShown
              && r.pathname == env.pathname
    ensures HasStatus(e, Unauthorized) && EndsSession(url, env.pathname) && !env.logoutToastShown ==>
              && r.toasts == env.toasts + [ErrorToast(SessionExpiredMessage)]
              && r.timers == env.timers + [ExpiredSessionRedirect]
    ensures env.logoutToastShown ==> r.toasts == env.toasts && r.timers == env.timers
    ensures Consistent(env) ==> Consistent(r)
  {
    if HasStatus(e, Unauthorized) && EndsSession(url, env.pathname) then
      var cleared := env.(storage := env.storage - {TokenKey} - {UserKey});
      assert cleared.storage == env.storage - {TokenKey, UserKey};
      if !env.logoutToastShown then
        cleared.(logoutToastShown := true,
                 toasts := env.toasts + [ErrorToast(SessionExpiredMessage)],
                 timers := env.timers + [ExpiredSessionRedirect])
      else cleared
    else env
  }

  /**
   * The response interceptor: successes pass through, every error is rejected
   * unchanged after its effect on the session.
   */
  method OnResponse<T>(w: Window, url: string, outcome: Outcome<T>) returns (result: Outcome<T>)
    requires w.Valid()
    modifies w
    ensures result == outcome
    ensures w.Snapshot() == if outcome.Err? then OnErrorEnv(old(w.Snapshot()), url, outcome.error)
                            else old(w.Snapshot())
    ensures w.Valid()
  {
    result := outcome;
    if outcome.Err? && HasStatus(outcome.error, Unauthorized) {
      var authEndpoint := Includes(url, AuthSegment);
      var publicEndpoint := Includes(url, WasteTypesSegment) || Includes(url, SeedDataSegment);
      var onLandingPage := w.pathname == LandingPath;
      if !onLandingPage && !publicEndpoint && !authEndpoint {
        w.RemoveItem(TokenKey);
        w.RemoveItem(UserKey);
        if !w.logoutToastShown {
          w.logoutToastShown := true;
          w.Show(ErrorToast(SessionExpiredMessage));
          w.Schedule(ExpiredSessionRedirect);
        }
      }
    }
  }

  /** A request to any authentication endpoint never ends the session. */
  lemma AuthEndpointKeepsSession(prefix: string, rest: string, pathname: string)
    ensures !EndsSession(prefix + AuthSegment + rest, pathname)
  {
    var url := prefix + AuthSegment + rest;
    assert OccursAt(url, AuthSegment, |prefix|) by {
      assert url[|prefix|..|prefix| + |AuthSegment|] == AuthSegment;
    }
    IncludesAt(url, AuthSegment);
  }

  /** On the landing page no 401 changes anything. */
  lemma LandingPageKeepsSession(env: Env, url: string, e: ApiError)
    requires env.pathname == LandingPath
    ensures OnErrorEnv(env, url, e) == env
  {
  }

  /** A 401 from `/bookings` while on `/bookings` ends the session. */
  lemma BookingsListEndsSession()
    ensures EndsSession("/bookings", "/bookings")
  {
    MissingCharExcludes("/bookings", AuthSegment, 'a');
    MissingCharExcludes("/bookings", WasteTypesSegment, 'w');
    MissingCharExcludes("/bookings", SeedDataSegment, 'e');
  }

  /** A 401 from the login exchange `/auth/google` does not end the session. */
  lemma LoginEndpointKeepsSession(pathname: string)
    ensures !EndsSession("/auth/google", pathname)
  {
    assert "/auth/google" == "" + AuthSegment + "google";
    AuthEndpointKeepsSession("", "google", pathname);
  }

  /** A 401 from the public catalogue `/waste-types` does not end the session. */
  lemma PublicEndpointKeepsSession(pathname: string)
    ensures !EndsSession("/waste-types", pathname)
  {
    assert "/waste-types" == WasteTypesSegment + "";
    PrefixIncluded(WasteTypesSegment, "");
  }

  /** The interceptor applied to a batch of errors, with no callback firing in between. */
  function OnErrorsEnv(env: Env, errors: seq<(string, ApiError)>): Env
    decreases |errors|
  {
    if errors == [] then env
    else OnErrorsEnv(OnErrorEnv(env, errors[0].0, errors[0].1), errors[1..])
  }

  /**
   * Duplicate suppression: however many 401s arrive before the redirect fires, at
   * most one toast and one redirect are added, and none when one is already pending.
   */
  lemma {:induction false} AtMostOneExpiredToast(env: Env, errors: seq<(string, ApiError)>)
    requires Consistent(env)
    ensures var r := OnErrorsEnv(env, errors);
            && |r.toasts| <= |env.toasts| + (if env.logoutToastShown then 0 else 1)
            && |r.timers| <= |env.timers| + (if env.logoutToastShown then 0 else 1)
            && Consistent(r)
            && (env.logoutToastShown ==> r.logoutToastShown)
    decreases |errors|
  {
    if errors != [] {
      var next := OnErrorEnv(env, errors[0].0, errors[0].1);
      AtMostOneExpiredToast(next, errors[1..]);
    }
  }
}
