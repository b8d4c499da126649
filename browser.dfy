/**
 * The browser state the session logic reads and writes: `localStorage` as a map,
 * the current path, the global `window.logoutToastShown` flag, the toasts shown so
 * far and the `setTimeout` callbacks still pending.
 */
module Browser {
  import opened Wrappers

  /** The landing route, where the unauthenticated user starts. */
  const LandingPath := "/"

  datatype Toast = ErrorToast(text: string) | SuccessToast(text: string)

  /**
   * A pending `setTimeout` callback: the session-expired redirect, which clears the
   * suppression flag and goes to the landing page (App.js), or the post-logout
   * redirect to the landing page.
   */
  datatype Timer = ExpiredSessionRedirect | LogoutRedirect

  /** A snapshot of the browser state. */
  datatype Env = Env(
    storage: map<string, string>,
    pathname: string,
    logoutToastShown: bool,
    toasts: seq<Toast>,
    timers: seq<Timer>)

  /** Number of session-expired redirects still pending. */
  function PendingExpiredRedirects(timers: seq<Timer>): nat {
    multiset(timers)[ExpiredSessionRedirect]
  }

  /**
   * The suppression flag is set exactly while one session-expired redirect is
   * pending: at most one such redirect (and toast) is ever outstanding.
   */
  predicate Consistent(env: Env) {
    PendingExpiredRedirects(env.timers) == if env.logoutToastShown then 1 else 0
  }

  /** The state after the pending callback `i` runs (timing between callbacks is not modelled). */
  function RunTimerEnv(env: Env, i: nat): (r: Env)
    requires i < |env.timers|
    ensures r.pathname == LandingPath
    ensures r.storage == env.storage && r.toasts == env.toasts
    ensures multiset(r.timers) == multiset(env.timers) - multiset{env.timers[i]}
    ensures env.timers[i] == ExpiredSessionRedirect ==> !r.logoutToastShown
    ensures env.timers[i] == LogoutRedirect ==> r.logoutToastShown == env.logoutToastShown
    ensures Consistent(env) ==> Consistent(r)
  {
    var rest := env.timers[..i] + env.timers[i + 1..];
    assert env.timers == env.timers[..i] + [env.timers[i]] + env.timers[i + 1..];
    match env.timers[i]
    case ExpiredSessionRedirect => env.(pathname := LandingPath, logoutToastShown := false, timers := rest)
    case LogoutRedirect => env.(pathname := LandingPath, timers := rest)
  }

  /** The page's window together with its `localStorage`. */
  class Window {
    var storage: map<string, string>
    var pathname: string
    var logoutToastShown: bool
    var toasts: seq<Toast>
    var timers: seq<Timer>

    function Snapshot(): Env
      reads this
    {
      Env(storage, pathname, logoutToastShown, toasts, timers)
    }

    ghost predicate Valid()
      reads this
    {
      Consistent(Snapshot())
    }

    /** A freshly loaded page: the flag is unset and nothing is pending. */
    constructor (storage: map<string, string>, pathname: string)
      ensures Snapshot() == Env(storage, pathname, false, [], [])
      ensures Valid()
    {
      this.storage := storage;
      this.pathname := pathname;
      this.logoutToastShown := false;
      this.toasts := [];
      this.timers := [];
    }

    /** `localStorage.removeItem(key)`. */
    method RemoveItem(key: string)
      modifies this`storage
      ensures storage == old(storage) - {key}
    {
      storage := storage - {key};
    }

    /** `toast.error(text)` / `toast.success(text)`. */
    method Show(t: Toast)
      modifies this`toasts
      ensures toasts == old(toasts) + [t]
    {
      toasts := toasts + [t];
    }

    /** `navigate(path)` or `window.location.href = path`. */
    method Navigate(path: string)
      modifies this`pathname
      ensures pathname == path
    {
      pathname := path;
    }

    /** `setTimeout(callback, delay)`; the delay is not modelled. */
    method Schedule(t: Timer)
      modifies this`timers
      ensures timers == old(timers) + [t]
    {
      timers := timers + [t];
    }

    /** The pending callback `i` fires. */
    method RunTimer(i: nat)
      requires Valid() && i < |timers|
      modifies this
      ensures Snapshot() == RunTimerEnv(old(Snapshot()), i)
      ensures Valid()
    {
      var t := timers[i];
      timers := timers[..i] + timers[i + 1..];
      if t == ExpiredSessionRedirect {
        logoutToastShown := false;
      }
      pathname := LandingPath;
    }
  }
}
