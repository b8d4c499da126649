/**
 * The application shell of src/App.js: the startup session check with its
 * bounded retry on network errors, logout, and the route table that gates pages
 * on the signed-in user and its role.
 */
module AppShell {
  import opened Wrappers
  import opened Text
  import opened Http
  import opened Browser
  import AppClient

  /** The cached profile returned by `/auth/me`. */
  datatype User = User(id: string, name: string, email: string, role: string)

  const AdminRole := "admin"
  const MePath := "/auth/me"
  const LogoutPath := "/auth/logout"
  const DashboardPath := "/dashboard"
  /** At most this many calls to `/auth/me` at startup. */
  const MaxRetries := 2
  const LogoutMessage := "Berhasil logout"

  /** What the startup check decides: the user it signs in, whether it clears storage, how many calls it makes. */
  datatype SessionCheck = SessionCheck(user: Option<User>, clearsStorage: bool, calls: nat)

  /**
   * The startup decision, given whether a token is stored and the answers the
   * successive `/auth/me` calls would get. A second call happens only after a
   * network error; storage is cleared only when the last error is a 401.
   */
  function CheckOutcome(hasToken: bool, replies: seq<Outcome<User>>): (r: SessionCheck)
    requires |replies| >= MaxRetries
    ensures r.calls <= MaxRetries
    ensures !hasToken ==> r == SessionCheck(None, false, 0)
    ensures hasToken ==> r.calls >= 1
    ensures r.calls == 2 ==> replies[0].Err? && IsNetworkError(replies[0].error)
    ensures r.user.Some? <==> r.calls >= 1 && replies[r.calls - 1].Ok?
    ensures r.user.Some? ==> r.user == Some(replies[r.calls - 1].value)
    ensures r.clearsStorage <==>
              r.calls >= 1 && replies[r.calls - 1].Err? && HasStatus(replies[r.calls - 1].error, Unauthorized)
    ensures r.calls == 1 && replies[0].Err? ==> !IsNetworkError(replies[0].error)
  {
    if !hasToken then SessionCheck(None, false, 0)
    else
      match replies[0]
      case Ok(u) => SessionCheck(Some(u), false, 1)
      case Err(e) =>
        if IsNetworkError(e) then
          match replies[1]
          case Ok(u) => SessionCheck(Some(u), false, 2)
          case Err(e2) => SessionCheck(None, HasStatus(e2, Unauthorized), 2)
        else SessionCheck(None, HasStatus(e, Unauthorized), 1)
  }

  /** The browser state after logout: both keys gone, a success toast, a redirect pending. */
  function LogoutEnv(env: Env): (r: Env)
    ensures StoredToken(r.storage, AppClient.TokenKey).None? && AppClient.UserKey !in r.storage
    ensures forall k :: k != AppClient.TokenKey && k != AppClient.UserKey ==>
              (k in r.storage <==> k in env.storage) && (k in r.storage ==> r.storage[k] == env.storage[k])
    ensures r.toasts == env.toasts + [SuccessToast(LogoutMessage)]
    ensures r.timers == env.timers + [LogoutRedirect]
    ensures r.pathname == env.pathname && r.logoutToastShown == env.logoutToastShown
    ensures Consistent(env) ==> Consistent(r)
  {
    env.(storage := env.storage - {AppClient.TokenKey} - {AppClient.UserKey},
         toasts := env.toasts + [SuccessToast(LogoutMessage)],
         timers := env.timers + [LogoutRedirect])
  }

  /** The `App` component's own state. */
  class Shell {
    var user: Option<User>
    var loading: bool

    constructor ()
      ensures user == None && loading
    {
      user := None;
      loading := true;
    }

    /**
     * `checkSession`: with no stored token, no call; otherwise call `/auth/me`
     * (through the client's interceptors), retrying once after a network error,
     * and clear the stored credentials only on a genuine 401.
     */
    method CheckSession(w: Window, replies: seq<Outcome<User>>) returns (calls: nat)
      requires w.Valid() && |replies| >= MaxRetries
      modifies this, w
      ensures var r := CheckOutcome(StoredToken(old(w.storage), AppClient.TokenKey).Some?, replies);
              && user == (if r.user.Some? then r.user else old(user))
              && calls == r.calls
              && w.Snapshot() == old(w.Snapshot()).(storage :=
                   if r.clearsStorage then old(w.storage) - {AppClient.TokenKey, AppClient.UserKey}
                   else old(w.storage))
      ensures !loading
      ensures w.Valid()
    {
      calls := 0;
      var token := StoredToken(w.storage, AppClient.TokenKey);
      if token.None? {
        loading := false;
        return;
      }
      AppClient.AuthEndpointKeepsSession("", "me", w.pathname);
      assert MePath == "" + AppClient.AuthSegment + "me";
      ghost var r := CheckOutcome(true, replies);
      var retries := 0;
      var failure: Option<ApiError> := None;
      while retries < MaxRetries
        invariant calls == retries < MaxRetries
        invariant calls == 1 ==> replies[0].Err? && IsNetworkError(replies[0].error)
        invariant user == old(user) && failure.None?
        invariant w.Snapshot() == old(w.Snapshot())
        decreases MaxRetries - retries
      {
        var reply := AppClient.OnResponse(w, MePath, replies[calls]);
        calls := calls + 1;
        if reply.Ok? {
          user := Some(reply.value);
          assert r == SessionCheck(user, false, calls);
          break;
        }
        retries := retries + 1;
        if IsNetworkError(reply.error) && retries < MaxRetries {
          continue;
        }
        failure := Some(reply.error);
        assert r == SessionCheck(None, HasStatus(reply.error, Unauthorized), calls);
        break;
      }
      if failure.Some? && HasStatus(failure.value, Unauthorized) {
        w.RemoveItem(AppClient.TokenKey);
        w.RemoveItem(AppClient.UserKey);
        assert w.storage == old(w.storage) - {AppClient.TokenKey, AppClient.UserKey};
      }
      loading := false;
    }

    /** `logout`: the server call is best effort; the local session always ends. */
    method Logout(w: Window, reply: Outcome<()>)
      requires w.Valid()
      modifies this, w
      ensures user == None && loading == old(loading)
      ensures w.Snapshot() == LogoutEnv(old(w.Snapshot()))
      ensures w.Valid()
    {
      AppClient.AuthEndpointKeepsSession("", "logout", w.pathname);
      assert LogoutPath == "" + AppClient.AuthSegment + "logout";
      var _ := AppClient.OnResponse(w, LogoutPath, reply);
      w.RemoveItem(AppClient.TokenKey);
      w.RemoveItem(AppClient.UserKey);
      user := None;
      w.Show(SuccessToast(LogoutMessage));
      w.Schedule(LogoutRedirect);
    }
  }

  /** After logout the next startup check makes no call and signs nobody in. */
  lemma LogoutThenCheckIsSignedOut(env: Env, replies: seq<Outcome<User>>)
    requires |replies| >= MaxRetries
    ensures CheckOutcome(StoredToken(LogoutEnv(env).storage, AppClient.TokenKey).Some?, replies)
            == SessionCheck(None, false, 0)
  {
  }

  /** The routes of the application. */
  datatype Route =
    | LandingRoute
    | DashboardRoute
    | NewBookingRoute
    | BookingsRoute
    | BookingDetailRoute(id: string)
    | PaymentSuccessRoute
    | AdminRoute
  {
    /** The routes that need a signed-in user. */
    predicate Protected() {
      !LandingRoute? && !AdminRoute?
    }

    /** The page component the route table mounts at this path. */
    function Element(): Screen {
      match this
      case LandingRoute => LandingScreen
      case DashboardRoute => DashboardScreen
      case NewBookingRoute => BookingFormScreen
      case BookingsRoute => MyBookingsScreen
      case BookingDetailRoute(id) => BookingDetailScreen(id)
      case PaymentSuccessRoute => PaymentSuccessScreen
      case AdminRoute => AdminDashboardScreen
    }
  }

  datatype Screen =
    | LoadingScreen
    | LandingScreen
    | DashboardScreen
    | BookingFormScreen
    | MyBookingsScreen
    | BookingDetailScreen(id: string)
    | PaymentSuccessScreen
    | AdminDashboardScreen

  /** What a route shows: a screen, or a redirect to another path. */
  datatype View = Show(screen: Screen) | Redirect(to: string)

  /** The page shown for `route` while loading or with the given user. */
  function RouteView(loading: bool, user: Option<User>, route: Route): (v: View)
    ensures loading ==> v == Show(LoadingScreen)
    ensures !loading && v.Show? ==> v.screen == route.Element()
    ensures !loading && v == Show(AdminDashboardScreen) ==> route == AdminRoute && user.Some? && user.value.role == AdminRole
    ensures !loading && route.Protected() ==> (v.Show? <==> user.Some?)
    ensures !loading && route.Protected() && user.None? ==> v == Redirect(LandingPath)
    ensures !loading && route == AdminRoute ==>
              (v == Show(AdminDashboardScreen) <==> user.Some? && user.value.role == AdminRole)
    ensures !loading && route == AdminRoute && v.Redirect? ==> v.to == DashboardPath
    ensures !loading && route == LandingRoute ==>
              (v == Redirect(DashboardPath) <==> user.Some?) && (user.None? ==> v == Show(LandingScreen))
  {
    if loading then Show(LoadingScreen)
    else
      match route
      case LandingRoute => if user.Some? then Redirect(DashboardPath) else Show(LandingScreen)
      case DashboardRoute => if user.Some? then Show(DashboardScreen) else Redirect(LandingPath)
      case NewBookingRoute => if user.Some? then Show(BookingFormScreen) else Redirect(LandingPath)
      case BookingsRoute => if user.Some? then Show(MyBookingsScreen) else Redirect(LandingPath)
      case BookingDetailRoute(id) => if user.Some? then Show(BookingDetailScreen(id)) else Redirect(LandingPath)
      case PaymentSuccessRoute => if user.Some? then Show(PaymentSuccessScreen) else Redirect(LandingPath)
      case AdminRoute =>
        if user.Some? && user.value.role == AdminRole then Show(AdminDashboardScreen) else Redirect(DashboardPath)
  }

  /** Signed out, the only screens any route can show are the loading and landing screens. */
  lemma SignedOutSeesOnlyLanding(loading: bool, route: Route)
    ensures RouteView(loading, None, route).Show? ==>
              RouteView(loading, None, route).screen in {LoadingScreen, LandingScreen}
  {
  }
}
