/**
 * The booking detail page (src/pages/BookingDetail.jsx): its guard against a
 * missing user, the classification of fetch and checkout errors into messages,
 * the status tables and icon, the pay button, and the four-stage tracking
 * timeline whose lit stages always form a prefix.
 */
module BookingDetail {
  import opened Wrappers
  import opened Http
  import opened Browser
  import opened Bookings
  import AppClient
  import AppShell

  const BookingsPath := "/bookings"
  const CheckoutPath := "/payments/checkout"

  const LoginFirstMessage := "Silakan login terlebih dahulu"
  const NotFoundMessage := "Pemesanan tidak ditemukan"
  const LoadFailedMessage := "Gagal memuat detail pemesanan"
  const CheckoutFailedMessage := "Gagal membuat sesi pembayaran"

  /** The request path of one booking. */
  function BookingPath(id: string): string {
    BookingsPath + "/" + id
  }

  /** The toast for a failed fetch: none for a 401, which the client's interceptor already reports. */
  function FetchErrorMessage(e: ApiError): (m: Option<string>)
    ensures m == Some(NotFoundMessage) <==> HasStatus(e, NotFound)
    ensures m.None? <==> HasStatus(e, Unauthorized)
    ensures m == Some(LoadFailedMessage) <==> !HasStatus(e, NotFound) && !HasStatus(e, Unauthorized)
  {
    if HasStatus(e, NotFound) then Some(NotFoundMessage)
    else if !HasStatus(e, Unauthorized) then Some(LoadFailedMessage)
    else None
  }

  /** The toast for a failed checkout: none for a 401, otherwise the server's detail or the fallback. */
  function PaymentErrorMessage(e: ApiError): (m: Option<string>)
    ensures m.None? <==> HasStatus(e, Unauthorized)
    ensures m.Some? ==> m.value == DetailOr(e, CheckoutFailedMessage) && m.value != ""
  {
    if !HasStatus(e, Unauthorized) then Some(DetailOr(e, CheckoutFailedMessage)) else None
  }

  /** The toasts the page adds to the window for `m`. */
  function ToastsOf(m: Option<string>): seq<Toast> {
    if m.Some? then [ErrorToast(m.value)] else []
  }

  /** The browser state after a failed fetch: the interceptor's effect, the page's toast, back to the list. */
  function FetchFailedEnv(env: Env, id: string, e: ApiError): (r: Env)
    ensures r.pathname == BookingsPath
    ensures |r.toasts| <= |env.toasts| + 1
    ensures !HasStatus(e, Unauthorized) ==> r.storage == env.storage && r.toasts == env.toasts + ToastsOf(FetchErrorMessage(e))
    ensures Consistent(env) ==> Consistent(r)
  {
    var after := AppClient.OnErrorEnv(env, BookingPath(id), e);
    after.(toasts := after.toasts + ToastsOf(FetchErrorMessage(e)), pathname := BookingsPath)
  }

  /** Status labels of this page (`getStatusText`). */
  const StatusTexts: map<string, string> := map[
    Pending := "Menunggu Konfirmasi",
    Confirmed := "Dikonfirmasi",
    InTransit := "Truk Dalam Perjalanan",
    Completed := "Selesai",
    Cancelled := "Dibatalkan"]

  /** Status badge classes of this page (`getStatusColor`). */
  const StatusColors: map<string, string> := map[
    Pending := "bg-yellow-100 text-yellow-700 border-yellow-300",
    Confirmed := "bg-blue-100 text-blue-700 border-blue-300",
    InTransit := "bg-purple-100 text-purple-700 border-purple-300",
    Completed := "bg-green-100 text-green-700 border-green-300",
    Cancelled := "bg-red-100 text-red-700 border-red-300"]

  const FallbackColor := "bg-gray-100 text-gray-700 border-gray-300"

  function StatusText(status: string): (text: string)
    ensures status in KnownStatuses <==> status in StatusTexts
    ensures status !in KnownStatuses ==> text == status
    ensures status in KnownStatuses ==> text == StatusTexts[status]
  {
    if status in StatusTexts then StatusTexts[status] else status
  }

  function StatusColor(status: string): (c: string)
    ensures c == FallbackColor <==> status !in KnownStatuses
    ensures status in KnownStatuses ==> c == StatusColors[status]
  {
    if status in StatusColors then StatusColors[status] else FallbackColor
  }

  /** The large status icon. */
  datatype Icon = GreenCheck | PurpleTruck | BlueCheck | YellowPackage

  /** `getStatusIcon`: three statuses have their own icon; every other one, `cancelled` included, the package. */
  function StatusIcon(status: string): (i: Icon)
    ensures i == YellowPackage <==> status !in {Completed, InTransit, Confirmed}
    ensures i == GreenCheck <==> status == Completed
    ensures i == PurpleTruck <==> status == InTransit
    ensures i == BlueCheck <==> status == Confirmed
  {
    if status == Completed then GreenCheck
    else if status == InTransit then PurpleTruck
    else if status == Confirmed then BlueCheck
    else YellowPackage
  }

  /** `Organik` for the organic category, `Non-Organik` for everything else. */
  function CategoryLabel(category: string): (text: string)
    ensures text == "Organik" <==> category == "organic"
    ensures text != "Organik" ==> text == "Non-Organik"
  {
    if category == "organic" then "Organik" else "Non-Organik"
  }

  /** The pay button shows for an unpaid booking that is not cancelled. */
  predicate ShowsPayButton(b: Booking) {
    b.paymentStatus != Paid && b.status != Cancelled
  }

  /** The statuses that light each of the four timeline stages (created, confirmed, on the way, done). */
  const StageStatuses: seq<seq<string>> := [
    [Pending, Confirmed, InTransit, Completed],
    [Confirmed, InTransit, Completed],
    [InTransit, Completed],
    [Completed]]

  const StageCount := 4

  /** Timeline stage `k` is lit for `status`. */
  predicate StageLit(k: nat, status: string)
    requires k < StageCount
  {
    status in StageStatuses[k]
  }

  /**
   * How many stages `status` lights; the lit stages are exactly the first ones:
   * `completed` lights all four, `pending` one, `cancelled` and unknown statuses none.
   */
  function LitStages(status: string): (n: nat)
    ensures n <= StageCount
    ensures forall k :: 0 <= k < StageCount ==> (StageLit(k, status) <==> k < n)
    ensures status == Completed ==> n == 4
    ensures status == Pending ==> n == 1
    ensures status !in KnownStatuses || status == Cancelled ==> n == 0
  {
    if status == Completed then 4
    else if status == InTransit then 3
    else if status == Confirmed then 2
    else if status == Pending then 1
    else 0
  }

  /** Monotone timeline: a lit stage means every earlier stage is lit. */
  lemma TimelineIsPrefix(j: nat, k: nat, status: string)
    requires j <= k < StageCount && StageLit(k, status)
    ensures StageLit(j, status)
  {
    var n := LitStages(status);
  }

  /** A paid booking offers no payment, whatever its status. */
  lemma PaidHasNoPayButton(b: Booking)
    requires b.paymentStatus == Paid
    ensures !ShowsPayButton(b)
  {
  }

  /** A cancelled booking offers no payment and lights no stage. */
  lemma CancelledIsInert(b: Booking)
    requires b.status == Cancelled
    ensures !ShowsPayButton(b)
    ensures forall k :: 0 <= k < StageCount ==> !StageLit(k, b.status)
  {
    var n := LitStages(b.status);
  }

  /** The page's state. */
  class Page {
    var booking: Option<Booking>
    var loading: bool
    var paymentLoading: bool
    /** Where the browser was sent to pay (the checkout provider's page). */
    var checkoutUrl: Option<string>

    constructor ()
      ensures booking == None && loading && !paymentLoading && checkoutUrl == None
    {
      booking := None;
      loading := true;
      paymentLoading := false;
      checkoutUrl := None;
    }

    /** The effect run on mount: without a user, warn and go to the landing page without fetching. */
    method Mount(w: Window, user: Option<AppShell.User>, id: string, reply: Outcome<Booking>) returns (fetched: bool)
      requires w.Valid()
      modifies this`booking, this`loading, w
      ensures fetched <==> user.Some?
      ensures !fetched ==> && w.Snapshot() == old(w.Snapshot()).(
                               toasts := old(w.toasts) + [ErrorToast(LoginFirstMessage)], pathname := LandingPath)
                           && booking == old(booking) && loading == old(loading)
      ensures fetched ==> !loading
      ensures fetched && reply.Ok? ==> booking == Some(reply.value) && w.Snapshot() == old(w.Snapshot())
      ensures fetched && reply.Err? ==>
                booking == old(booking) && w.Snapshot() == FetchFailedEnv(old(w.Snapshot()), id, reply.error)
      ensures w.Valid()
    {
      if user.None? {
        w.Show(ErrorToast(LoginFirstMessage));
        w.Navigate(LandingPath);
        return false;
      }
      FetchBooking(w, id, reply);
      return true;
    }

    /** `fetchBooking`: keep the booking, or report the error and go back to the list; loading ends. */
    method FetchBooking(w: Window, id: string, reply: Outcome<Booking>)
      requires w.Valid()
      modifies this`booking, this`loading, w
      ensures !loading
      ensures reply.Ok? ==> booking == Some(reply.value) && w.Snapshot() == old(w.Snapshot())
      ensures reply.Err? ==> booking == old(booking) && w.Snapshot() == FetchFailedEnv(old(w.Snapshot()), id, reply.error)
      ensures w.Valid()
    {
      var result := AppClient.OnResponse(w, BookingPath(id), reply);
      if result.Ok? {
        booking := Some(result.value);
      } else {
        var m := FetchErrorMessage(result.error);
        if m.Some? {
          w.Show(ErrorToast(m.value));
        }
        w.Navigate(BookingsPath);
      }
      loading := false;
    }

    /** `handlePayment`: go to the checkout page, or report the error and re-enable the button. */
    method HandlePayment(w: Window, reply: Outcome<string>)
      requires w.Valid() && booking.Some?
      modifies this`paymentLoading, this`checkoutUrl, w
      ensures reply.Ok? ==> paymentLoading && checkoutUrl == Some(reply.value) && w.Snapshot() == old(w.Snapshot())
      ensures reply.Err? ==>
                && !paymentLoading && checkoutUrl == old(checkoutUrl)
                && var after := AppClient.OnErrorEnv(old(w.Snapshot()), CheckoutPath, reply.error);
                   w.Snapshot() == after.(toasts := after.toasts + ToastsOf(PaymentErrorMessage(reply.error)))
      ensures w.Valid()
    {
      paymentLoading := true;
      var result := AppClient.OnResponse(w, CheckoutPath, reply);
      if result.Ok? {
        checkoutUrl := Some(result.value);
      } else {
        var m := PaymentErrorMessage(result.error);
        if m.Some? {
          w.Show(ErrorToast(m.value));
        }
        paymentLoading := false;
      }
    }
  }
}
