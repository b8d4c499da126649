/**
 * The administrator's page (src/pages/AdminDashboard.jsx): all bookings and the
 * aggregate statistics, a status selector per booking, and the update handler
 * that refetches both lists only after a successful update.
 */
module AdminDashboard {
  import opened Wrappers
  import opened Http
  import opened Browser
  import opened Bookings
  import MyBookings

  /** The statistics payload, passed through unread. */
  datatype Stats = Stats(fields: map<string, string>)

  /** The `PATCH /admin/bookings/{id}` request an update sends. */
  datatype StatusPatch = StatusPatch(path: string, status: string)

  const AdminBookingsPath := "/admin/bookings"

  const StatsFailedMessage := "Gagal memuat statistik"
  const BookingsFailedMessage := "Gagal memuat pemesanan"
  const UpdatedMessage := "Status berhasil diupdate"
  const UpdateFailedMessage := "Gagal mengupdate status"

  /** Status labels (`getStatusText`). */
  const StatusTexts: map<string, string> := map[
    Pending := "Menunggu",
    Confirmed := "Dikonfirmasi",
    InTransit := "Dalam Perjalanan",
    Completed := "Selesai",
    Cancelled := "Dibatalkan"]

  /** Status selector classes (`getStatusColor`). */
  const StatusColors: map<string, string> := map[
    Pending := "bg-yellow-100 text-yellow-700",
    Confirmed := "bg-blue-100 text-blue-700",
    InTransit := "bg-purple-100 text-purple-700",
    Completed := "bg-green-100 text-green-700",
    Cancelled := "bg-red-100 text-red-700"]

  const FallbackColor := "bg-gray-100 text-gray-700"

  function StatusText(status: string): (text: string)
    ensures status in KnownStatuses <==> status in StatusTexts
    ensures status !in KnownStatuses ==> text == status
    ensures status in KnownStatuses ==> text == StatusTexts[status]
  {
    if status in StatusTexts then StatusTexts[status] else status
  }

  function StatusColor(status: string): (c: string)
    ensures c == FallbackColor <==> status !in KnownStatuses
    ensures status in KnownStatuses ==> c == StatusColors[status]
  {
    if status in StatusColors then StatusColors[status] else FallbackColor
  }

  /** The selector's options, each value with the label shown for it. */
  const StatusOptions: seq<(string, string)> := [
    (Pending, "Menunggu"),
    (Confirmed, "Dikonfirmasi"),
    (InTransit, "Dalam Perjalanan"),
    (Completed, "Selesai"),
    (Cancelled, "Dibatalkan")]

  /**
   * The selector offers exactly the five statuses, each once, labelled as the
   * status text labels it; the labels are those of the booking history page.
   */
  lemma StatusOptionsMatchTables(status: string)
    ensures |StatusOptions| == |KnownStatuses|
    ensures forall i :: 0 <= i < |StatusOptions| ==> StatusOptions[i].0 == KnownStatuses[i]
    ensures forall i :: 0 <= i < |StatusOptions| ==> StatusOptions[i].1 == StatusText(StatusOptions[i].0)
    ensures StatusText(status) == MyBookings.StatusText(status)
  {
  }

  /** The request that choosing `status` for booking `bookingId` sends. */
  function PatchFor(bookingId: string, status: string): (p: StatusPatch)
    ensures p.status == status
    ensures |p.path| > |AdminBookingsPath| && p.path[..|AdminBookingsPath|] == AdminBookingsPath
    ensures p.path[|AdminBookingsPath|] == '/' && p.path[|AdminBookingsPath| + 1..] == bookingId
  {
    StatusPatch(AdminBookingsPath + "/" + bookingId, status)
  }

  /** The page's state. */
  class Page {
    var stats: Option<Stats>
    var bookings: seq<Booking>
    var loading: bool

    constructor ()
      ensures stats == None && bookings == [] && loading
    {
      stats := None;
      bookings := [];
      loading := true;
    }

    /** `fetchStats`. */
    method FetchStats(w: Window, reply: Outcome<Stats>)
      modifies this`stats, w`toasts
      ensures reply.Ok? ==> stats == Some(reply.value) && w.toasts == old(w.toasts)
      ensures reply.Err? ==> stats == old(stats) && w.toasts == old(w.toasts) + [ErrorToast(StatsFailedMessage)]
    {
      if reply.Ok? {
        stats := Some(reply.value);
      } else {
        w.Show(ErrorToast(StatsFailedMessage));
      }
    }

    /** `fetchAllBookings`: loading ends on success and failure alike. */
    method FetchAllBookings(w: Window, reply: Outcome<seq<Booking>>)
      modifies this`bookings, this`loading, w`toasts
      ensures !loading
      ensures reply.Ok? ==> bookings == reply.value && w.toasts == old(w.toasts)
      ensures reply.Err? ==> bookings == old(bookings) && w.toasts == old(w.toasts) + [ErrorToast(BookingsFailedMessage)]
    {
      if reply.Ok? {
        bookings := reply.value;
      } else {
        w.Show(ErrorToast(BookingsFailedMessage));
      }
      loading := false;
    }

    /**
     * `updateBookingStatus`: send the new status; only when the update succeeds
     * are the bookings and the statistics fetched again.
     */
    method UpdateBookingStatus(w: Window, bookingId: string, newStatus: string, patch: Outcome<()>,
                               bookingsReply: Outcome<seq<Booking>>, statsReply: Outcome<Stats>)
      returns (request: StatusPatch, refetched: bool)
      modifies this, w`toasts
      ensures request == PatchFor(bookingId, newStatus)
      ensures refetched <==> patch.Ok?
      ensures !refetched ==> && stats == old(stats) && bookings == old(bookings) && loading == old(loading)
                             && w.toasts == old(w.toasts) + [ErrorToast(UpdateFailedMessage)]
      ensures refetched ==> && !loading
                            && bookings == (if bookingsReply.Ok? then bookingsReply.value else old(bookings))
                            && stats == (if statsReply.Ok? then Some(statsReply.value) else old(stats))
                            && w.toasts == old(w.toasts) + [SuccessToast(UpdatedMessage)]
                                 + (if bookingsReply.Err? then [ErrorToast(BookingsFailedMessage)] else [])
                                 + (if statsReply.Err? then [ErrorToast(StatsFailedMessage)] else [])
    {
      request := PatchFor(bookingId, newStatus);
      if patch.Err? {
        w.Show(ErrorToast(UpdateFailedMessage));
        return request, false;
      }
      w.Show(SuccessToast(UpdatedMessage));
      FetchAllBookings(w, bookingsReply);
      FetchStats(w, statsReply);
      refetched := true;
    }
  }
}
