/**
 * The booking history page (src/pages/MyBookings.jsx): the user's bookings,
 * narrowed by a status filter and a case-insensitive search on the waste type
 * name and the pickup address, with its status label and colour tables.
 */
module MyBookings {
  import opened Wrappers
  import opened Text
  import opened Http
  import opened Browser
  import opened Sequences
  import opened Bookings
  import AppClient

  /** The status filter value that filters nothing. */
  const AllStatuses := "all"
  const BookingsPath := "/bookings"

  /** The search term matches the waste type name or the pickup address, ignoring case. */
  predicate MatchesSearch(b: Booking, term: string) {
    Includes(Lower(b.wasteTypeName), Lower(term)) || Includes(Lower(b.pickupAddress), Lower(term))
  }

  /** A booking passes the status filter. */
  predicate PassesStatus(b: Booking, statusFilter: string) {
    statusFilter == AllStatuses || b.status == statusFilter
  }

  /** A booking passes the search. */
  predicate PassesSearch(b: Booking, term: string) {
    term == "" || MatchesSearch(b, term)
  }

  /** The combined test of both filters. */
  function Keep(statusFilter: string, term: string): Booking -> bool {
    (b: Booking) => PassesStatus(b, statusFilter) && PassesSearch(b, term)
  }

  /** The bookings the page lists: those passing both filters, in their original order. */
  function Visible(bookings: seq<Booking>, statusFilter: string, term: string): (r: seq<Booking>)
    ensures IsSubsequence(r, bookings)
    ensures forall i :: 0 <= i < |r| ==> r[i] in bookings && PassesStatus(r[i], statusFilter) && PassesSearch(r[i], term)
    ensures forall i :: 0 <= i < |bookings| && PassesStatus(bookings[i], statusFilter) && PassesSearch(bookings[i], term)
              ==> bookings[i] in r
    ensures forall b :: multiset(r)[b] ==
              if PassesStatus(b, statusFilter) && PassesSearch(b, term) then multiset(bookings)[b] else 0
    ensures statusFilter == AllStatuses && term == "" ==> r == bookings
  {
    var keep := Keep(statusFilter, term);
    FilterIsSubsequence(bookings, keep);
    FilterCounts(bookings, keep);
    if statusFilter == AllStatuses && term == "" then
      FilterKeepsAll(bookings, keep);
      Filter(bookings, keep)
    else
      Filter(bookings, keep)
  }

  /** The search ignores the case of the term: searching for its lower-case form finds the same bookings. */
  lemma SearchIgnoresCase(b: Booking, term: string)
    ensures MatchesSearch(b, term) == MatchesSearch(b, Lower(term))
  {
    LowerIdempotent(term);
  }

  /** Every booking matches the empty term, so skipping the search for it changes nothing. */
  lemma EmptySearchMatchesAll(b: Booking)
    ensures MatchesSearch(b, "")
  {
    assert Lower("") == "";
    IncludesEmpty(Lower(b.wasteTypeName));
  }

  /** Status labels (`getStatusText`). */
  const StatusTexts: map<string, string> := map[
    Pending := "Menunggu",
    Confirmed := "Dikonfirmasi",
    InTransit := "Dalam Perjalanan",
    Completed := "Selesai",
    Cancelled := "Dibatalkan"]

  /** Status badge classes (`getStatusColor`). */
  const StatusColors: map<string, string> := map[
    Pending := "bg-yellow-100 text-yellow-700 border-yellow-200",
    Confirmed := "bg-blue-100 text-blue-700 border-blue-200",
    InTransit := "bg-purple-100 text-purple-700 border-purple-200",
    Completed := "bg-green-100 text-green-700 border-green-200",
    Cancelled := "bg-red-100 text-red-700 border-red-200"]

  const FallbackColor := "bg-gray-100 text-gray-700 border-gray-200"

  /** The label of a status: its table entry, or the status itself when it is not in the table. */
  function StatusText(status: string): (text: string)
    ensures status in KnownStatuses <==> status in StatusTexts
    ensures status !in KnownStatuses ==> text == status
    ensures status in KnownStatuses ==> text == StatusTexts[status]
  {
    if status in StatusTexts then StatusTexts[status] else status
  }

  /** The badge class of a status, gray for anything unknown. */
  function StatusColor(status: string): (c: string)
    ensures c == FallbackColor <==> status !in KnownStatuses
    ensures status in KnownStatuses ==> c == StatusColors[status]
  {
    if status in StatusColors then StatusColors[status] else FallbackColor
  }

  /** Distinct known statuses get distinct labels, so a label names its status. */
  lemma StatusTextsDistinct(s: string, t: string)
    requires s in KnownStatuses && t in KnownStatuses && s != t
    ensures StatusText(s) != StatusText(t)
  {
  }

  /** The two narrowing steps of `filterBookings`, each taken only when its filter is set, give `Visible`. */
  lemma NarrowingIsVisible(bookings: seq<Booking>, sf: string, term: string,
                           byStatus: Booking -> bool, bySearch: Booking -> bool, filtered: seq<Booking>)
    requires forall b :: byStatus(b) == (b.status == sf)
    requires forall b :: bySearch(b) == MatchesSearch(b, term)
    requires var afterStatus := if sf != AllStatuses then Filter(bookings, byStatus) else bookings;
             filtered == if term != "" then Filter(afterStatus, bySearch) else afterStatus
    ensures filtered == Visible(bookings, sf, term)
  {
    var keep := Keep(sf, term);
    if sf != AllStatuses && term != "" {
      FilterTwice(bookings, byStatus, bySearch, keep);
    } else if sf != AllStatuses {
      FilterSameTest(bookings, byStatus, keep);
    } else if term != "" {
      FilterSameTest(bookings, bySearch, keep);
    } else {
      FilterKeepsAll(bookings, keep);
    }
  }

  /** The page's state. */
  class Page {
    var bookings: seq<Booking>
    var filteredBookings: seq<Booking>
    var loading: bool
    var searchTerm: string
    var statusFilter: string

    constructor ()
      ensures bookings == [] && filteredBookings == [] && loading
      ensures searchTerm == "" && statusFilter == AllStatuses
    {
      bookings := [];
      filteredBookings := [];
      loading := true;
      searchTerm := "";
      statusFilter := AllStatuses;
    }

    /**
     * `fetchBookings`: on success both lists become the fetched list; a failure
     * (after the client's interceptor) leaves them; loading ends either way.
     */
    method FetchBookings(w: Window, reply: Outcome<seq<Booking>>)
      requires w.Valid()
      modifies this`bookings, this`filteredBookings, this`loading, w
      ensures !loading
      ensures reply.Ok? ==> bookings == reply.value && filteredBookings == reply.value
      ensures reply.Err? ==> bookings == old(bookings) && filteredBookings == old(filteredBookings)
      ensures w.Snapshot() == if reply.Ok? then old(w.Snapshot())
                              else AppClient.OnErrorEnv(old(w.Snapshot()), BookingsPath, reply.error)
      ensures w.Valid()
    {
      var result := AppClient.OnResponse(w, BookingsPath, reply);
      if result.Ok? {
        bookings := result.value;
        filteredBookings := result.value;
      }
      loading := false;
    }

    /** `filterBookings`: narrow by status, then by search term, and publish the result. */
    method FilterBookings()
      modifies this`filteredBookings
      ensures filteredBookings == Visible(bookings, statusFilter, searchTerm)
    {
      var sf, term := statusFilter, searchTerm;
      var byStatus := (b: Booking) => b.status == sf;
      var bySearch := (b: Booking) => MatchesSearch(b, term);
      var filtered := bookings;
      if sf != AllStatuses {
        filtered := Filter(filtered, byStatus);
      }
      if term != "" {
        filtered := Filter(filtered, bySearch);
      }
      NarrowingIsVisible(bookings, sf, term, byStatus, bySearch, filtered);
      filteredBookings := filtered;
    }
  }
}
