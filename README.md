# EcoCollect booking front end: session and booking logic in Dafny

This project models the decision logic of the EcoCollect waste-pickup single-page
application: how its two HTTP clients attach the bearer token (section 2.1 of RFC 6750)
and react to 401 Unauthorized answers (section 15.5.2 of RFC 9110); the shell's startup
session check, logout and route gating; and the booking pages' filters, status tables,
timeline, form handling, payment polling and admin updates.

Browser state is the class `Browser.Window`. It holds `localStorage` as a
`map<string, string>`, the current pathname, the global `logoutToastShown` flag, the
toasts shown so far, and the `setTimeout` callbacks still pending. Each page's React
state is a class (`Page`) whose methods update its fields. Every network answer is a
parameter (`Http.Outcome`), a sequence of them where the code calls more than once.
Each state-changing method is tied to a pure function (`...Env`, `Decide`,
`CheckOutcome`, `Visible`). The properties are proved about those functions.

Modules, one per source file plus shared pieces:
`Wrappers`, `Text` (ASCII `toLowerCase`, `includes`), `Http` (errors, outcomes,
`detail || fallback`, bearer headers), `Browser`, `Sequences` (`filter`), `Bookings`,
`AppClient` and `AppShell` (src/App.js), `AltClient` (src/utils/api.js), `MyBookings`,
`BookingDetail`, `BookingForm`, `PaymentSuccess`, `AdminDashboard`.

The two clients read the token under different keys: `sessionToken` in src/App.js and
`session_token` in src/utils/api.js. Both share the key `user`. Since both are modelled
against one storage map, the model shows what the drift does. A 401 seen by the second
client removes the cached user but leaves the shell's token, and the shell keeps
sending that token (`AltClient.AltLogoutKeepsShellToken`). The reverse holds as well
(`AltClient.ShellLogoutKeepsAltToken`).

The session-expired handling of src/App.js has three traits worth knowing.
The suppression flag is reset only by the session-expired redirect callback.
A startup check that ends on network errors leaves the user signed out and keeps the stored token.
A 401 from the startup check clears storage without the expiry toast or redirect, because `/auth/me` contains `/auth/`.

## Model

| member | source | states |
|---|---|---|
| Http.StoredToken | src/App.js:29-30 | a token counts as stored only when its key is present with a non-empty value |
| Http.WithBearer | src/App.js:30-32 | with a token, the `Authorization` header carries exactly that token in the bearer scheme; without one, the headers are unchanged; no other header is touched |
| Http.BearerCredential | src/App.js:31 | parsing an `Authorization` value recovers the token exactly when it has the `Bearer ` prefix; this is the inverse used to state `WithBearer` |
| Http.DetailOr | src/pages/BookingForm.jsx:57 | the message is the server's non-empty `detail` when present, else the fallback, and never empty when the fallback is not |
| Text.Lower | src/pages/MyBookings.jsx:47-48 | lower-casing keeps the length and maps each character by the ASCII rule |
| Text.LowerIdempotent | src/pages/MyBookings.jsx:47-48 | lower-casing twice equals lower-casing once |
| Text.IncludesAt | src/App.js:49-50 | `includes` holds exactly when the substring occurs at some position |
| Text.IncludesEmpty | src/pages/MyBookings.jsx:45-48 | every string includes the empty string |
| Text.PrefixIncluded | src/App.js:49-50 | a URL starting with a segment includes it |
| Text.MissingCharExcludes | src/App.js:49-50 | a string lacking one of the segment's characters does not include the segment |
| Browser.RunTimerEnv | src/App.js:65-68 | a fired callback lands on `/`; the session-expired one also clears the flag; storage and toasts are kept; the one-pending-redirect invariant is kept |
| Browser.Window.RunTimer | src/App.js:146-148 | firing a pending callback (the logout or session-expired redirect) changes the window as `RunTimerEnv` says |
| AppClient.OnRequest | src/App.js:27-38 | the request gets `Bearer <sessionToken>` when that token is stored, and is otherwise unchanged |
| AppClient.EndsSession | src/App.js:49-54 | a 401 ends the session iff the URL contains none of `/auth/`, `/waste-types`, `/seed-data` and the page is not `/` |
| AppClient.OnErrorEnv | src/App.js:43-74 | a 401 qualifying under `EndsSession` removes `sessionToken` and `user` and sets the flag; only when the flag was unset does it add exactly one toast and one redirect; anything else changes nothing |
| AppClient.OnResponse | src/App.js:41-75 | successes pass through and every error is rejected unchanged; the window changes as `OnErrorEnv` says |
| AppClient.AuthEndpointKeepsSession | src/App.js:49-54 | a 401 from any URL containing `/auth/` never ends the session |
| AppClient.LandingPageKeepsSession | src/App.js:51-54 | on the landing page no error changes anything |
| AppClient.BookingsListEndsSession | src/App.js:45-57 | a 401 from `/bookings` while on `/bookings` ends the session |
| AppClient.LoginEndpointKeepsSession | src/App.js:49 | a 401 from `/auth/google` does not end the session |
| AppClient.PublicEndpointKeepsSession | src/App.js:50 | a 401 from `/waste-types` does not end the session |
| AppClient.AtMostOneExpiredToast | src/App.js:59-69 | over any batch of errors before the redirect fires, at most one toast and one redirect are added, none if one is pending, and the invariant is kept |
| AppShell.CheckOutcome | src/App.js:88-129 | no token means no call; at most two calls; a second call only after a network error; the user is the last answer when it succeeded; storage is cleared iff the last error is a 401 |
| AppShell.Shell.CheckSession | src/App.js:97-118 | the retry loop makes the calls `CheckOutcome` prescribes, sets the user and clears storage accordingly, ends loading, and changes nothing else in the window |
| AppShell.LogoutEnv | src/App.js:137-148 | logout removes the token and user keys, keeps every other key, adds the success toast and schedules the redirect |
| AppShell.Shell.Logout | src/App.js:131-150 | whatever the logout request's outcome, the user becomes null and the window changes as `LogoutEnv` says |
| AppShell.LogoutThenCheckIsSignedOut | src/App.js:90-95 | after logout, the startup check makes no call and signs nobody in |
| AppShell.RouteView | src/App.js:152-171 | loading shows the loading screen; a shown screen is always the route's own page, and the admin dashboard only at `/admin` to an admin; protected routes render iff there is a user, else redirect to `/`; `/admin` renders iff the role is `admin`, else redirects to `/dashboard`; `/` redirects to `/dashboard` iff signed in |
| AppShell.SignedOutSeesOnlyLanding | src/App.js:165-171 | signed out, no route shows anything but the loading or landing screen |
| AltClient.OnRequest | src/utils/api.js:17-32 | the request gets `Bearer <session_token>` when that token is stored, and is otherwise unchanged |
| AltClient.OnErrorEnv | src/utils/api.js:40-55 | every 401 removes `session_token` and `user` and lands on `/`; other errors change nothing; the flag, toasts and timers are untouched |
| AltClient.OnResponse | src/utils/api.js:35-56 | successes pass through, every error is rejected unchanged, and the window changes as `OnErrorEnv` says |
| AltClient.AltLogoutKeepsShellToken | src/utils/api.js:46-47 | this client's 401 handling leaves the shell's `sessionToken` in place while removing the shared `user` |
| AltClient.ShellLogoutKeepsAltToken | src/App.js:56-57 | the shell client's 401 handling never touches `session_token` |
| AltClient.AltIgnoresExclusions | src/utils/api.js:43-47 | a 401 that the shell client ignores still clears this client's session |
| Sequences.Filter | src/pages/MyBookings.jsx:42 | the result holds only accepted elements and every accepted element of the input |
| Sequences.FilterCounts | src/pages/MyBookings.jsx:42 | each accepted element occurs in the result exactly as often as in the input, every rejected one not at all |
| Sequences.FilterIsSubsequence | src/pages/MyBookings.jsx:46 | filtering keeps the original order |
| Sequences.FilterTwice | src/pages/MyBookings.jsx:39-50 | two filters in a row equal one filter by both tests |
| MyBookings.Visible | src/pages/MyBookings.jsx:38-53 | the listed bookings are the subsequence of the bookings passing both the status filter and the search, each as many times as it occurs in the list; `all` with an empty term lists everything |
| MyBookings.NarrowingIsVisible | src/pages/MyBookings.jsx:39-50 | narrowing by status only when a status is chosen, then by term only when one is typed, gives `Visible` |
| MyBookings.MatchesSearch | src/pages/MyBookings.jsx:46-48 | the lower-cased term occurs in the lower-cased waste type name or pickup address |
| MyBookings.PassesStatus | src/pages/MyBookings.jsx:41-42 | the filter is `all` or equals the booking's status |
| MyBookings.PassesSearch | src/pages/MyBookings.jsx:45-49 | the term is empty or matches |
| MyBookings.Page.FilterBookings | src/pages/MyBookings.jsx:38-53 | the step-by-step narrowing publishes exactly `Visible` of the bookings, filter and term |
| MyBookings.SearchIgnoresCase | src/pages/MyBookings.jsx:45-50 | searching for a term or for its lower-case form matches the same bookings |
| MyBookings.EmptySearchMatchesAll | src/pages/MyBookings.jsx:45 | the empty term matches every booking |
| MyBookings.StatusText | src/pages/MyBookings.jsx:66-75 | the five known statuses get their labels; any other status is shown as is |
| MyBookings.StatusColor | src/pages/MyBookings.jsx:55-64 | the gray class is used exactly for unknown statuses |
| MyBookings.StatusTextsDistinct | src/pages/MyBookings.jsx:67-73 | distinct known statuses have distinct labels |
| MyBookings.Page.FetchBookings | src/pages/MyBookings.jsx:26-36 | success sets both lists to the fetched list; failure keeps them and goes through the client's interceptor; loading ends either way |
| BookingDetail.FetchErrorMessage | src/pages/BookingDetail.jsx:34-40 | 404 gives the not-found message; 401 gives none; everything else, network errors included, gives the generic message |
| BookingDetail.PaymentErrorMessage | src/pages/BookingDetail.jsx:58-63 | a 401 gives no message; otherwise the server's detail or the fallback |
| BookingDetail.FetchFailedEnv | src/pages/BookingDetail.jsx:31-45 | a failed fetch always returns to `/bookings` and adds at most one toast, counting the interceptor's |
| BookingDetail.StatusText | src/pages/BookingDetail.jsx:78-87 | the five known statuses get this page's labels; any other status is shown as is |
| BookingDetail.StatusColor | src/pages/BookingDetail.jsx:67-76 | the gray class is used exactly for unknown statuses |
| BookingDetail.StatusIcon | src/pages/BookingDetail.jsx:89-100 | the green check exactly for completed, the truck exactly for in-transit, the blue check exactly for confirmed, the package for every other status |
| BookingDetail.ShowsPayButton | src/pages/BookingDetail.jsx:246 | the pay button shows iff the booking is unpaid and not cancelled |
| BookingDetail.StageLit | src/pages/BookingDetail.jsx:263-307 | stage k is lit iff the status is in that stage's list |
| BookingDetail.CategoryLabel | src/pages/BookingDetail.jsx:173 | `Organik` iff the category is `organic`, else `Non-Organik` |
| BookingDetail.LitStages | src/pages/BookingDetail.jsx:263-317 | the lit timeline stages are exactly the first n; completed lights four, pending one, cancelled and unknown statuses none |
| BookingDetail.TimelineIsPrefix | src/pages/BookingDetail.jsx:277-307 | a lit stage implies every earlier stage is lit |
| BookingDetail.PaidHasNoPayButton | src/pages/BookingDetail.jsx:246 | a paid booking shows no pay button |
| BookingDetail.CancelledIsInert | src/pages/BookingDetail.jsx:246-307 | a cancelled booking shows no pay button and lights no stage |
| BookingDetail.Page.Mount | src/pages/BookingDetail.jsx:16-46 | without a user the page warns and goes to `/` without fetching; with one it fetches: success stores the booking, failure changes the window as `FetchFailedEnv` says; only the booking and loading fields change |
| BookingDetail.Page.FetchBooking | src/pages/BookingDetail.jsx:27-46 | success stores the booking; failure changes the window as `FetchFailedEnv` says; loading ends |
| BookingDetail.Page.HandlePayment | src/pages/BookingDetail.jsx:48-65 | success sends the browser to the checkout URL; failure shows `PaymentErrorMessage` after the interceptor and re-enables the button |
| BookingForm.Set | src/pages/BookingForm.jsx:113-216 | an input handler sets its own field and leaves every other field unchanged |
| BookingForm.Page.Update | src/pages/BookingForm.jsx:113-216 | the form data becomes `Set` of the old form data |
| BookingForm.Incomplete | src/pages/BookingForm.jsx:46 | some required field is empty |
| BookingForm.IncompleteMeansRequiredEmpty | src/pages/BookingForm.jsx:46-49 | the form is incomplete iff one of the five required fields is empty; the notes never matter |
| BookingForm.SelectedWasteType | src/pages/BookingForm.jsx:63 | the result is the first waste type with the chosen id, or none exactly when no type has it |
| BookingForm.EstimateOf | src/pages/BookingForm.jsx:64-66 | there is no estimate exactly when no waste type is selected or the weight is empty |
| BookingForm.SubmitEnv | src/pages/BookingForm.jsx:43-61 | an incomplete form only warns; a sent one shows success and opens `/bookings/{id}`, or shows the detail or fallback; storage is never touched |
| BookingForm.Page.Submit | src/pages/BookingForm.jsx:43-61 | a request is sent iff the form is complete; the window changes as `SubmitEnv` says; loading is off after every sent request |
| BookingForm.Page.FetchWasteTypes | src/pages/BookingForm.jsx:34-41 | success stores the types; failure keeps them and shows the error toast |
| PaymentSuccess.IsPending | src/pages/PaymentSuccess.jsx:33-42 | the reply succeeded and is neither paid nor expired |
| PaymentSuccess.Decide | src/pages/PaymentSuccess.jsx:26-54 | paid gives success, checked before expiry; expired or a request error gives failed; a pending session polls again iff fewer than five attempts were read, and otherwise stays checking, never failed |
| PaymentSuccess.TerminalStatusesStopPolling | src/pages/PaymentSuccess.jsx:33-39 | success and failure never schedule another poll |
| PaymentSuccess.ChecksFrom | src/pages/PaymentSuccess.jsx:42-46 | the checks run from a given check on never outnumber the answers left |
| PaymentSuccess.IntendedPollingIsBounded | src/pages/PaymentSuccess.jsx:42-49 | when each check reads the current count, at most six checks run, whatever the answers |
| PaymentSuccess.StalePollingIsUnbounded | src/pages/PaymentSuccess.jsx:42-46 | when each check reads the first render's count, a pending session is checked once per answer, without limit |
| PaymentSuccess.StalePollingExceedsBound | src/pages/PaymentSuccess.jsx:42 | seven pending answers give seven checks as written and six with the bound working |
| PaymentSuccess.Page.CheckPaymentStatus | src/pages/PaymentSuccess.jsx:26-54 | the shown status and the pending poll follow `Decide` |
| PaymentSuccess.Page.Mount | src/pages/PaymentSuccess.jsx:20-24 | a check happens iff the URL has a non-empty `session_id` |
| PaymentSuccess.Page.OnPollTimer | src/pages/PaymentSuccess.jsx:42-46 | as written: a poll counts one attempt but the check reads the first render's count, so a pending answer always schedules another poll |
| PaymentSuccess.Page.OnPollTimerIntended | src/pages/PaymentSuccess.jsx:42-46 | as intended: a poll counts one attempt and checks with the current count, so a pending answer polls again iff fewer than five attempts were made |
| AdminDashboard.StatusText | src/pages/AdminDashboard.jsx:71-80 | the five known statuses get the admin labels; any other status is shown as is |
| AdminDashboard.StatusColor | src/pages/AdminDashboard.jsx:60-69 | the gray class is used exactly for unknown statuses |
| AdminDashboard.StatusOptionsMatchTables | src/pages/AdminDashboard.jsx:216-222 | the selector offers exactly the five statuses in order, each labelled by `StatusText`; the admin labels agree with the history page's |
| AdminDashboard.PatchFor | src/pages/AdminDashboard.jsx:47-50 | the request goes to `/admin/bookings/` followed by exactly the booking's id and carries the chosen status |
| AdminDashboard.Page.FetchStats | src/pages/AdminDashboard.jsx:25-32 | success stores the stats; failure keeps them and shows the error toast |
| AdminDashboard.Page.FetchAllBookings | src/pages/AdminDashboard.jsx:34-43 | success stores the bookings; failure keeps them and shows the error toast; loading ends either way |
| AdminDashboard.Page.UpdateBookingStatus | src/pages/AdminDashboard.jsx:45-58 | bookings and stats are refetched iff the update succeeded; a failed update only shows the error toast |

## Findings

| source | as written | input that shows it | evidently intended | confidence | as-written member | corrected member |
|---|---|---|---|---|---|---|
| src/pages/PaymentSuccess.jsx:42-46 | each re-poll runs the first render's `checkPaymentStatus`, which reads `attempts` as 0, so `attempts < maxAttempts` always holds | a checkout session that stays pending for seven status answers: seven checks and polling continues | stop polling after five attempts and leave the page checking | high, not executed | PaymentSuccess.StalePollingIsUnbounded | PaymentSuccess.IntendedPollingIsBounded |

`PaymentSuccess.Page.OnPollTimer` fires the timer as written; `PaymentSuccess.Page.OnPollTimerIntended` fires it as intended.

## Left out

- Real HTTP, the backend and the external providers: every answer is a parameter. The OAuth sign-in redirect and the checkout provider's page are not modelled. The checkout URL is only recorded.
- Timing: the 1.5 s, 1 s, 0.5 s and 2 s delays. `Window.RunTimer` fires any pending callback, in any order. The one-second wait between the startup retries is not modelled.
- Concurrency: interleavings of in-flight requests and late answers.
- Page reloads: assigning `window.location.href` is modelled as a change of pathname. The reload that would reset the flag and the pending callbacks is not modelled.
- Floating-point prices and weights: the estimate's product and `toFixed`, revenue and weight totals, price display. `BookingForm.EstimateOf` says only whether an estimate exists.
- Unicode case mapping: `toLowerCase` is modelled for ASCII letters only.
- Rendering, icons' markup, styling, the toaster itself and the console logging (src/utils/api.js:23-26, 37, 41, 45).
- The `request` error handlers of both clients (src/App.js:35-37, src/utils/api.js:29-31), which only re-reject.
- JavaScript prototype keys (such as `constructor`) looked up in the status tables.
- The search and filter inputs' setters, and React re-running `filterBookings` when they change: `MyBookings.Page.FilterBookings` is the effect itself.
- Booking deletion is not modelled.
- Storing a session at login: src/pages/LandingPage.jsx is not part of this model. The same goes for src/pages/Dashboard.jsx (seeding button) and src/components/ui/UserMenu.jsx (dropdown).
- The body of the checkout request (`booking_id`, `origin_url`).
- AppShell.Shell.CheckSession: requires an answer for each of the two possible calls (`|replies| >= 2`). The answers stand in for the network.
- PaymentSuccess.ChecksFrom: counts checks only while answers remain, so an endless pending session is represented by ever longer answer sequences.
