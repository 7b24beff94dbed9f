# SkyBook flight booking front end — a Dafny model

This project models the browser-side logic of the SkyBook flight booking
front end, a Next.js application. Most of that application is JSX and calls
to a remote REST API. Under it lies a small layer that is deterministic and
runs one step at a time, and this layer is what the model covers:

- the route guard's render and redirect decision;
- the session store (`AuthProvider`): initial load, login, registration, logout and `canAccess`;
- API request shaping: the auth-endpoint test, the header and config merge with Bearer injection, URL and query-string building, and the error raised for a non-ok response;
- the toast queue;
- the role-keyed navigation links;
- the mock data tables and their search and lookup functions;
- the list normalisations, local updates and aggregates of the traveller and administrator pages;
- the gate logic of the register, login, search, admin-flight and quick-search forms.

Every network result is an explicit parameter: a `Result` carrying either
the response data or a `CallError`. So are the clock (`now`), the stored
token and the configured base URL. Every `router.push` is recorded in a
`navigations` sequence, every request in a `calls` sequence of `Call`
values (endpoint and options), and every toast raised by a page in a
`notices` sequence. An `async` handler becomes two methods:

- a `Start…` method covers its part up to the `await`;
- a `Settle…` method covers the rest and takes the awaited outcome as a parameter.

Timers become explicit events (`Expire`, `Tick`, `FireRedirect`).

Each core file is one module:

- `RouteGuard`, `Auth`, `ApiService`, `Toasts`, `Navigation` and `MockData` model the shared components and libraries.
- `UserBookings`, `AdminBookings`, `AdminDashboard`, `AdminPayments`, `RegisterPage`, `SearchPage`, `LoginPage`, `AdminFlights` and `SearchPreview` model the pages.
- Four helper modules model the JavaScript semantics the code relies on:
  - `JsValues`: `Option` and `Result`.
  - `JsStrings`: the `||` on strings, `includes`, ASCII `toLowerCase` and `toUpperCase`, and `String(n)`.
  - `Lists`: `filter`, `find`, `reduce` over sums, and `slice`.
  - `QueryParams`: `URLSearchParams` serialisation, parsing and `get`.
- `Responses` holds the response shapes the pages read.

Some state lives in objects the source updates step by step: the session
store, the toast provider and each page's React state. These are classes
whose methods state the whole new state. The transforms, aggregates and
decisions are functions, and their properties are lemmas.

The two cancel handlers of the traveller pages differ. The booking detail
page (app/bookings/[id]/page.js:76-80) marks a cancelled booking's payment
"refunded". The bookings list page (app/bookings/page.js:113-119) changes
only `status`. The model covers the list page, and
`UserBookings.ApplyCancelOnlyStatus` proves that `paymentStatus` is left as
it was there.

The administrator flights page is modelled as written.
- Its fetch drops each flight's seat count, so no listed flight can be opened for editing (see Findings).
- `AdminFlights.AdminFlightsPage.SettleCorrectedFetch` is the same fetch with the seat count kept.
- `AdminFlights.EditFetchedFlight` shows that the corrected fetch makes every listed flight editable.

Some behaviour of the code as written is worth knowing:

- The session context exposes no `isLoading`, so the login and register submit buttons (`disabled={isLoading}`) are never disabled.
- The route guard reads the same missing `isLoading`; see Findings.
- A signed-in user whose role is neither "user" nor "admin" is shown the traveller links, and the guard of those pages sends them back to "/search" (`Navigation.OtherRoleRedirectLoop`).
- An `ApiError` message is never empty, so the register page's `err.error?.message` fallback is reached only by other kinds of error (`RegisterPage.HttpFailureShowsOwnMessage`).
- The dashboard counts only a status of exactly "confirmed", while it displays any capitalisation (`AdminDashboard.CapitalisedStatusNotCounted`).

## Model

| member | source | states |
|---|---|---|
| ApiService.BaseUrl | app/_lib/apiService.js:2-4 | the configured URL when one is set and non-empty; the default backend URL when none is set or it is empty |
| ApiService.StoredToken | app/_lib/apiService.js:41-44 | no token outside a browser; otherwise the stored "token" entry when there is one |
| ApiService.SearchParams | app/_lib/apiService.js:137-143 | the query holds origin, destination and departureDate as given, and passengers as given or 1 |
| ApiService.SearchFlightsUrl | app/_lib/apiService.js:144-145 | the search URL always starts "/flights/search?" |
| ApiService.AuthEndpointIff | app/_lib/apiService.js:52-53 | an endpoint is an auth endpoint iff "/login" or "/signup" occurs in it at some position |
| ApiService.AuthEndpointsClassified | app/_lib/apiService.js:80-92 | the login and signup endpoints are auth endpoints |
| ApiService.OtherEndpointsClassified | app/_lib/apiService.js:94-102 | the logout and current-user endpoints are not auth endpoints |
| ApiService.MergeHeaders | app/_lib/apiService.js:56-61 | the header keys are Content-Type, Authorization exactly when a Bearer token is sent, and the caller's keys; caller values override; Content-Type defaults to application/json; an Authorization the caller did not give is present iff the token is truthy and the endpoint is not an auth endpoint, and is "Bearer " + token |
| ApiService.BuildConfig | app/_lib/apiService.js:55-63 | credentials are always "include" whatever the caller passes; method and body are passed through; headers are the merged map |
| ApiService.Prepare | app/_lib/apiService.js:65 | the request URL is the base URL followed by the endpoint, with the built config |
| ApiService.Rejection | app/_lib/apiService.js:67-73 | an error exactly when the response is not ok, whose status code is the response status |
| ApiService.RejectionMessage | app/_lib/apiService.js:68-72 | the error message is the body's message when truthy, otherwise "HTTP " followed by the status |
| ApiService.RejectionMessageNonEmpty | app/_lib/apiService.js:69-72 | an error message is never empty |
| ApiService.RejectionStatusReadBack | app/_lib/apiService.js:70 | without a body message, the status is read back from the digits after "HTTP " |
| ApiService.LogoutCarriesToken | app/_lib/apiService.js:94-98 | the logout request carries "Bearer " + token when a token is stored |
| ApiService.LoginNeverCarriesToken | app/_lib/apiService.js:80-85 | the login request never gets an Authorization header from the stored token |
| ApiService.AllFlightsUrl | app/_lib/apiService.js:131-135 | exactly "/flights" iff there are no parameters, otherwise "/flights?" + the serialised query |
| ApiService.SearchQueryReadBack | app/_lib/apiService.js:137-146 | the search query parses back to origin, destination, departureDate, passengers in that order |
| ApiService.SearchDefaultPassengers | app/_lib/apiService.js:137 | without a passenger count the query says passengers=1 |
| Auth.RegisterBodyFields | app/_lib/auth-Context.js:57-62 | the signup body carries name, email, password, and the password again as passwordConfirm |
| Auth.CanAccess | app/_lib/auth-Context.js:92-96 | false with no user; true for a falsy required role; otherwise whether the user's role equals it |
| Auth.CanAccessMonotone | app/_lib/auth-Context.js:92-96 | access to some role implies access when no role is required |
| Auth.CanAccessOneRole | app/_lib/auth-Context.js:95 | two non-empty roles that both admit a user are the same role |
| Auth.AuthProvider.constructor | app/_lib/auth-Context.js:12-21 | no user, loading, and one current-user request issued |
| Auth.AuthProvider.IsAuthenticated | app/_lib/auth-Context.js:15 | true iff there is a user |
| Auth.AuthProvider.ContextFlag | app/_lib/auth-Context.js:98-106 | the truthiness of the context value's entry by key: false for every key outside the value's seven (`user`, `isAuthenticated`, `loading`, `login`, `register`, `logout`, `canAccess`); `user` and `isAuthenticated` are truthy iff someone is signed in; `loading` is the loading state; the four functions are always truthy |
| Auth.AuthProvider.SettleInit | app/_lib/auth-Context.js:20-27 | the fetched user on success, no user on failure; loading false either way; nothing else changes |
| Auth.AuthProvider.StartLogin | app/_lib/auth-Context.js:39-42 | loading, and the login request issued; user and storage unchanged |
| Auth.AuthProvider.SettleLogin | app/_lib/auth-Context.js:42-50 | on success, "token" is stored with the response token ("undefined" when it has none); then, when the body has `data`, the user becomes `data.user` and the body is returned, and when it has not, the user is unchanged and the TypeError of `data.data.user` is returned; on failure user and storage are unchanged and the error is returned; loading false in every case |
| Auth.AuthProvider.StartRegister | app/_lib/auth-Context.js:54-62 | loading, and the signup request with the register body issued; the user is untouched |
| Auth.AuthProvider.SettleRegister | app/_lib/auth-Context.js:63-75 | the outcome is returned, loading false, user and storage never change |
| Auth.AuthProvider.Logout | app/_lib/auth-Context.js:77-89 | no user, "/login" pushed, the logout request issued; the stored token is kept |
| Auth.LogoutRequestCarriesStoredToken | app/_lib/auth-Context.js:77-89 | since logout keeps the token, its own request still carries the Bearer header |
| Auth.LoginOnce | app/_lib/auth-Context.js:39-51 | after a whole login, loading is false; the login resolves iff the call succeeded with a `data` part, and only then does the user change |
| RouteGuard.Decide | app/_component/protectedRoutes.js:27-43 | the spinner iff loading; children iff not loading, a user exists and the roles admit them; nothing otherwise |
| RouteGuard.Redirects | app/_component/protectedRoutes.js:12-25 | at most one push; none while loading; "/login" with no user; "/admin" or "/search" by role for a rejected user; none for an admitted user |
| RouteGuard.RedirectIffNothing | app/_component/protectedRoutes.js:13-41 | the guard redirects exactly when it renders nothing |
| RouteGuard.RejectedRoleTarget | app/_component/protectedRoutes.js:17-24 | a rejected user goes to "/admin" if an administrator, else "/search", never to "/login" |
| RouteGuard.EmptyRolesRejectAll | app/_component/protectedRoutes.js:17-21 | an empty role list rejects every signed-in user |
| RouteGuard.WiredIsLoading | app/_component/protectedRoutes.js:9 | the `isLoading` flag the guard destructures from the context is false whatever the provider's state, because the context value has no such key |
| RouteGuard.AsWiredRedirects | app/_component/protectedRoutes.js:9-25 | as wired, with no user the guard pushes "/login" whatever the provider's loading; once loaded it redirects as the effect intends |
| RouteGuard.GuardAgreesWithCanAccess | app/_component/protectedRoutes.js:39-43 | with one role, or none, the guard shows its children iff `canAccess` grants it |
| RouteGuard.AsWiredRedirectsBeforeSessionKnown | app/_component/protectedRoutes.js:9-15 | as wired, a guarded page opened while the session is still loading pushes "/login" and renders nothing |
| RouteGuard.CorrectedRedirects | app/_component/protectedRoutes.js:12-25 | reading the provider's `loading`, no push while loading |
| RouteGuard.CorrectedRender | app/_component/protectedRoutes.js:27-33 | reading the provider's `loading`, the spinner while loading |
| RouteGuard.CorrectedWaitsForSession | app/_component/protectedRoutes.js:9-33 | corrected, the same page waits with the spinner and pushes nothing |
| RouteGuard.WiringsAgreeAfterInit | app/_component/protectedRoutes.js:9 | once the session has loaded, both wirings redirect alike |
| Toasts.NewToast | app/context/toast-context.js:12-14 | id is the clock, type defaults to "success", duration to 3000 |
| Toasts.ToastProvider.constructor | app/context/toast-context.js:10 | no toasts and no timers |
| Toasts.ToastProvider.AddToast | app/context/toast-context.js:12-20 | exactly one toast appended at the end, the rest unchanged; a removal timer for its id and duration |
| Toasts.ToastProvider.RemoveToast | app/context/toast-context.js:22-24 | the list without the toasts with that id, in order |
| Toasts.ToastProvider.Expire | app/context/toast-context.js:17-19 | a fired timer removes the toasts with its id and leaves the other timers |
| Toasts.RemoveKeepsOthers | app/context/toast-context.js:23 | a toast survives removal iff it was there with another id; the result is a subsequence |
| Toasts.RemoveAbsent | app/context/toast-context.js:23 | removing an absent id changes nothing |
| Toasts.RemoveIdempotent | app/context/toast-context.js:23 | removing twice is removing once |
| Toasts.RemoveAfterAddOther | app/context/toast-context.js:14-23 | removing another id keeps a newly added toast at the end |
| Toasts.ExpiryRemovesOwnToast | app/context/toast-context.js:17-19 | a toast's own timer removes it |
| Toasts.RemoveAllShared | app/context/toast-context.js:23 | toasts sharing one id all go together |
| Toasts.SameMillisecondCollision | app/context/toast-context.js:13-19 | for two toasts added in the same millisecond, the firing of either one's timer removes both, leaving one timer pending |
| Toasts.LateExpiryHarmless | app/context/toast-context.js:17-37 | a timer firing after an explicit close changes nothing further |
| Navigation.NavLinks | app/_component/navigation.js:55-63 | public and auth links with no user; exactly the admin links for "admin"; exactly the user links otherwise |
| Navigation.LoggedInSeesNoPublicLinks | app/_component/navigation.js:55-63 | a signed-in user never sees a public or auth link |
| Navigation.LogoutShownIffRoleLinks | app/_component/navigation.js:92 | the logout control shows iff a user exists, iff the links are not the public ones |
| Navigation.AtMostOneActive | app/_component/navigation.js:83 | at most one link is active for a pathname |
| Navigation.LinksLeadToAdmittedPages | app/_component/navigation.js:43-53 | for "user" and "admin", every offered link leads to a page whose guard admits them |
| Navigation.OtherRoleRedirectLoop | app/_component/navigation.js:62 | a user with another role is offered "/search", whose guard sends them to "/search" |
| MockData.RemoveParens | app/_lib/mock-data.js:193 | the result has no parentheses |
| MockData.SearchFlights | app/_lib/mock-data.js:184-210 | the two filter passes give the flights matching origin and destination, in table order; the date is unused |
| MockData.SearchMembers | app/_lib/mock-data.js:187-207 | a flight is in the result iff it is a mock flight matching both queries, lowercased, with or without parentheses |
| MockData.SearchKeepsOrder | app/_lib/mock-data.js:185-209 | the result is a subsequence of the mock flights |
| MockData.EmptySearchReturnsAll | app/_lib/mock-data.js:184-209 | empty origin and destination give every flight |
| MockData.FlightById | app/_lib/mock-data.js:213-215 | the first flight with that id, or none iff no flight has it |
| MockData.UserBookingsExact | app/_lib/mock-data.js:218-220 | exactly the bookings with that user id, in order |
| MockData.BookingById | app/_lib/mock-data.js:223-225 | the first booking with that id, or none iff no booking has it |
| MockData.MockIdsDistinct | app/_lib/mock-data.js:2-181 | flight, booking and payment ids are distinct within each table |
| MockData.FlightByOwnId | app/_lib/mock-data.js:213-215 | looking a mock flight up by its id finds it |
| MockData.BookingByOwnId | app/_lib/mock-data.js:223-225 | looking a mock booking up by its id finds it |
| MockData.BookingsMatchFlights | app/_lib/mock-data.js:110-150 | each booking's flight is the flight of its flightId, and its total is that flight's price |
| MockData.PaymentsMatchBookings | app/_lib/mock-data.js:153-181 | each payment references a booking whose total is the payment amount |
| Responses.OrEmpty | app/admin/page.js:45 | `x \|\| []` then a list method: fails exactly for a truthy non-list, the list itself, otherwise [] |
| Responses.ArrayOrEmpty | app/bookings/page.js:71-73 | the list when it is an array, otherwise [] |
| Responses.LowerOrPending | app/bookings/page.js:91-92 | "pending" for a missing or empty status, otherwise the status lowercased; never empty |
| Responses.LowerOrPendingIsLower | app/bookings/page.js:91-92 | the normalised status is already lower case |
| UserBookings.Source | app/bookings/page.js:69-73 | the response if an array, else its `bookings` if an array, else [] |
| UserBookings.Normalise | app/bookings/page.js:75-95 | id `_id \|\| id`; statuses lowercased or "pending"; total or 0; the clock when createdAt is missing |
| UserBookings.NormaliseAll | app/bookings/page.js:75-95 | same length and order, each booking normalised |
| UserBookings.FetchResult | app/bookings/page.js:66-106 | the normalised source list on success, [] when the call fails |
| UserBookings.NormalisedStatusesLower | app/bookings/page.js:91-92 | every listed status is non-empty and lower case |
| UserBookings.ApplyCancel | app/bookings/page.js:113-119 | same length; the bookings with that id get status "cancelled", the others are unchanged |
| UserBookings.ApplyCancelOnlyStatus | app/bookings/page.js:113-119 | a cancel changes no field other than status, so paymentStatus stays |
| UserBookings.ApplyCancelAbsent | app/bookings/page.js:115 | an unknown id leaves the list as it was |
| UserBookings.ApplyCancelIdempotent | app/bookings/page.js:113-119 | cancelling twice is cancelling once |
| UserBookings.CanCancel | app/bookings/page.js:246 | a cancel is never offered for a cancelled or pending booking |
| UserBookings.CancelWithdrawsOffer | app/bookings/page.js:246 | a cancelled booking is no longer offered a cancel; others keep their offer |
| UserBookings.BookingsPage.constructor | app/bookings/page.js:32-34 | no bookings, loading, no cancel in progress |
| UserBookings.BookingsPage.StartFetch | app/bookings/page.js:40-66 | loading, and the my-bookings request issued |
| UserBookings.BookingsPage.SettleFetch | app/bookings/page.js:66-106 | the normalised source list, or [] on any failure; loading false |
| UserBookings.BookingsPage.StartCancel | app/bookings/page.js:108-111 | the cancelling id is the booking's, and the cancel request issued |
| UserBookings.BookingsPage.SettleCancel | app/bookings/page.js:112-124 | a successful cancel applies the local update, a failed one leaves the list; no cancel in progress afterwards |
| AdminBookings.Source | app/admin/bookings/page.js:51 | the response if an array, else `bookings \|\| []`, failing for a truthy non-array |
| AdminBookings.Normalise | app/admin/bookings/page.js:53-65 | id `_id \|\| id`; statuses lowercased or "pending"; total or 0 |
| AdminBookings.NormaliseAll | app/admin/bookings/page.js:53-65 | same length and order, each booking normalised |
| AdminBookings.FetchResult | app/admin/bookings/page.js:31-74 | the normalised source list, or [] when the call fails or the `.map` throws on a truthy non-array |
| AdminBookings.PagesListSameBookings | app/admin/bookings/page.js:51-70 | both bookings pages list as many bookings for the same response |
| AdminBookings.Count | app/admin/bookings/page.js:114-134 | a card's count never exceeds the bookings, and is 0 iff no booking has that status |
| AdminBookings.CountsBounded | app/admin/bookings/page.js:114-134 | Confirmed + Pending + Cancelled never exceed Total |
| AdminBookings.OfferedIsConfirmedPlusPending | app/admin/bookings/page.js:222-223 | the bookings offered a cancel are as many as Confirmed + Pending |
| AdminBookings.CanCancel | app/admin/bookings/page.js:222-223 | a cancel is never offered for a cancelled booking |
| AdminBookings.OfferWiderThanUserPage | app/admin/bookings/page.js:222-223 | cancel is offered iff the traveller page offers it or the status is "pending" |
| AdminBookings.AdminBookingsPage.constructor | app/admin/bookings/page.js:23-25 | no bookings, loading, no cancel in progress |
| AdminBookings.AdminBookingsPage.StartFetch | app/admin/bookings/page.js:31-50 | loading, and the all-bookings request issued |
| AdminBookings.AdminBookingsPage.SettleFetch | app/admin/bookings/page.js:50-74 | the normalised source list, or [] on any failure; loading false |
| AdminBookings.AdminBookingsPage.StartCancel | app/admin/bookings/page.js:76-78 | the cancel request issued; exactly the rows with that id are disabled |
| AdminBookings.AdminBookingsPage.SettleCancel | app/admin/bookings/page.js:79-86 | a successful cancel refetches the whole list, a failed one changes nothing; no row is disabled afterwards |
| AdminDashboard.Revenue | app/admin/page.js:47-49 | no revenue when no payment has status "success" |
| AdminDashboard.PendingPayments | app/admin/page.js:51-53 | at most the number of payments, and 0 iff none has status "initiated" |
| AdminDashboard.ConfirmedBookings | app/admin/page.js:82-84 | at most the number of bookings, and 0 iff none has status exactly "confirmed" |
| AdminDashboard.RevenueAppend | app/admin/page.js:47-49 | revenue grows by `amount \|\| 0` for a "success" payment and not at all otherwise |
| AdminDashboard.RevenueNonNegative | app/admin/page.js:47-49 | with no negative amounts, revenue is never negative |
| AdminDashboard.ToRecent | app/admin/page.js:86-96 | passenger name or "N/A", status or "pending" without lowercasing, total or 0 |
| AdminDashboard.Recent | app/admin/page.js:86 | the first five bookings at most, in order |
| AdminDashboard.Compute | app/admin/page.js:45-105 | figures exactly when neither list is a truthy non-array |
| AdminDashboard.MissingListsAreEmpty | app/admin/page.js:45-80 | missing lists give zero revenue, zero counts and no recent bookings |
| AdminDashboard.CapitalisedStatusNotCounted | app/admin/page.js:82-95 | adding a "Confirmed" booking to any list leaves the confirmed count unchanged, and among the first five it is shown as "Confirmed" |
| AdminDashboard.TotalBookingsCardCapped | app/admin/page.js:123-124 | the Total Bookings card shows five when there are more bookings |
| AdminDashboard.DashboardPage.constructor | app/admin/page.js:19-27 | loading, zero figures |
| AdminDashboard.DashboardPage.StartFetch | app/admin/page.js:35-42 | loading, and the flights, bookings and payments requests issued together |
| AdminDashboard.DashboardPage.SettleFetch | app/admin/page.js:42-110 | the computed figures when every call and the computation succeed, otherwise the old figures; loading false |
| AdminDashboard.FailedFirstLoad | app/admin/page.js:106-108 | a first load that fails keeps the zero figures |
| AdminPayments.Total | app/admin/payments/page.js:10-18 | a status no payment has totals 0 |
| AdminPayments.TotalConcat | app/admin/payments/page.js:10-18 | per-status totals add up across tables |
| AdminPayments.MockTotals | app/admin/payments/page.js:10-18 | on the mock payments: completed 299, pending 89, failed 399 |
| AdminPayments.BookingFor | app/admin/payments/page.js:21 | the first booking with the payment's bookingId, or none iff there is none |
| AdminPayments.Enrich | app/admin/payments/page.js:20-23 | same length and order; each entry keeps its payment and carries its booking |
| AdminPayments.PassengerCell | app/admin/payments/page.js:134 | "—" without a booking or with an empty passenger name, otherwise the passenger name |
| AdminPayments.MockPaymentsAllMatched | app/admin/payments/page.js:20-23 | every mock payment finds its booking, whose total is the amount paid |
| RegisterPage.Validate | app/register/page.js:54-64 | "Passwords do not match" for a mismatch; otherwise the length message below 8; nothing iff the form may be sent |
| RegisterPage.MismatchTakesPrecedence | app/register/page.js:54-64 | a mismatch is reported even for a short password |
| RegisterPage.FailureMessage | app/register/page.js:71-74 | the error's own message when non-empty, else the nested `error.message` when non-empty, else "Registration failed. Please try again." |
| RegisterPage.HttpFailureShowsOwnMessage | app/register/page.js:71-74 | a rejected HTTP call always shows the server's or "HTTP n" message |
| RegisterPage.NextCount | app/register/page.js:32-41 | one less while that stays positive, otherwise 0 |
| RegisterPage.CountAfterValue | app/register/page.js:31-43 | k ticks from a start give the start minus k, or 0 |
| RegisterPage.FiveTicksToRedirect | app/register/page.js:26-43 | from 5, four ticks pass silently and the fifth stops at 0 and schedules the redirect |
| RegisterPage.RegisterForm.constructor | app/register/page.js:24-26 | no error, no success, countdown 5 |
| RegisterPage.RegisterForm.Submit | app/register/page.js:49-78 | the error is cleared; an invalid form shows its message in the error and an error toast and calls nothing; a valid one sends the signup request, then sets success with the success toast or the failure message with an error toast; the provider's user, storage and navigations, the countdown, the interval and the pending redirect are untouched |
| RegisterPage.RegisterForm.RunEffect | app/register/page.js:29-31 | the interval starts only after a success |
| RegisterPage.RegisterForm.Tick | app/register/page.js:31-43 | a tick applies NextCount and stops the interval, scheduling the redirect, when it reaches 0 |
| RegisterPage.RegisterForm.FireRedirect | app/register/page.js:36-38 | a scheduled redirect pushes "/login", and a push happens only after a successful registration |
| RegisterPage.RegisterThenRedirect | app/register/page.js:29-78 | a successful registration shows the success toast, counts down to 0 in five ticks, and sends the visitor to "/login" exactly once |
| SearchPage.JsRem60 | app/search/page.js:72-74 | the JavaScript remainder by 60: the sign of the dividend, magnitude below 60 |
| SearchPage.DurationExample | app/search/page.js:72-74 | 65 minutes read "1h 5m", 60 read "1h 0m": minutes are not padded |
| SearchPage.NegativeDurationExample | app/search/page.js:72-74 | -5 minutes read "-1h -5m" |
| SearchPage.DurationReadBack | app/search/page.js:72-74 | for non-negative minutes the duration text parses back to the same minutes |
| SearchPage.FormatFlight | app/search/page.js:58-78 | id `_id` or "FL" + (index + 1); price is basePrice; seats are seatsAvailable; the duration text, or "NaNh NaNm" when the flight has none; aircraft is fixed |
| SearchPage.FormatAll | app/search/page.js:58 | same length and order, each flight formatted with its index |
| SearchPage.FallbackIdsDistinct | app/search/page.js:59 | two flights without `_id` get different fallback ids |
| SearchPage.SearchForm.constructor | app/search/page.js:27-34 | origin, destination and date from the URL parameters or ""; no flights; both flags false |
| SearchPage.SearchForm.SetOrigin | app/search/page.js:155 | the typed origin is stored upper-cased |
| SearchPage.SearchForm.SetDestination | app/search/page.js:174-176 | the typed destination is stored upper-cased |
| SearchPage.SearchForm.StartSearch | app/search/page.js:42-55 | with a field empty, an error toast and nothing else changes; otherwise both flags up and the search request for the three fields issued |
| SearchPage.SearchForm.SettleSearch | app/search/page.js:55-113 | the formatted results, with an info toast when empty; or [] and an error toast; isSearching false either way |
| SearchPage.SearchForm.Mount | app/search/page.js:36-40 | a search is attempted iff the URL names an origin or destination; it starts iff all three fields are filled, setting both flags and issuing the call with toasts and results kept; otherwise the missing-fields toast, or nothing when not attempted |
| SearchPage.AutoSearchWithoutDate | app/search/page.js:27-48 | a URL with an origin and no date attempts the search and fails validation |
| LoginPage.ViewFor | app/login/page.js:36-59 | the session check while loading; the form only when neither loading nor signed in |
| LoginPage.EffectTarget | app/login/page.js:24-33 | a push iff loaded and signed in: "/admin" for an administrator, "/search" otherwise |
| LoginPage.RedirectsIffNotice | app/login/page.js:24-59 | the page redirects exactly when it shows "Redirecting..." |
| LoginPage.FailureMessage | app/login/page.js:73 | the error's message when non-empty, else "Invalid email or password" |
| LoginPage.LoginForm.constructor | app/login/page.js:19-21 | no error, nothing pushed |
| LoginPage.LoginForm.Submit | app/login/page.js:61-77 | the error cleared; the login request; on success with a `data` part a toast and "/search" whatever the role; on success without one, the token stored but the TypeError's message shown and no push; on failure the message and no push |
| LoginPage.LoginForm.RunEffect | app/login/page.js:24-33 | pushes the effect target, if any |
| LoginPage.AdminSignIn | app/login/page.js:24-69 | an administrator signing in goes to "/search", then to "/admin" |
| LoginPage.FailedSignIn | app/login/page.js:61-77 | a failed sign-in pushes nothing, shows a message and keeps the form |
| AdminFlights.NormaliseAsWritten | app/admin/flights/page.js:70-79 | id `_id \|\| id`, price or 0, no seat count |
| AdminFlights.Normalise | app/admin/flights/page.js:64 | as written, but with the seat count `availableSeats \|\| 0` |
| AdminFlights.NormaliseAll | app/admin/flights/page.js:70-79 | same length and order, each flight normalised as written, so none has a seat count |
| AdminFlights.FetchResult | app/admin/flights/page.js:67-84 | the flights normalised as written, or [] on a failed call or a truthy non-array |
| AdminFlights.CorrectedNormaliseAll | app/admin/flights/page.js:54-66 | same length and order, each flight normalised with its seat count `availableSeats \|\| 0` |
| AdminFlights.CorrectedFetchResult | app/admin/flights/page.js:54-66 | the same fetch with the corrected normalisation |
| AdminFlights.CorrectedFetchOnlyAddsSeats | app/admin/flights/page.js:54-79 | both fetches list the same flights in the same order, differing only in the seat count |
| AdminFlights.ListedFlightsNotEditable | app/admin/flights/page.js:70-79 | as written, "Edit" throws for every listed flight |
| AdminFlights.CorrectedFlightsEditable | app/admin/flights/page.js:54-66 | corrected, every listed flight can be opened for editing |
| AdminFlights.FlightDataKeysOrder | app/admin/flights/page.js:119-130 | the body has the ten keys airline, flightNumber, origin, destination, departureTime, arrivalTime, price, availableSeats, aircraft, duration, in that order |
| AdminFlights.FlightDataFields | app/admin/flights/page.js:119-130 | the body carries the typed price and seats and always aircraft "Boeing 737-800" and duration "3h 00m" |
| AdminFlights.SaveCall | app/admin/flights/page.js:133-137 | an update of the edited flight's id iff a flight is being edited, otherwise a creation |
| AdminFlights.EditForm | app/admin/flights/page.js:102-113 | every input prefilled from the flight, price and seats as strings, iff the flight has a seat count |
| AdminFlights.AdminFlightsPage.constructor | app/admin/flights/page.js:30-43 | no flights, loading, dialog closed, empty form |
| AdminFlights.AdminFlightsPage.StartFetch | app/admin/flights/page.js:49-67 | loading, and the all-flights request issued |
| AdminFlights.AdminFlightsPage.SettleFetch | app/admin/flights/page.js:67-88 | the list as written; loading false; no listed flight has a seat count |
| AdminFlights.AdminFlightsPage.SettleCorrectedFetch | app/admin/flights/page.js:54-66 | corrected, the list keeps the seat counts and every listed flight is editable |
| AdminFlights.AdminFlightsPage.ResetForm | app/admin/flights/page.js:90-100 | all eight inputs "" and no flight being edited; nothing else changes |
| AdminFlights.AdminFlightsPage.OpenEditDialog | app/admin/flights/page.js:102-113 | the flight recorded and the inputs prefilled in order; the dialog opens iff the seat count exists, otherwise the seats input is left and the dialog stays |
| AdminFlights.AdminFlightsPage.StartSave | app/admin/flights/page.js:115-137 | creating, and the save call for the current form issued |
| AdminFlights.AdminFlightsPage.SettleSave | app/admin/flights/page.js:138-145 | on success the list refetched, the dialog closed and the form reset; on failure all stays; creating false either way |
| AdminFlights.EditAndSave | app/admin/flights/page.js:102-137 | "Edit" then "Save": a flight with a seat count sends an update of itself with its own price and seats; one without sends nothing and leaves the dialog as it was |
| AdminFlights.AddAfterEdit | app/admin/flights/page.js:176 | "Add Flight" after an edit creates a new flight from empty inputs |
| AdminFlights.EditFetchedFlightAsWritten | app/admin/flights/page.js:111 | as written, after a fetch "Edit" on any listed flight leaves the dialog closed, and only the fetch was sent |
| AdminFlights.EditFetchedFlight | app/admin/flights/page.js:102-113 | corrected, the same listed flight opens with its own seat count prefilled |
| SearchPreview.PreviewParams | app/_component/home/searchPreview.js:19-22 | only the non-empty fields, keyed origin, destination, date |
| SearchPreview.PreviewTarget | app/_component/home/searchPreview.js:23 | always "/search?" followed by the query |
| SearchPreview.EmptyPreviewTarget | app/_component/home/searchPreview.js:23 | all fields empty give "/search?" |
| SearchPreview.PreviewForm.constructor | app/_component/home/searchPreview.js:13-15 | three empty fields |
| SearchPreview.PreviewForm.HandleSearch | app/_component/home/searchPreview.js:17-24 | the conditional `set` calls and one push of the preview target; the fields are not changed |
| SearchPreview.PreviewReadBack | app/_component/home/searchPreview.js:19-23 | the search page reads back exactly the typed values, not upper-cased, "" for empty fields |
| SearchPreview.QuickSearchStartsSearch | app/_component/home/searchPreview.js:17-24 | a complete quick search makes the search page issue the search for those values at once |
| SearchPreview.OriginOnlyQuickSearch | app/_component/home/searchPreview.js:20-23 | an origin alone starts the automatic search, which fails for want of a date |
| QueryParams.ParseSerialize | app/_component/home/searchPreview.js:23 | parsing a serialised query gives back the same pairs in order, for values without '&' |
| QueryParams.Get | app/search/page.js:27-31 | the first value for the key, or none iff no pair has it |

## Left out

- Network I/O: `fetch`, `response.json()` and `Promise.all` are replaced by outcome parameters. The body of an error response is a parameter too, and a body that fails to parse is the same as `{}`.
- ApiService.ErrorBody: only object bodies are modelled. A body that parses to `null` (or another non-object) makes `errorData.message` throw a TypeError instead of the `ApiError` (app/_lib/apiService.js:68-72); the model has no such body.
- AdminFlights.AdminFlightsPage.ResetForm: the "Add Flight" button is also the dialog's trigger (app/admin/flights/page.js:175-176), and the opening it causes is the dialog component's behaviour, so the model leaves the dialog flag unchanged and `AddAfterEdit` saves without modelling that opening.
- Rendering and framework machinery: JSX, hooks, animation and Suspense. `router.push` is a recorded navigation, `localStorage` a map field, and each `addToast` call a recorded notice in the page that raised it.
- Concurrency: overlapping async calls, such as a double submit or a fetch racing a cancel, are not modelled; each handler is one `Start` step then one `Settle` step.
- Real timers and clocks: `setTimeout`, `setInterval` and `Date.now()` are explicit events and parameters. Locale formatting (`toLocaleTimeString`, `toISOString`) is not modelled, so the search page omits the formatted times and the traveller page takes the current time as a string.
- Encoding and number parsing: `URLSearchParams` percent-encoding, `JSON.stringify` and `Number()` are not modelled. Query values are taken without '&', and the admin form's numbers are kept as `JNumberOf(text)`.
- Floats: every amount and duration is an integer.
- Strings: `length` counts characters, not UTF-16 code units. Case mapping is ASCII only.
- The booking wizard, the seat-map generator and the UI components are not part of this model.
- The booking detail page (app/bookings/[id]/page.js), including its cancel handler that marks the payment "refunded", is not part of this model.
- The dashboard's "Total Flights" card takes `.length` of a response object, which is not a list. The model does not carry the raw `flights` and `payments` responses.
- Static and presentational code is not modelled: marketing pages, the status badge, configuration, `useAuth`, and `useToast`'s throw outside its provider.
- The register and login submit buttons read `isLoading`, which the session context does not provide. The model therefore has no disabled state for them.
- SearchPage.SearchForm.SetOrigin: the model does not enforce the three-character limit of the input (app/search/page.js:156), since the browser applies it.
- SearchPage.SearchForm.SetDestination: the model does not enforce the three-character limit of the input (app/search/page.js:177), since the browser applies it.
- SearchPage.SearchForm.SettleSearch: a response without `data.flights` makes the `.map` throw; the model takes that case as an `Err` outcome from the caller.

## Findings

| source | as written | input that shows it | evidently intended | confidence | as-written member | corrected member |
|---|---|---|---|---|---|---|
| app/_component/protectedRoutes.js:9 | the guard reads `isLoading`, which the session context does not expose, so it is always undefined | open any guarded page while the session is still loading: no user yet, provider `loading` true | wait with the spinner until the session is known, using the provider's `loading` | high (not executed) | RouteGuard.AsWiredRedirectsBeforeSessionKnown | RouteGuard.CorrectedWaitsForSession |
| app/admin/flights/page.js:70-79 | the normalised flight has no `availableSeats` key, so `openEditDialog` fails at `flight.availableSeats.toString()` (line 111) | any flight returned by the flights API, then "Edit" | normalise `availableSeats: flight.availableSeats \|\| 0`, as the page's earlier version did (line 64) | high (not executed) | AdminFlights.EditFetchedFlightAsWritten | AdminFlights.EditFetchedFlight |
