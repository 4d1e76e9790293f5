# Park booking front end, modelled in Dafny

This project models the client-side logic of a Next.js front end for booking park safaris. The user picks a slot and a ticket, reviews the booking and enters contact details, pays in two steps (initiate, then verify), and looks back at their booking history. Administrators create users and shows and look up a user's bookings.

The model covers these parts:

- **The booking state container** (`BookingFlow`, `BookingContext`). Each setter of the context is a pure `prev → next` function. The provider is a class holding the booking state, the session and a map that stands in for browser storage. The session is mirrored in the `"park-auth"` storage entry.
- **The unauthorized-handler registry** (`AuthEvents`). It is a set of handler ids. Notification is a loop that records each invocation in a multiset.
- **The request wrapper** (`Api`):
  - the headers it sends, including the bearer credential of section 2.1 of RFC 6750;
  - when a 401 or 403 response signals the registry;
  - how the failure message is chosen;
  - the check for a malformed success body;
  - the query keys of the timing and booking-list calls.
- **The date/time row** (`DateTimeParts`). This covers splitting and joining a local `YYYY-MM-DDTHH:MM:00` value, and the hour and minute pickers.
- **The decision logic of the pages** (`BookPage`, `SummaryPage`, `PaymentPage`, `AdminPage`, `AuthPanel`, `HomePage`, `HistoryPage`, plus the shared `Pagination`). Each page is a class whose fields are the page's state. Its handlers are methods. Every network call is an outcome parameter, either `Ok(value)` or `Err(message)`. Each page keeps a log of the calls it sent, so "no call is made" can be stated directly. Navigation is recorded as the path the router was sent to.

Two modules do not correspond to a source file. `Builtins` models the JavaScript built-ins that the code relies on, such as truthiness, `includes`, `trim`, `String(n)`, `padStart`, `slice`, `find` and `Date` comparisons. `Wrappers` holds `Option` and `Result`.

Two behaviours of the code are easy to misread, and the model follows the code as written:

- On success, `request` rejects a body only when it is `null` or not of type `"object"`. A JSON array is of type `"object"`, so an array body is returned, not rejected as malformed (`Api.Classify`).
- `updateSelection` does not clamp the quantity; only `setQuantity` does. Callers always pass quantities of at least 1. `BookingFlow.QuantityInvariant` states the invariant under exactly that condition.

## Model

| member | source | states |
|---|---|---|
| BookingFlow.DefaultState | src/app/providers/booking-context.tsx:52-56 | the default state has quantity 1, total 0 and empty contact details, and every selection, receipt, payment-method and label field is absent |
| BookingFlow.UpdateSelection | src/app/providers/booking-context.tsx:96-103 | patched fields override, missing ones keep their value; total = (patch price, else previous price, else 0) × (patch quantity, else previous quantity); details, payment method and receipts untouched |
| BookingFlow.SetQuantity | src/app/providers/booking-context.tsx:105-111 | stores n when n ≥ 1 and 1 otherwise; total = (price or 0) × stored quantity; every other field unchanged |
| BookingFlow.SetPaymentMethod | src/app/providers/booking-context.tsx:113-115 | only the payment method changes |
| BookingFlow.SetUserDetails | src/app/providers/booking-context.tsx:117-119 | only the supplied detail fields change; the rest of the details and of the state stay |
| BookingFlow.SetBookingReceipt | src/app/providers/booking-context.tsx:121-127 | bookingId is always set; bookingStatus takes the supplied status or keeps its prior value; nothing else changes |
| BookingFlow.SetPaymentReceipt | src/app/providers/booking-context.tsx:129-140 | paymentId is always set; paymentStatus and bookingStatus each take the supplied value or keep their prior value |
| BookingFlow.SetLoadingLabel | src/app/providers/booking-context.tsx:142-144 | only the loading label changes, and it becomes the given label |
| BookingFlow.ResetBookingFlow | src/app/providers/booking-context.tsx:146-152 | quantity 1, total 0, no selection, receipts or label; user details and payment method carried over |
| BookingFlow.ResetIdempotent | src/app/providers/booking-context.tsx:146-152 | resetting twice equals resetting once |
| BookingFlow.TotalInvariant | src/app/providers/booking-context.tsx:96-152 | total = price × quantity holds after every sequence of setter calls |
| BookingFlow.QuantityInvariant | src/app/providers/booking-context.tsx:96-111 | the quantity stays ≥ 1 through any setter sequence whose selection patches carry quantities ≥ 1 |
| BookingFlow.DetailsOnlyBySetter | src/app/providers/booking-context.tsx:96-152 | no setter other than setUserDetails changes the contact details |
| BookingFlow.PriceThenQuantityScenario | src/app/providers/booking-context.tsx:96-111 | price 500 at quantity 1, then setQuantity(3), gives total 1500 |
| BookingFlow.Persist | src/app/providers/booking-context.tsx:74-81 | the `park-auth` entry is present exactly when the session has a token and then holds the serialized session; other keys untouched |
| BookingFlow.Hydrate | src/app/providers/booking-context.tsx:62-72 | a missing or empty entry gives the empty session; an unparsable one is removed and gives the empty session; otherwise the parsed session |
| BookingFlow.Startup | src/app/providers/booking-context.tsx:61-81 | after start-up, storage mirrors the session; a non-empty session is the parse of the stored entry |
| BookingFlow.CorruptEntryStartup | src/app/providers/booking-context.tsx:62-81 | a corrupt entry gives the empty session, is gone afterwards, and a second start-up changes nothing |
| BookingFlow.StartupStable | src/app/providers/booking-context.tsx:62-81 | if parse inverts stringify, a reload keeps the storage and restores a session with a token (a tokenless one was never stored) |
| BookingContext.Provider.constructor | src/app/providers/booking-context.tsx:60-81 | default booking state, hydrated session, and storage written by the persistence effect |
| BookingContext.Provider.SetAuth | src/app/providers/booking-context.tsx:83-85 | the session becomes the given one and storage is re-persisted; the booking state is unchanged |
| BookingContext.Provider.ClearAuth | src/app/providers/booking-context.tsx:87-89 | empty session, `park-auth` removed, booking state unchanged |
| BookingContext.Provider.Subscribe | src/app/providers/booking-context.tsx:91-94 | registers the provider's session-clearing handler and nothing is invoked |
| BookingContext.Provider.UpdateSelection | src/app/providers/booking-context.tsx:96-103 | the state becomes BookingFlow.UpdateSelection of the old state; the provider invariant is kept |
| BookingContext.Provider.SetQuantity | src/app/providers/booking-context.tsx:105-111 | the state becomes BookingFlow.SetQuantity of the old state; invariant kept |
| BookingContext.Provider.SetPaymentMethod | src/app/providers/booking-context.tsx:113-115 | the state becomes BookingFlow.SetPaymentMethod of the old state |
| BookingContext.Provider.SetUserDetails | src/app/providers/booking-context.tsx:117-119 | the state becomes BookingFlow.SetUserDetails of the old state |
| BookingContext.Provider.SetBookingReceipt | src/app/providers/booking-context.tsx:121-127 | the state becomes BookingFlow.SetBookingReceipt of the old state |
| BookingContext.Provider.SetPaymentReceipt | src/app/providers/booking-context.tsx:129-140 | the state becomes BookingFlow.SetPaymentReceipt of the old state |
| BookingContext.Provider.SetLoadingLabel | src/app/providers/booking-context.tsx:142-144 | the state becomes BookingFlow.SetLoadingLabel of the old state |
| BookingContext.Provider.ResetBookingFlow | src/app/providers/booking-context.tsx:146-152 | the state becomes BookingFlow.ResetBookingFlow of the old state |
| BookingContext.NotifyUnauthorized | src/app/providers/booking-context.tsx:91-94 | every registered handler runs once; if the provider's handler is registered the session is emptied and exactly the "park-auth" entry is removed from storage, else nothing changes |
| AuthEvents.Registry.constructor | src/app/lib/auth-events.ts:3 | the registry starts empty with no invocations |
| AuthEvents.Registry.Register | src/app/lib/auth-events.ts:5-10 | adds the handler (a set keeps one copy) and returns its remover; no handler runs |
| AuthEvents.Registry.Run | src/app/lib/auth-events.ts:7-9 | removes exactly that handler; a second call is a no-op |
| AuthEvents.Registry.Clear | src/app/lib/auth-events.ts:12-18 | with a handler removes only it; without one empties the set |
| AuthEvents.Registry.Notify | src/app/lib/auth-events.ts:20-24 | the invocations grow by exactly the registered set: each registered handler's count rises by one and every other count stays |
| Api.Headers | src/app/lib/api.ts:7-12 | Content-Type application/json always; Authorization "Bearer "+token exactly when the token is non-empty; caller headers override both |
| Api.Field | src/app/lib/api.ts:26-31 | a body field is read only from an object body, and only when present and not null |
| Api.FailureMessage | src/app/lib/api.ts:26-31 | the body's message, else its error, else "Request to "+path+" failed" |
| Api.Classify | src/app/lib/api.ts:20-39 | a failure status rejects with the failure message and the status; a success rejects with "Malformed response from API." exactly when the body (unparsable read as {}) is not object-like, else resolves to the body |
| Api.Request | src/app/lib/api.ts:6-40 | sends Headers(token, extra), returns Classify, and notifies the registry exactly when the status is 401/403 on a failure and the call had a token or is not a login/register call |
| Api.SuccessNeverSignals | src/app/lib/api.ts:21-39 | a success status never signals |
| Api.PublicAuthFailureIsSilent | src/app/lib/api.ts:21-25 | a tokenless login or registration failure never signals |
| Api.UnparsableBodyFallback | src/app/lib/api.ts:20-31 | a failure with an unparsable body gets the generic message |
| Api.ExpiredSessionScenario | src/app/lib/api.ts:21-34 | a bearer call answered 403 with message "expired" fails with "expired", status 403, and signals |
| Api.OptionalEntry | src/app/lib/api.ts:84-85 | a query entry is present only for a truthy (non-zero) number |
| Api.TimingsQuery | src/app/lib/api.ts:79-86 | keys startTime, endTime, limit (default 12), then page and offset only when non-zero |
| Api.BookingsQuery | src/app/lib/api.ts:113-118 | key limit (default 10), then page and offset only when non-zero |
| DateTimeParts.DatePart | src/app/components/DateTimeParts.tsx:18 | at most ten characters; empty for an empty value |
| DateTimeParts.TimePart | src/app/components/DateTimeParts.tsx:19 | at most five characters; empty for an empty value |
| DateTimeParts.Emit | src/app/components/DateTimeParts.tsx:26-33 | empty when either part is empty; else the value starts with the date, then "T", then the time, and ends in ":00" |
| DateTimeParts.SplitAfterEmit | src/app/components/DateTimeParts.tsx:18-33 | a 10-character date and 5-character time emit a local date-time whose slices give them back |
| DateTimeParts.EmitAfterSplit | src/app/components/DateTimeParts.tsx:18-33 | re-emitting the slices of a local date-time gives the same value |
| DateTimeParts.HourPart | src/app/components/DateTimeParts.tsx:71 | at most two characters; empty for an empty time |
| DateTimeParts.MinutePart | src/app/components/DateTimeParts.tsx:72 | at most two characters; empty for an empty time |
| DateTimeParts.HandleHour | src/app/components/DateTimeParts.tsx:74-77 | a chosen 2-character hour reads back, with the old minutes or "00" |
| DateTimeParts.HandleMinute | src/app/components/DateTimeParts.tsx:78-81 | a chosen 2-character minute reads back, with the old hour or "00" |
| DateTimeParts.TwoDigitsOf | src/app/components/DateTimeParts.tsx:6 | `String(n).padStart(2, "0")` is the two decimal digits of n < 100 |
| DateTimeParts.Hours | src/app/components/DateTimeParts.tsx:6 | the hour table has 24 entries |
| DateTimeParts.HoursTable | src/app/components/DateTimeParts.tsx:6 | entry i spells i in two digits; all entries distinct, so the options are exactly "00".."23" |
| DateTimeParts.MinuteOptions | src/app/components/DateTimeParts.tsx:7 | every default minute ("00","15","30","45") is two digits and reads back after being chosen |
| DateTimeParts.DateTimeRow.constructor | src/app/components/DateTimeParts.tsx:17-19 | local date and time start as the slices of the value |
| DateTimeParts.DateTimeRow.Resync | src/app/components/DateTimeParts.tsx:21-24 | a new value resynchronizes both local fields to its slices |
| DateTimeParts.DateTimeRow.ChangeDate | src/app/components/DateTimeParts.tsx:44-47 | stores the date and emits Emit(date, current time) |
| DateTimeParts.DateTimeRow.ChangeTime | src/app/components/DateTimeParts.tsx:54-57 | stores the time and emits Emit(current date, time) |
| DateTimeParts.DateTimeRow.ChooseHour | src/app/components/DateTimeParts.tsx:74-77 | the time becomes HandleHour of the old time and is emitted |
| DateTimeParts.DateTimeRow.ChooseMinute | src/app/components/DateTimeParts.tsx:78-81 | the time becomes HandleMinute of the old time and is emitted |
| BookPage.SelectionRecorded | src/app/book/page.tsx:62-72 | selecting records slot, ids, times, kind (default regular_ticket), price (missing 0), quantity, and total = price × quantity |
| BookPage.AutoSelectKeeps | src/app/book/page.tsx:34-40 | with a ticket already selected, or none open, auto-selection changes nothing |
| BookPage.AutoSelectPicksFirstOpen | src/app/book/page.tsx:34-40 | otherwise it selects the first open ticket of the first show having one, keeping the quantity |
| BookPage.FindFirst | src/app/book/page.tsx:34-36 | `find` returns the first element satisfying the predicate |
| BookPage.CurrentTicket | src/app/book/page.tsx:57-60 | a found ticket has the selected ticket id and belongs to a timing with the selected show id; none without a selection |
| BookPage.CurrentTicketPicksFirst | src/app/book/page.tsx:57-60 | when the first timing with the selected show id holds the selected ticket id, the current ticket is its first such ticket |
| BookPage.CurrentTicketMissing | src/app/book/page.tsx:57-60 | no current ticket when no timing has the show id, or when the first timing that has it holds no ticket with the selected id |
| BookPage.StepperBounds | src/app/book/page.tsx:74-79 | the stepper stores ≥ 1, never more than a remaining count ≥ 1, and max(1, quantity + delta) when no ticket matches |
| BookPage.IncreaseWhenEnabled | src/app/book/page.tsx:191-198 | when "+" is enabled, pressing it adds exactly one |
| BookPage.Page.constructor | src/app/book/page.tsx:22-24 | no timings, no error, loading |
| BookPage.Page.Load | src/app/book/page.tsx:26-50 | requests 30 timings for the week; success shows them and applies AutoSelect; failure shows the message and leaves the selection |
| BookPage.Page.ApplySelection | src/app/book/page.tsx:62-72 | updates the selection with SelectionFor(show, ticket, qty) |
| BookPage.Page.SelectTicket | src/app/book/page.tsx:129-130 | an open (not sold-out) ticket's button selects it at the current quantity |
| BookPage.Page.HandleQuantity | src/app/book/page.tsx:74-79 | stores the stepped quantity capped by the current ticket's remaining count; quantity ≥ 1 |
| BookPage.Page.Proceed | src/app/book/page.tsx:81-87 | without a ticket sets "Pick a safari slot first." and does not navigate; else navigates to /summary, in particular whenever Continue (line 207) is enabled |
| SummaryPage.Validate | src/app/summary/page.tsx:41-48 | the first failing check in order slot, non-blank name, "@" in email, phone empty or ≥ 10, token; None exactly when all pass |
| SummaryPage.EmptyPhonePasses | src/app/summary/page.tsx:45 | an empty phone never yields "Enter a valid phone." |
| SummaryPage.SeedingFillsOnlyEmpty | src/app/summary/page.tsx:32-39 | the session's name/email fill only empty details, never overwrite, phone untouched; seeding again changes nothing |
| SummaryPage.AfterCreate | src/app/summary/page.tsx:60-74 | on success the booking id is the created one and the status the created status or the prior one; on failure no receipt; the loading label is cleared either way; selection, details and payment fields untouched |
| SummaryPage.Page.constructor | src/app/summary/page.tsx:29-30 | no error, no message |
| SummaryPage.Page.Seed | src/app/summary/page.tsx:32-39 | the details become those with the seed patch applied |
| SummaryPage.Page.HandleSubmit | src/app/summary/page.tsx:50-75 | a validation failure sets the error with no call and no state change; else one call with id = showTicketId and the quantity, state = AfterCreate, message and /payment only on success |
| PaymentPage.MethodsTable | src/app/payment/page.tsx:10-14 | exactly three options, upi, netbanking and card, each method once |
| PaymentPage.PayGuard | src/app/payment/page.tsx:51-60 | "Select a payment method." before "Login required before payment."; passes exactly with a method and a token |
| PaymentPage.TwoPhaseReceipts | src/app/payment/page.tsx:62-78 | initiate sets paymentId and status and keeps bookingStatus; a successful verify marks it "paid" with the verify status (else the earlier one); a failed verify keeps the initiate receipt; method and booking id kept; label cleared on every exit |
| PaymentPage.PaidOnlyIfBothSucceed | src/app/payment/page.tsx:62-75 | an unpaid booking becomes "paid" exactly when both calls succeed |
| PaymentPage.Page.constructor | src/app/payment/page.tsx:33 | no error |
| PaymentPage.Page.Choose | src/app/payment/page.tsx:107 | choosing a method sets it |
| PaymentPage.Page.HandlePay | src/app/payment/page.tsx:51-79 | a failing guard sets its message with no call; else calls initiate, then verify only after a successful initiate; state = AfterPay; /history only when both succeed |
| AdminPage.Render | src/app/admin/page.tsx:23-45 | the three panels are mounted exactly for the roles admin and owner, fresh and bound to the provider; any other session gets the access notice |
| AdminPage.PanelStatus | src/app/admin/page.tsx:501-513 | loading over a non-empty error over a non-empty message; nothing otherwise |
| AdminPage.Settled | src/app/admin/page.tsx:54-67 | after a submit loading is false and exactly one of error or message is set, by validation, call failure or success |
| AdminPage.SettledShows | src/app/admin/page.tsx:501-513 | a settled panel displays its error or its success message |
| AdminPage.CreateCheck | src/app/admin/page.tsx:56-59 | create-user passes exactly with "@" in the email and a password of ≥ 5 characters |
| AdminPage.UpdateCheck | src/app/admin/page.tsx:72-75 | update-user passes exactly with "@" in the email |
| AdminPage.UserManagement.constructor | src/app/admin/page.tsx:49-52 | only for an admin session: empty forms with role regular_user, enabled, default panel, create mode |
| AdminPage.UserManagement.SelectMode | src/app/admin/page.tsx:94-97 | switching mode resets the panel |
| AdminPage.UserManagement.SubmitCreate | src/app/admin/page.tsx:54-68 | panel = Settled(CreateCheck, outcome, "User created."); the call is made only when the check passes |
| AdminPage.UserManagement.SubmitUpdate | src/app/admin/page.tsx:70-84 | panel = Settled(UpdateCheck, outcome, "User updated."); the call is made only when the check passes |
| AdminPage.UpdatedTickets | src/app/admin/page.tsx:193-199 | only field k of ticket i changes; all other tickets and fields stay |
| AdminPage.ShowCheck | src/app/admin/page.tsx:203-212 | required-fields error exactly for a blank name or empty time; ordering error exactly when both times are valid and start ≥ end |
| AdminPage.ShowOrderOnValidTimes | src/app/admin/page.tsx:207-212 | on valid times a complete show passes exactly when start < end |
| AdminPage.ShowCreator.constructor | src/app/admin/page.tsx:182-191 | only for an admin session: empty name and times, tickets (1, 20) and (2, 10), default panel |
| AdminPage.ShowCreator.UpdateTicket | src/app/admin/page.tsx:193-199 | the form's tickets become UpdatedTickets; nothing else changes |
| AdminPage.ShowCreator.SetTimes | src/app/admin/page.tsx:227-239 | the start and end rows' emitted values become the form's times |
| AdminPage.ShowCreator.Submit | src/app/admin/page.tsx:201-221 | panel = Settled(ShowCheck, outcome, "Show created."); the call only when the check passes |
| AdminPage.LookupCheck | src/app/admin/page.tsx:276-279 | lookup passes exactly with "@" in the email |
| AdminPage.FetchedMessageReportsCount | src/app/admin/page.tsx:284 | the message starts with digits reading back as the count, then " bookings fetched." |
| AdminPage.Rows | src/app/admin/page.tsx:291-301 | one row per booking in order, status "pending" when the booking has none |
| AdminPage.BookingLookup.constructor | src/app/admin/page.tsx:270-272 | only for an admin session: empty email, default panel, no bookings |
| AdminPage.BookingLookup.Lookup | src/app/admin/page.tsx:274-289 | panel settled with the count message on success; the call only with a valid email; the list replaced only on success |
| AuthPanel.Toggled | src/app/components/AuthPanel.tsx:108 | toggling always changes the mode |
| AuthPanel.ToggleTwice | src/app/components/AuthPanel.tsx:108 | toggling twice restores the mode |
| AuthPanel.AuthCheck | src/app/components/AuthPanel.tsx:22-33 | credentials required first, then "@", then a name only in register mode; None exactly when all pass |
| AuthPanel.NameOnlyForRegister | src/app/components/AuthPanel.tsx:30-33 | in login mode the name does not affect validation |
| AuthPanel.Attempt | src/app/components/AuthPanel.tsx:38-42 | succeeds exactly when login succeeds and, in register mode, registration did; the session is the login's |
| AuthPanel.AttemptCalls | src/app/components/AuthPanel.tsx:38-41 | login mode calls login only; register mode calls register first and login only after it succeeded |
| AuthPanel.Panel.constructor | src/app/components/AuthPanel.tsx:11-15 | login mode, empty form, not busy |
| AuthPanel.Panel.ToggleMode | src/app/components/AuthPanel.tsx:108 | the mode becomes Toggled of the old mode |
| AuthPanel.Panel.HandleSubmit | src/app/components/AuthPanel.tsx:17-51 | a failed check sets the error with no call; else the session is set only from a successful attempt, busy ends false and the label null |
| HomePage.LimitFrom | src/app/page.tsx:156 | an unusable (zero or NaN) page size falls back to 9 |
| HomePage.SelectAtQuantityOne | src/app/page.tsx:72-82 | selecting sets quantity 1, so total = price (missing 0), kind default regular_ticket |
| HomePage.Page.constructor | src/app/page.tsx:26-36 | page 1, limit 9, loading, no timings |
| HomePage.Page.Load | src/app/page.tsx:40-70 | invalid inputs: error, empty list, no request; else one request with the window, limit and page, then list or error; no request is sent exactly when a date is invalid or start is not before end |
| HomePage.Page.SetStart | src/app/page.tsx:135-138 | a new start resets the page to 1 |
| HomePage.Page.SetEnd | src/app/page.tsx:144-147 | a new end resets the page to 1 |
| HomePage.Page.SetLimit | src/app/page.tsx:155-158 | a new limit (LimitFrom) resets the page to 1 |
| HomePage.Page.Previous | src/app/page.tsx:234-235 | pressable only off page 1 and while not loading; the page becomes PreviousPage of the old page |
| HomePage.Page.Next | src/app/page.tsx:242-243 | pressable only after a full page of timings and while not loading; the page goes forward by one |
| HomePage.Page.OnSelect | src/app/page.tsx:72-83 | selects at quantity 1 and navigates to /book |
| Pagination.PreviousPage | src/app/page.tsx:235 | never below 1; one less above page 1 |
| Pagination.NextPage | src/app/page.tsx:243 | strictly increases the page |
| Pagination.PagesStayPositive | src/app/page.tsx:234-243 | any sequence of Previous/Next presses from page ≥ 1 stays ≥ 1 |
| Pagination.NextWhenEnabled | src/app/page.tsx:242-243 | an enabled Next means a full page came back and nothing is loading, and it goes forward exactly one page |
| Pagination.PreviousWhenEnabled | src/app/page.tsx:234-235 | an enabled Previous goes back exactly one page |
| HistoryPage.StatusLabel | src/app/history/page.tsx:69 | a missing or empty status shows "pending", otherwise the status |
| HistoryPage.BookingsOrEmpty | src/app/history/page.tsx:22 | a response without bookings gives the empty list |
| HistoryPage.QueryOfPage | src/app/history/page.tsx:14-21 | every listing query is exactly limit 8 and the current page |
| HistoryPage.Page.constructor | src/app/history/page.tsx:10-14 | page 1, no bookings, not loading |
| HistoryPage.Page.Load | src/app/history/page.tsx:16-31 | no request without a token; otherwise one request for limit 8 and the current page, list replaced on success, error on failure |
| HistoryPage.Page.Previous | src/app/history/page.tsx:87-88 | pressable only off page 1 and while not loading; the page becomes PreviousPage of the old page |
| HistoryPage.Page.Next | src/app/history/page.tsx:94-95 | pressable only after a full page of eight bookings and while not loading; the page goes forward by one |
| Builtins.TrimEmptyIff | src/app/summary/page.tsx:43 | `trim()` yields "" exactly when the string is all whitespace |
| Builtins.NatToString | src/app/admin/page.tsx:284 | `String(n)` is non-empty decimal digits with no leading zero except for 0 |
| Builtins.NatToStringRoundTrip | src/app/admin/page.tsx:284 | the digits of `String(n)` read back as n |
| Builtins.FindIndex | src/app/book/page.tsx:34 | the index of the first element satisfying the predicate, or none when no element does |
| Builtins.DateComparisons | src/app/admin/page.tsx:209 | on valid dates `<` and `>=` are complementary; with an invalid date both are false |

## Left out

- Rendering, CSS, the JSX structure and router internals. Navigation is recorded only as the path pushed.
- React scheduling. Each handler and effect runs to completion as one sequential step. The model does not capture updates from overlapping requests or after unmount, or effects that read stale closure values.
- The HTTP exchange itself (`fetch`, `res.json`, `cache: "no-store"`) and the backend. Each call is an outcome parameter. The endpoint wrappers (`registerUser`, `createBooking`, …) are represented by the call each page logs. `API_BASE` and URL building are not modelled.
- The error fallbacks for thrown values that are not `Error` ("Unable to load slots.", "Payment failed.", …). Every rejection from `request` is an `Error`, so they are unreachable in the model.
- Api.Classify: a non-string `message` or `error` field is kept as a JSON value (`Coerced`). How `new Error(...)` turns it into text with `String` is not modelled.
- `JSON.parse` and `JSON.stringify` of the session are opaque function parameters. A parse result that is valid JSON but not an object is treated like any other parsed session.
- `URLSearchParams` and `encodeURIComponent` encoding. A query is a list of key/value entries. The lookup email's path encoding is not modelled.
- `Date` parsing, time zones and locale formatting. This covers `src/app/lib/dates.ts`, the initial window of the home page, and the formatting of `createdAt` in rows. A date is an optional instant, with `None` standing for an invalid date. The book page's week window arrives as two instants.
- `src/app/lib/format.ts` and `Number()` on string prices. Prices are integers, and a price that is NaN is not modelled.
- Patches with keys that are present but explicitly `undefined`. In the model an absent key and `undefined` are the same.
- The JavaScript number semantics of `total` (floating point) and of the stepper. The model uses unbounded integers.
- The `prev.quantity ?? 1` fallback in `updateSelection`. The quantity is never absent, so this branch cannot be reached.
- Form-field edits (the `onChange` handlers that copy an input into a form field). They are plain field writes. The model takes the forms as they stand when a submit runs.
- The admin page's copies of `DateTimeRow` and `TimeSelect` (lines 396-499). They behave like the shared component, and their `key` remount is equivalent to `Resync`, so only the shared component is modelled.
- `AppShell.tsx`, `layout.tsx`, `Button.tsx`, `Card.tsx`: presentation only. The admin role check is modelled with the admin page.
- The admin lookup rows show `status ?? "pending"`, so an empty status shows as empty. The history page shows `status || "pending"`, so an empty status shows "pending". Both are modelled as written (`AdminPage.Rows`, `HistoryPage.StatusLabel`).
- The unauthorized side effect of page-level calls. In `request`, a 401 or 403 on a call made with a token runs `notifyUnauthorized()`, which empties the session and removes its stored entry (`BookingContext.NotifyUnauthorized` models that step on its own). The page handlers take an outcome without its status and never run it. So their frames keep the session and storage across every failed call, which the program does not do for these statuses.
- String lengths in UTF-16 code units. `phone.length < 10` in the summary check and `password.length < 5` in the user-creation check count UTF-16 code units. The model counts characters. A value with characters outside the Basic Multilingual Plane is longer in the program than in the model. For example, a password of three such characters passes the program's check but fails `AdminPage.CreateCheck`.
