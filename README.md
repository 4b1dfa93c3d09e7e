# Booking rules of the La Casa guesthouse site, in Dafny

The site lets guests request a stay in one of three rooms (room-1 "Room Uno",
room-2 "Room Dos", room-3 "El Sofa") and lets the operator confirm, cancel or
delete requests, switch rooms on and off and set each room's cutoff date. This
project models the rules behind those screens and proves what they guarantee:

- the stay-overlap test, written out with the same three clauses in three places,
  and what it means for stays of at least one night (the half-open intersection
  of [checkIn, checkOut), so a same-day turnover is never a conflict);
- the booking record and the booking store (`basics.dfy`, `booking_service.dfy`):
  the record `saveBooking` builds, and what update, delete and the newest-first
  listing do to a store of documents keyed by id;
- the operator panel (`admin_panel.dfy`, `leaderboard.dfy`): the confirm gate, the
  dashboard counts, the booking list filter, the settings switches and the guest
  leaderboard, whose map-filling loop is proved against a specification built
  from the snapshot's prefixes, with a stable sort and a top-ten cut;
- the public availability view (`room_availability.dfy`, `room_calendar.dfy`):
  the 730-day calendar loop, the calendar widget's lookups and colour classes,
  the date-range availability test and the request button;
- the request form (`booking_modal.dfy`): range check, then conflict check against
  a fresh listing of the store, then the write;
- the room settings (`room_settings_service.dfy`): defaults, the stored cell, and
  the room-enabled test (see Findings);
- the landing page's view state (`index_page.dfy`).

Dates are whole day numbers (days since 1970-01-01, UTC). The current day, the
current instant (milliseconds), the id the store assigns to a new document and
the store clock are parameters.

Two properties of the code shape the public side:

- The calendar takes each day's status from the first covering non-cancelled
  booking in snapshot order; it does not let a confirmed booking outrank a
  pending one (`RoomAvailability.PendingListedFirstHidesConfirmed` shows a day
  that reads pending although a confirmed booking covers it).
- The request form's submit handler has no room-enabled or cutoff check. The only
  room gate on the public side is the request button, which is disabled when the
  room's `enabled` flag is off and ignores the cutoff date
  (`RoomAvailability.ButtonIgnoresCutoff`).

## Model

| member | source | states |
|---|---|---|
| BookingService.StatusName | src/lib/bookingService.ts:24 | every status is stored as one of "pending", "confirmed", "cancelled" |
| BookingService.StatusNameInjective | src/lib/bookingService.ts:24 | distinct statuses have distinct stored names, so the three values are told apart |
| BookingService.TrimEmptyIffBlank | src/lib/bookingService.ts:55 | `trim()` yields "" exactly when every character is white space |
| BookingService.NewRecord | src/lib/bookingService.ts:44-57 | the new record is pending, has no id, copies room, room name, guest name, e-mail, dates and guest count, and keeps the message (untrimmed) exactly when it has a non-white-space character |
| BookingService.NewestFirst | src/lib/bookingService.ts:77 | lists every stored id once, ordered by createdAt, newest first |
| BookingService.BookingStore.Save | src/lib/bookingService.ts:41-68 | adds exactly the record `NewRecord` builds under the fresh id it returns; nothing else changes |
| BookingService.BookingStore.UpdateStatus | src/lib/bookingService.ts:97-108 | on an existing id changes only that document's status; on a missing id fails and changes nothing |
| BookingService.BookingStore.Delete | src/lib/bookingService.ts:111-118 | removes exactly that document |
| BookingService.BookingStore.GetAll | src/lib/bookingService.ts:75-94 | returns every stored document once with its id attached and its fields unchanged, newest first |
| Overlap.Overlaps | src/components/AdminPanel.tsx:147-151 | the three-clause overlap test shared by src/components/BookingModal.tsx:71-75 and src/components/RoomAvailability.tsx:151-155; its meaning is stated by the lemmas below |
| Overlap.OverlapsIsHalfOpenIntersection | src/components/AdminPanel.tsx:147-151 | for well-formed stays the three clauses equal `aIn < bOut && bIn < aOut` |
| Overlap.OverlapsIffSharedNight | src/components/RoomAvailability.tsx:151-155 | for well-formed stays the test holds exactly when some night belongs to both stays |
| Overlap.OverlapsSymmetric | src/components/AdminPanel.tsx:147-151 | for well-formed stays the test does not depend on which stay is the new one |
| Overlap.TurnoverIsNotOverlap | src/components/BookingModal.tsx:71-75 | a stay starting on another's check-out day, or ending on its check-in day, does not overlap it |
| Overlap.NestedStaysOverlap | src/components/BookingModal.tsx:71-75 | a stay overlaps every stay containing it or contained in it |
| Overlap.ConfirmedOverlap | src/components/BookingModal.tsx:64-76 | the `some(...)` test: a confirmed booking of the list overlaps the stay |
| Overlap.RoomConflict | src/components/BookingModal.tsx:61-76 | filter the snapshot by room, then the `some(...)` test; `RoomConflictMeaning` states what it finds |
| Overlap.ConfirmedOverlapIgnoresUnconfirmed | src/components/BookingModal.tsx:64-76 | a booking that is not confirmed never changes the `some(...)` test, wherever it stands |
| Overlap.RoomConflictMeaning | src/components/BookingModal.tsx:61-76 | filtering by room then testing finds a conflict exactly when a confirmed booking of that room overlaps the requested stay |
| Overlap.RoomConflictIgnoresOthers | src/components/BookingModal.tsx:61-65 | pending, cancelled and other-room bookings never change the conflict test |
| RoomSettingsService.DefaultSettings | src/lib/roomSettingsService.ts:13-17 | exactly room-1, room-2, room-3, all enabled, all with cutoff 2024-12-31, with their names |
| RoomSettingsService.LoadRoomSettings | src/lib/roomSettingsService.ts:20-30 | returns the stored settings when usable, otherwise the defaults |
| RoomSettingsService.SettingsStorage.Save | src/lib/roomSettingsService.ts:33-39 | after saving, loading returns exactly the saved settings |
| RoomSettingsService.SettingsStorage.Load | src/lib/roomSettingsService.ts:20-30 | reads the cell, falling back to the defaults when nothing usable is stored |
| RoomSettingsService.IsRoomEnabled | src/lib/roomSettingsService.ts:42-55 | false without an entry or with `enabled` off; false when the instant is past midnight UTC starting the cutoff day; true otherwise |
| RoomSettingsService.ClosedDuringCutoffDay | src/lib/roomSettingsService.ts:48-52 | as written, an enabled room reads disabled at noon of its own cutoff day |
| RoomSettingsService.IsRoomEnabledThroughCutoff | src/lib/roomSettingsService.ts:48-52 | corrected test: enabled only with an entry whose flag is on, treating the cutoff as the last bookable day |
| RoomSettingsService.OpenThroughCutoffDay | src/lib/roomSettingsService.ts:48-52 | corrected test: an enabled room is open at every instant of its cutoff day and closed from the next midnight on |
| RoomSettingsService.AsWrittenImpliesThroughCutoff | src/lib/roomSettingsService.ts:42-55 | whenever the code says enabled, the corrected test does too |
| RoomSettingsService.DefaultsOpenUntilCutoff | src/lib/roomSettingsService.ts:13-17 | corrected test: under the defaults exactly the three rooms are open, up to and including 2024-12-31 |
| RoomSettingsService.DefaultsOpenAsWritten | src/lib/roomSettingsService.ts:13-55 | as written: under the defaults exactly the three rooms are open, up to midnight UTC at the start of 2024-12-31 and not after |
| AdminPanel.WouldCreateConflict | src/components/AdminPanel.tsx:132-153 | some other confirmed booking of the same room overlaps the candidate's stay |
| AdminPanel.ConflictOnlyFromConfirmedRivals | src/components/AdminPanel.tsx:132-142 | pending, cancelled and other-room bookings and the booking itself never cause a conflict |
| AdminPanel.FindById | src/components/AdminPanel.tsx:83 | finds the first booking with the id, or none exactly when no booking has it |
| AdminPanel.FirstWithIdUnique | src/components/AdminPanel.tsx:83 | the booking `find` returns is the only first booking with that id |
| AdminPanel.StatusUpdateAllowed | src/components/AdminPanel.tsx:79-88 | a change to anything but confirmed, or of an unknown id, is never checked; a confirmation is refused exactly when the booking would conflict |
| AdminPanel.ConfirmKeepsStaysDisjoint | src/components/AdminPanel.tsx:82-90 | confirming a booking the gate lets through keeps the confirmed stays of each room pairwise non-overlapping |
| AdminPanel.StatusesPartition | src/components/AdminPanel.tsx:156-161 | pending, confirmed and cancelled counts add up to the number of bookings |
| AdminPanel.StatusCount | src/components/AdminPanel.tsx:156-161 | filtering the snapshot by a status keeps exactly as many bookings as carry that status |
| AdminPanel.Dashboard | src/components/AdminPanel.tsx:156-161 | total is the snapshot size; each of the pending, confirmed and cancelled counts is the number of bookings with that status; the three add up to the total |
| AdminPanel.ToLower | src/components/AdminPanel.tsx:231-232 | same length; A-Z lowered, every other character kept |
| AdminPanel.PassesFilters | src/components/AdminPanel.tsx:220-235 | the room, status, check-in range and search tests of the filter callback, all of which must hold |
| AdminPanel.FilteredBookings | src/components/AdminPanel.tsx:220-235 | an order-preserving subsequence whose every element passes room, status, check-in range and search tests, keeping every passing booking as often as it occurs |
| AdminPanel.DefaultFiltersKeepAll | src/components/AdminPanel.tsx:220-235 | with the filter bar at its initial values every booking is listed |
| AdminPanel.ToggledSettings | src/components/AdminPanel.tsx:54-64 | negates only `enabled` of the room; its other fields and all other rooms unchanged |
| AdminPanel.ToggleTwiceRestores | src/components/AdminPanel.tsx:54-64 | toggling a room twice restores the settings |
| AdminPanel.WithBookingPeriod | src/components/AdminPanel.tsx:67-77 | changes only `bookingUntil` of the room; all else unchanged |
| AdminPanel.LastBookingPeriodWins | src/components/AdminPanel.tsx:67-77 | setting the period twice leaves only the last value |
| AdminPanel.SwitchesCommute | src/components/AdminPanel.tsx:54-77 | a toggle and a period update commute |
| AdminPanel.Panel.constructor | src/components/AdminPanel.tsx:15-19 | starts with no bookings and the loaded settings |
| AdminPanel.Panel.LoadBookings | src/components/AdminPanel.tsx:34-45 | the snapshot becomes a listing of the store |
| AdminPanel.Panel.HandleStatusUpdate | src/components/AdminPanel.tsx:79-101 | blocked exactly when the gate refuses, and then nothing changes; otherwise only the booking's status is written and the snapshot reloaded |
| AdminPanel.Panel.HandleDelete | src/components/AdminPanel.tsx:103-113 | without the operator's agreement nothing changes; with it exactly that document is removed and the snapshot reloaded |
| AdminPanel.Panel.ToggleRoomAvailability | src/components/AdminPanel.tsx:54-64 | shows and saves exactly the toggled settings |
| AdminPanel.Panel.UpdateBookingPeriod | src/components/AdminPanel.tsx:67-77 | shows and saves exactly the settings with the new period |
| Leaderboard.StatOfStep | src/components/AdminPanel.tsx:173-184 | one more confirmed booking adds its nights and one booking to its guest's entry, or opens the entry with its name; other guests and unconfirmed bookings change nothing |
| Leaderboard.BookingCountZeroIffNone | src/components/AdminPanel.tsx:165-186 | a guest has a zero booking count exactly when none of the snapshot's confirmed bookings is theirs |
| Leaderboard.EmailsListsGuestsOnce | src/components/AdminPanel.tsx:165-186 | the map's keys are each guest once, exactly the e-mails with a confirmed booking |
| Leaderboard.FirstNameIsFirstMet | src/components/AdminPanel.tsx:177-183 | the name kept is the one on the guest's first confirmed booking in snapshot order |
| Leaderboard.SortByDaysDescCorrect | src/components/AdminPanel.tsx:188-189 | the ranking is a permutation, non-increasing by nights, and stable among equal nights |
| Leaderboard.InsertByDaysStable | src/components/AdminPanel.tsx:188-189 | inserting one entry never reorders entries with equal nights |
| Leaderboard.Take | src/components/AdminPanel.tsx:190 | keeps the first n entries, or all when there are fewer |
| Leaderboard.AggregateEntries | src/components/AdminPanel.tsx:165-188 | every entry is a distinct guest with the sum of nights and count of their confirmed bookings |
| Leaderboard.RankingEntries | src/components/AdminPanel.tsx:165-189 | the full ranking lists each guest once, with their true totals, non-increasing by nights, and leaves no guest out |
| Leaderboard.Leaderboard | src/components/AdminPanel.tsx:164-191 | the specified `guestLeaderboard` value: the first ten of the ranking, or all of it when shorter |
| Leaderboard.GuestLeaderboard | src/components/AdminPanel.tsx:164-191 | the map-filling loop, sort and cut compute exactly the specified leaderboard |
| Leaderboard.LeaderboardIsTopTen | src/components/AdminPanel.tsx:164-191 | at most ten distinct guests (all when at most ten), each with their true totals, ranked by nights; no guest left out has more nights than any guest shown |
| RoomCalendar.GetDateBooking | src/components/ui/room-calendar.tsx:29-33 | the first entry on that day, or none exactly when no entry is on that day |
| RoomCalendar.GetDateStatus | src/components/ui/room-calendar.tsx:22-27 | the first same-day entry's status, or available when there is none |
| RoomCalendar.GetDateStatusAgrees | src/components/ui/room-calendar.tsx:22-33 | the status shown is the status of the entry found |
| RoomCalendar.Dates | src/components/ui/room-calendar.tsx:36-38 | the days of the entries, position by position |
| RoomCalendar.ModifiersOf | src/components/ui/room-calendar.tsx:35-39 | the three colour classes `modifiers` builds; the lemmas below state what they hold |
| RoomCalendar.ModifiersPartition | src/components/ui/room-calendar.tsx:35-39 | the three colour classes together hold every entry's day exactly once (as multisets) |
| RoomCalendar.ModifiersLengths | src/components/ui/room-calendar.tsx:36-38 | each class is as long as the number of entries with its status |
| RoomCalendar.ModifiersKeepOrder | src/components/ui/room-calendar.tsx:36-38 | each class keeps the entries' order |
| RoomCalendar.DayInList | src/components/ui/room-calendar.tsx:36-38 | a day is in a class exactly when some entry on that day has that status |
| RoomCalendar.DayInExactlyOneList | src/components/ui/room-calendar.tsx:35-39 | with one entry per day, each day is in the class of its status and in no other |
| RoomAvailability.FirstCovering | src/components/RoomAvailability.tsx:108-116 | finds a booking covering the night, or none exactly when no booking covers it |
| RoomAvailability.GetRoomBookings | src/components/RoomAvailability.tsx:93-134 | exactly 730 entries; entry i is the classification of day today + i from the room's non-cancelled bookings |
| RoomAvailability.DayEntry | src/components/RoomAvailability.tsx:108-130 | the entry is for that day; it is available exactly when no given booking covers the day, and exactly then carries no room; otherwise it carries the room and a guest name |
| RoomAvailability.FirstCoveringOfShown | src/components/RoomAvailability.tsx:95-116 | searching the filtered list finds the first shown covering booking of the whole snapshot |
| RoomAvailability.DayEntryMeaning | src/components/RoomAvailability.tsx:108-130 | a day is available exactly when no non-cancelled booking of the room covers it; otherwise the first covering one decides booked (confirmed) or pending, and its guest name is shown |
| RoomAvailability.CheckOutDayStaysFree | src/components/RoomAvailability.tsx:111-115 | a stay covers its check-in day and last night but leaves its check-out day available |
| RoomAvailability.CalendarIgnoresUnshown | src/components/RoomAvailability.tsx:95-97 | cancelled and other-room bookings never change a calendar day |
| RoomAvailability.PendingListedFirstHidesConfirmed | src/components/RoomAvailability.tsx:118-124 | a pending booking listed first makes a day pending although a confirmed booking covers it |
| RoomAvailability.CalendarLookups | src/components/RoomAvailability.tsx:99-104 | on a calendar with entry i at today + i the widget's lookups return entry d - today, its day is in the booked class exactly when it is booked, and days outside read available |
| RoomAvailability.AreDatesAvailable | src/components/RoomAvailability.tsx:137-158 | false exactly when a confirmed booking of the room overlaps the range |
| RoomAvailability.AvailabilityIgnoresUnconfirmed | src/components/RoomAvailability.tsx:144-145 | pending, cancelled and other-room bookings never make a range unavailable |
| RoomAvailability.BookingButtonEnabled | src/components/RoomAvailability.tsx:172 | enabled exactly when the room's entry has `enabled`, and enabled when there is no entry |
| RoomAvailability.ButtonIgnoresCutoff | src/components/RoomAvailability.tsx:172 | changing any cutoff date never changes a button |
| RoomAvailability.ButtonWeakerThanIsRoomEnabled | src/components/RoomAvailability.tsx:172 | the button is enabled whenever `isRoomEnabled` holds, and also for rooms past their cutoff or without an entry |
| RoomAvailability.ToggleFlipsButton | src/components/RoomAvailability.tsx:172 | the operator's toggle flips that room's button and no other |
| RoomAvailability.AvailabilityView.constructor | src/components/RoomAvailability.tsx:50-54 | no bookings, the loaded settings, no room selected, form closed |
| RoomAvailability.AvailabilityView.OpenForm | src/components/RoomAvailability.tsx:175-181 | a room's form is open exactly when the modal flag is set and that listed room is selected |
| RoomAvailability.AvailabilityView.LoadBookings | src/components/RoomAvailability.tsx:57-67 | the snapshot becomes a listing of the store; nothing else changes |
| RoomAvailability.AvailabilityView.ReloadSettings | src/components/RoomAvailability.tsx:83-86 | the settings become what the cell loads |
| RoomAvailability.AvailabilityView.PressRequestButton | src/components/RoomAvailability.tsx:228-233 | an enabled button opens that room's form; a disabled one changes nothing |
| RoomAvailability.AvailabilityView.CloseForm | src/components/RoomAvailability.tsx:178 | no form is open afterwards |
| BookingModal.RoomName | src/components/BookingModal.tsx:28-33 | `getRoomName`; `RoomNameMatchesSettings` states its values |
| BookingModal.RoomNameMatchesSettings | src/components/BookingModal.tsx:28-33 | the three rooms get the default settings' names; any other id "Unknown Room" |
| BookingModal.Draft | src/components/BookingModal.tsx:84-93 | copies room, name, e-mail, dates and guests; message absent exactly when the field is empty; phone dropped |
| BookingModal.SubmittedRecord | src/components/BookingModal.tsx:84-95 | the stored record is pending, carries the form's data, and keeps the message exactly when it is not blank |
| BookingModal.ListingConflict | src/components/BookingModal.tsx:60-61 | testing a fresh listing is testing the store |
| BookingModal.HandleSubmit | src/components/BookingModal.tsx:44-105 | rejected for the range exactly when checkIn >= checkOut (store untouched); otherwise rejected for a conflict exactly when a stored confirmed booking of the room overlaps; otherwise exactly the new pending record is added |
| BookingModal.OnlyConfirmedSameRoomBlocks | src/components/BookingModal.tsx:61-65 | a pending, cancelled or other-room booking never changes the verdict |
| BookingModal.TurnoverAccepted | src/components/BookingModal.tsx:71-75 | a request that only touches confirmed stays at check-in/check-out days is not refused |
| BookingModal.SharedNightRefused | src/components/BookingModal.tsx:71-75 | a request sharing a night with a confirmed stay of the room is refused |
| IndexPage.Index.constructor | src/pages/Index.tsx:11-13 | no room selected, operator area closed, not authenticated |
| IndexPage.Index.CurrentView | src/pages/Index.tsx:46-62 | panel exactly when open and authenticated; password prompt exactly when open and not; public page otherwise, with the page's form exactly when a non-empty room id is selected |
| IndexPage.Index.HandleAdminClick | src/pages/Index.tsx:15-21 | toggles the operator area when authenticated, otherwise opens it; nothing else changes |
| IndexPage.Index.HandleAuthenticated | src/pages/Index.tsx:23-25 | sets authenticated; nothing else changes |
| IndexPage.Index.HandleCloseAdmin | src/pages/Index.tsx:27-30 | closes the operator area and keeps authentication |
| IndexPage.Index.SelectRoom | src/pages/Index.tsx:55 | selects the room; nothing else changes |
| IndexPage.Index.CloseBookingModal | src/pages/Index.tsx:60 | clears the selection; nothing else changes |
| IndexPage.Index.Handle | src/pages/Index.tsx:15-30 | each event has its handler's effect; only the password event sets authentication and none resets it |
| IndexPage.Index.Run | src/pages/Index.tsx:13-30 | after a session the operator is authenticated exactly when they were before or the password was accepted on the way |
| IndexPage.TwoClicksRestoreScreen | src/pages/Index.tsx:15-21 | once authenticated, two corner-button clicks bring back the same screen |
| IndexPage.SessionFromStart | src/pages/Index.tsx:46-48 | from a fresh page the panel is never shown unless the password was accepted |

## Left out

- Firestore itself (configuration, network, `addDoc`/`getDocs`/`updateDoc`/`deleteDoc`): the collection is a map from document id to fields. Store failures (the generic error alerts) are not modelled, except `updateDoc` on a missing document, which fails without change.
- Document id generation and the store clock: the new id and `createdAt` are parameters of `BookingService.BookingStore.Save`.
- BookingService.BookingStore.GetAll: the order among documents with equal `createdAt` is left open.
- The e-mail notification stubs (src/lib/bookingService.ts:121-127) do nothing and are not modelled.
- `localStorage`: the settings cell is a three-way value (absent, unparsable, some settings); `JSON.parse` of text that is valid JSON but not a settings object is not modelled.
- AdminPanel.Panel.ToggleRoomAvailability and AdminPanel.Panel.UpdateBookingPeriod require the room to have a settings entry, as every switch the panel draws does; the panel draws one per entry.
- AdminPanel.Panel.UpdateBookingPeriod: a cleared date field (the empty string) is the absent cutoff `None`, which is how `isRoomEnabled` reads it.
- The 30-second polling refresh and the `storage` event listener of the availability view: timers and browser events; `RoomAvailability.AvailabilityView.ReloadSettings` is what the listener does.
- Clock and time zones: "today", `format(..., 'yyyy-MM-dd')`, parsing of date strings and `Math.ceil` over milliseconds are replaced by day numbers; a stay's nights are checkOut - checkIn. Date fields left empty are not modelled (the form fields are required).
- `parseInt` of the guest count: the form's guest count is already a number.
- AdminPanel.ToLower: lowers only A-Z; `toLowerCase` on other letters is not modelled.
- JSX rendering, styling, `alert`/`confirm` dialogs, toasts, loading and submitting flags, tabs, `getRoomDescription` and the optional `totalPrice` field.
- The operator's password screen (src/components/AdminAuth.tsx): its outcome is the `PasswordAccepted` event of the page.
- The page-level request form of src/pages/Index.tsx is never opened by the availability view (it does not call `onBookRoom`); `IndexPage.Index.SelectRoom` models the callback anyway.
- `areDatesAvailable` is defined but not called by the view; it is modelled as written.
- IndexPage.Index.HandleCloseAdmin: the page hands `onClose` to the operator panel, but the panel (src/components/AdminPanel.tsx:14) takes no props and never calls it; the handler and the `AdminClosed` event are modelled anyway.
- `isRoomEnabled` has no caller in the modelled files, so the finding below has no visible effect on the current pages.
- Two operators confirming against stale snapshots at the same time: a concurrency question outside this sequential model.

## Findings

| source | as written | input that shows it | evidently intended | confidence | as-written member | corrected member |
|---|---|---|---|---|---|---|
| src/lib/roomSettingsService.ts:48-52 | `today > new Date(bookingUntil)` compares the current instant with midnight UTC at the start of the cutoff day | an enabled room with cutoff 2024-12-31, checked at 12:00 UTC on 2024-12-31, reads as disabled | the cutoff is the last date on which requests are accepted, so the room stays enabled through that whole day | medium, not executed | RoomSettingsService.ClosedDuringCutoffDay | RoomSettingsService.OpenThroughCutoffDay |
