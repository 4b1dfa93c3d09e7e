/** The public availability view (src/components/RoomAvailability.tsx): for each room
    a two-year calendar built from the booking snapshot, the request button gated by
    the room's enabled flag, and the date-range availability test. Days are day
    numbers and "today" is a parameter. */
module RoomAvailability {
  import opened Basics
  import opened BookingService
  import opened Overlap
  import opened RoomSettingsService
  import AdminPanel
  import RoomCalendar

  /** The calendar covers today and the 729 days after it. */
  const CalendarHorizon: nat := 730

  // ---------------------------------------------------------------------------
  // Day classification

  /** The bookings the calendar of `roomId` shows: those of the room that are not cancelled. */
  function ShownFor(roomId: string): Booking -> bool {
    (b: Booking) => b.roomId == roomId && b.status != Cancelled
  }

  /** Booking `b` is shown on the calendar of `roomId` and covers night `d`. */
  predicate ShownCovering(b: Booking, roomId: string, d: int) {
    b.roomId == roomId && b.status != Cancelled && Occupies(b.checkIn, b.checkOut, d)
  }

  /** Position `i` of the snapshot holds the first shown booking covering night `d`. */
  predicate FirstShownCovering(all: seq<Booking>, roomId: string, d: int, i: int) {
    && 0 <= i < |all|
    && ShownCovering(all[i], roomId, d)
    && forall j :: 0 <= j < i ==> !ShownCovering(all[j], roomId, d)
  }

  /** `roomBookings.find(...)`: the first booking whose stay covers night `d`. */
  function FirstCovering(roomBookings: seq<Booking>, d: int): (r: Option<Booking>)
    ensures r.None? <==> forall i :: 0 <= i < |roomBookings| ==> !Occupies(roomBookings[i].checkIn, roomBookings[i].checkOut, d)
    ensures r.Some? ==> r.value in roomBookings && Occupies(r.value.checkIn, r.value.checkOut, d)
  {
    if |roomBookings| == 0 then None
    else if Occupies(roomBookings[0].checkIn, roomBookings[0].checkOut, d) then Some(roomBookings[0])
    else FirstCovering(roomBookings[1..], d)
  }

  /** The calendar entry for night `d`, given the room's shown bookings. */
  function DayEntry(roomBookings: seq<Booking>, roomId: string, d: int): (e: RoomCalendar.BookingDate)
    ensures e.date == d
    ensures e.status == RoomCalendar.Available
            <==> forall i :: 0 <= i < |roomBookings| ==> !Occupies(roomBookings[i].checkIn, roomBookings[i].checkOut, d)
    ensures e.status == RoomCalendar.Available <==> e.roomId.None?
    ensures e.roomId.Some? ==> e.roomId == Some(roomId) && e.guestName.Some?
  {
    match FirstCovering(roomBookings, d)
    case None => RoomCalendar.BookingDate(d, RoomCalendar.Available, None, None)
    case Some(b) =>
      RoomCalendar.BookingDate(d, if b.status == Confirmed then RoomCalendar.Booked else RoomCalendar.Pending,
                               Some(roomId), Some(b.guestName))
  }

  /** `getRoomBookings`: one entry per day for the 730 days from `today` on. */
  method GetRoomBookings(allBookings: seq<Booking>, roomId: string, today: int)
    returns (calendarData: seq<RoomCalendar.BookingDate>)
    ensures |calendarData| == CalendarHorizon
    ensures forall i :: 0 <= i < |calendarData| ==>
      calendarData[i] == DayEntry(Filter(allBookings, ShownFor(roomId)), roomId, today + i)
  {
    var roomBookings := Filter(allBookings, ShownFor(roomId));
    calendarData := [];
    for i := 0 to CalendarHorizon
      invariant |calendarData| == i
      invariant forall k :: 0 <= k < i ==> calendarData[k] == DayEntry(roomBookings, roomId, today + k)
    {
      var date := today + i;
      var bookingForDate := FirstCovering(roomBookings, date);
      if bookingForDate.Some? {
        var status := if bookingForDate.value.status == Confirmed then RoomCalendar.Booked else RoomCalendar.Pending;
        calendarData := calendarData + [RoomCalendar.BookingDate(date, status, Some(roomId), Some(bookingForDate.value.guestName))];
      } else {
        calendarData := calendarData + [RoomCalendar.BookingDate(date, RoomCalendar.Available, None, None)];
      }
    }
  }

  /** Searching the room's shown bookings finds the first shown booking of the whole
      snapshot that covers the night. */
  lemma {:induction false} FirstCoveringOfShown(all: seq<Booking>, roomId: string, d: int)
    ensures FirstCovering(Filter(all, ShownFor(roomId)), d).None?
            <==> forall i :: 0 <= i < |all| ==> !ShownCovering(all[i], roomId, d)
    ensures FirstCovering(Filter(all, ShownFor(roomId)), d).Some? ==>
      exists i :: FirstShownCovering(all, roomId, d, i) && FirstCovering(Filter(all, ShownFor(roomId)), d).value == all[i]
  {
    if |all| > 0 {
      var p := ShownFor(roomId);
      var rest := Filter(all[1..], p);
      FirstCoveringOfShown(all[1..], roomId, d);
      assert forall i :: 1 <= i < |all| ==> all[1..][i - 1] == all[i];
      if ShownCovering(all[0], roomId, d) {
        assert Filter(all, p) == [all[0]] + rest;
        assert FirstShownCovering(all, roomId, d, 0);
      } else {
        assert FirstCovering(Filter(all, p), d) == FirstCovering(rest, d) by {
          if p(all[0]) {
            assert !Occupies(all[0].checkIn, all[0].checkOut, d);
            assert Filter(all, p) == [all[0]] + rest;
            assert ([all[0]] + rest)[1..] == rest;
          } else {
            assert Filter(all, p) == [] + rest;
            assert [] + rest == rest;
          }
        }
        if FirstCovering(rest, d).Some? {
          var i :| FirstShownCovering(all[1..], roomId, d, i) && FirstCovering(rest, d).value == all[1..][i];
          assert FirstShownCovering(all, roomId, d, i + 1);
        }
      }
    }
  }

  /** What a calendar day shows: `Available` when no shown booking of the room covers
      the night; otherwise the first such booking in snapshot order decides, `Booked`
      when it is confirmed and `Pending` when it is pending, and the day carries the
      room and that booking's guest name. */
  lemma DayEntryMeaning(all: seq<Booking>, roomId: string, d: int)
    ensures DayEntry(Filter(all, ShownFor(roomId)), roomId, d).date == d
    ensures DayEntry(Filter(all, ShownFor(roomId)), roomId, d).status == RoomCalendar.Available
            <==> forall i :: 0 <= i < |all| ==> !ShownCovering(all[i], roomId, d)
    ensures DayEntry(Filter(all, ShownFor(roomId)), roomId, d).status == RoomCalendar.Available ==>
      DayEntry(Filter(all, ShownFor(roomId)), roomId, d).roomId.None?
      && DayEntry(Filter(all, ShownFor(roomId)), roomId, d).guestName.None?
    ensures forall i :: FirstShownCovering(all, roomId, d, i) ==>
      && DayEntry(Filter(all, ShownFor(roomId)), roomId, d).status
         == (if all[i].status == Confirmed then RoomCalendar.Booked else RoomCalendar.Pending)
      && DayEntry(Filter(all, ShownFor(roomId)), roomId, d).roomId == Some(roomId)
      && DayEntry(Filter(all, ShownFor(roomId)), roomId, d).guestName == Some(all[i].guestName)
  {
    FirstCoveringOfShown(all, roomId, d);
    forall i, j | FirstShownCovering(all, roomId, d, i) && FirstShownCovering(all, roomId, d, j) ensures i == j {
    }
  }

  /** A stay covers its check-in night and its last night but not its check-out day,
      which the calendar shows free for the next guest. */
  lemma CheckOutDayStaysFree(b: Booking, roomId: string)
    requires b.roomId == roomId && b.status != Cancelled && b.checkIn < b.checkOut
    ensures DayEntry(Filter([b], ShownFor(roomId)), roomId, b.checkIn).status != RoomCalendar.Available
    ensures DayEntry(Filter([b], ShownFor(roomId)), roomId, b.checkOut - 1).status != RoomCalendar.Available
    ensures DayEntry(Filter([b], ShownFor(roomId)), roomId, b.checkOut).status == RoomCalendar.Available
  {
    DayEntryMeaning([b], roomId, b.checkIn);
    DayEntryMeaning([b], roomId, b.checkOut - 1);
    DayEntryMeaning([b], roomId, b.checkOut);
  }

  /** Cancelled bookings and bookings of other rooms never change a calendar day,
      wherever they stand in the snapshot. */
  lemma CalendarIgnoresUnshown(before: seq<Booking>, x: Booking, after: seq<Booking>, roomId: string, d: int)
    requires x.roomId != roomId || x.status == Cancelled
    ensures DayEntry(Filter(before + [x] + after, ShownFor(roomId)), roomId, d)
            == DayEntry(Filter(before + after, ShownFor(roomId)), roomId, d)
  {
    var p := ShownFor(roomId);
    FilterConcat(before + [x], after, p);
    FilterConcat(before, [x], p);
    FilterConcat(before, after, p);
    assert Filter([x], p) == [];
    assert Filter(before + [x] + after, p) == Filter(before, p) + Filter(after, p);
  }

  /** The calendar does not give confirmed bookings precedence: a pending booking listed
      first hides a confirmed booking of the same night, and the day shows `Pending`. */
  lemma PendingListedFirstHidesConfirmed(roomId: string, d: int)
    ensures var pending := Booking(Some("a"), roomId, "", "Ana", "ana@example.com", d, d + 1, 1, None, BookingService.Pending, 2);
            var confirmed := Booking(Some("b"), roomId, "", "Bea", "bea@example.com", d, d + 1, 1, None, Confirmed, 1);
            && ShownCovering(confirmed, roomId, d)
            && DayEntry(Filter([pending, confirmed], ShownFor(roomId)), roomId, d).status == RoomCalendar.Pending
  {
    var pending := Booking(Some("a"), roomId, "", "Ana", "ana@example.com", d, d + 1, 1, None, BookingService.Pending, 2);
    var confirmed := Booking(Some("b"), roomId, "", "Bea", "bea@example.com", d, d + 1, 1, None, Confirmed, 1);
    DayEntryMeaning([pending, confirmed], roomId, d);
    assert FirstShownCovering([pending, confirmed], roomId, d, 0);
  }

  /** A calendar of the shape `getRoomBookings` builds (entry `i` is day `today + i`)
      answers the widget's lookups by position: inside the horizon a day's status is its
      entry's status and its day is in exactly one colour class; outside it every day
      is available. */
  lemma CalendarLookups(calendar: seq<RoomCalendar.BookingDate>, today: int, d: int)
    requires forall i :: 0 <= i < |calendar| ==> calendar[i].date == today + i
    ensures today <= d < today + |calendar| ==>
      && RoomCalendar.GetDateStatus(calendar, d) == calendar[d - today].status
      && RoomCalendar.GetDateBooking(calendar, d) == Some(calendar[d - today])
    ensures today <= d < today + |calendar| ==>
      (d in RoomCalendar.ModifiersOf(calendar).booked <==> calendar[d - today].status == RoomCalendar.Booked)
    ensures !(today <= d < today + |calendar|) ==> RoomCalendar.GetDateStatus(calendar, d) == RoomCalendar.Available
  {
    if today <= d < today + |calendar| {
      assert RoomCalendar.FirstOnDay(calendar, d, d - today);
      RoomCalendar.DayInExactlyOneList(calendar, d - today);
      RoomCalendar.GetDateStatusAgrees(calendar, d);
    }
  }

  // ---------------------------------------------------------------------------
  // The availability test and the request button

  /** `areDatesAvailable`: no confirmed booking of the room overlaps [checkIn, checkOut);
      pending and cancelled bookings and other rooms play no part. */
  function AreDatesAvailable(allBookings: seq<Booking>, roomId: string, checkIn: int, checkOut: int): (ok: bool)
    ensures !ok <==> exists i :: ConfirmedRoomOverlapAt(allBookings, roomId, checkIn, checkOut, i)
  {
    RoomConflictMeaning(allBookings, roomId, checkIn, checkOut);
    !RoomConflict(allBookings, roomId, checkIn, checkOut)
  }

  /** Adding a booking that is not confirmed, or one of another room, never makes a
      range unavailable. */
  lemma AvailabilityIgnoresUnconfirmed(before: seq<Booking>, x: Booking, after: seq<Booking>, roomId: string, checkIn: int, checkOut: int)
    requires x.status != Confirmed || x.roomId != roomId
    ensures AreDatesAvailable(before + [x] + after, roomId, checkIn, checkOut)
            == AreDatesAvailable(before + after, roomId, checkIn, checkOut)
  {
    RoomConflictIgnoresOthers(before, x, after, roomId, checkIn, checkOut);
  }

  /** The request button of a room: enabled by the room's settings entry, and enabled
      when the room has no entry. */
  function BookingButtonEnabled(settings: RoomSettings, roomId: string): (enabled: bool)
    ensures roomId !in settings ==> enabled
    ensures roomId in settings ==> (enabled <==> settings[roomId].enabled)
  {
    if roomId in settings then settings[roomId].enabled else true
  }

  /** The button ignores the cutoff date: setting, moving or clearing it never changes
      the button, so a room past its cutoff still takes requests. */
  lemma ButtonIgnoresCutoff(settings: RoomSettings, roomId: string, other: string, bookingUntil: Option<int>)
    requires other in settings
    ensures BookingButtonEnabled(AdminPanel.WithBookingPeriod(settings, other, bookingUntil), roomId)
            == BookingButtonEnabled(settings, roomId)
  {
  }

  /** The button is at least as permissive as `isRoomEnabled`, and strictly more: a
      room whose cutoff has passed, or that has no entry, still shows an enabled button. */
  lemma ButtonWeakerThanIsRoomEnabled(settings: RoomSettings, roomId: string, now: int)
    ensures IsRoomEnabled(settings, roomId, now) ==> BookingButtonEnabled(settings, roomId)
    ensures BookingButtonEnabled(map[], roomId) && !IsRoomEnabled(map[], roomId, now)
    ensures var past := map[roomId := RoomSetting("Room", true, Some(DayOf(now) - 1))];
            BookingButtonEnabled(past, roomId) && !IsRoomEnabled(past, roomId, now)
  {
  }

  /** The operator's toggle flips the button of that room and of no other. */
  lemma ToggleFlipsButton(settings: RoomSettings, roomId: string, other: string)
    requires roomId in settings
    ensures BookingButtonEnabled(AdminPanel.ToggledSettings(settings, roomId), roomId) == !BookingButtonEnabled(settings, roomId)
    ensures other != roomId ==>
      BookingButtonEnabled(AdminPanel.ToggledSettings(settings, roomId), other) == BookingButtonEnabled(settings, other)
  {
  }

  // ---------------------------------------------------------------------------
  // The view's state

  /** The three rooms the view lists. */
  const Rooms: seq<string> := ["room-1", "room-2", "room-3"]

  class AvailabilityView {
    /** The snapshot last read from the store. */
    var allBookings: seq<Booking>
    /** The settings last read from the settings cell. */
    var roomSettings: RoomSettings
    var selectedRoomId: Option<string>
    var showBookingModal: bool

    constructor (storage: SettingsStorage)
      ensures allBookings == [] && roomSettings == LoadRoomSettings(storage.cell)
      ensures selectedRoomId == None && !showBookingModal
    {
      allBookings := [];
      roomSettings := LoadRoomSettings(storage.cell);
      selectedRoomId := None;
      showBookingModal := false;
    }

    /** The room whose request form is open, if any: the form is drawn under the room
        whose id is selected, and only while the modal flag is set. */
    function OpenForm(): (r: Option<string>)
      reads this
      ensures r.Some? <==> showBookingModal && selectedRoomId.Some? && selectedRoomId.value in Rooms
      ensures r.Some? ==> r == selectedRoomId
    {
      if showBookingModal && selectedRoomId.Some? && selectedRoomId.value in Rooms then selectedRoomId else None
    }

    /** `loadBookings` (on mount, on refresh and after a successful request). */
    method LoadBookings(store: BookingStore)
      modifies this
      ensures IsListing(store.docs, allBookings)
      ensures roomSettings == old(roomSettings) && selectedRoomId == old(selectedRoomId)
      ensures showBookingModal == old(showBookingModal)
    {
      allBookings := store.GetAll();
    }

    /** The settings re-read when another tab writes them. */
    method ReloadSettings(storage: SettingsStorage)
      modifies this
      ensures roomSettings == LoadRoomSettings(storage.cell)
      ensures allBookings == old(allBookings) && selectedRoomId == old(selectedRoomId)
      ensures showBookingModal == old(showBookingModal)
    {
      roomSettings := storage.Load();
    }

    /** A press on a room's request button: a disabled button does nothing; an enabled
        one selects the room and opens its form. */
    method PressRequestButton(roomId: string)
      requires roomId in Rooms
      modifies this
      ensures BookingButtonEnabled(roomSettings, roomId) ==> OpenForm() == Some(roomId)
      ensures !BookingButtonEnabled(roomSettings, roomId) ==>
        selectedRoomId == old(selectedRoomId) && showBookingModal == old(showBookingModal)
      ensures allBookings == old(allBookings) && roomSettings == old(roomSettings)
    {
      if BookingButtonEnabled(roomSettings, roomId) {
        selectedRoomId := Some(roomId);
        showBookingModal := true;
      }
    }

    /** The form's close action. */
    method CloseForm()
      modifies this
      ensures OpenForm() == None && selectedRoomId == old(selectedRoomId)
      ensures allBookings == old(allBookings) && roomSettings == old(roomSettings)
    {
      showBookingModal := false;
    }
  }
}
