/** The operator panel (src/components/AdminPanel.tsx): the conflict gate in front of
    confirming a booking, the dashboard counts, the booking list filter, and the
    room-settings switches. The panel's own state (the booking snapshot and the
    settings it shows) is the class `Panel`; the guest leaderboard is in
    leaderboard.dfy. */
module AdminPanel {
  import opened Basics
  import opened BookingService
  import opened RoomSettingsService
  import opened Overlap

  // ---------------------------------------------------------------------------
  // The confirm gate

  /** A booking `wouldCreateConflict` compares against: another booking (by id) of the
      same room that is already confirmed. */
  predicate IsConflictSource(other: Booking, candidate: Booking) {
    other.id != candidate.id && other.status == Confirmed && other.roomId == candidate.roomId
  }

  /** `wouldCreateConflict`: some conflict source's stay overlaps the candidate's. */
  predicate WouldCreateConflict(bookings: seq<Booking>, candidate: Booking) {
    exists i :: 0 <= i < |bookings| && IsConflictSource(bookings[i], candidate)
      && Overlaps(candidate.checkIn, candidate.checkOut, bookings[i].checkIn, bookings[i].checkOut)
  }

  /** Pending, cancelled and other-room bookings, and the candidate's own record, never
      cause a conflict: adding one anywhere in the snapshot changes nothing. */
  lemma ConflictOnlyFromConfirmedRivals(before: seq<Booking>, x: Booking, after: seq<Booking>, candidate: Booking)
    requires !IsConflictSource(x, candidate)
    ensures WouldCreateConflict(before + [x] + after, candidate) <==> WouldCreateConflict(before + after, candidate)
  {
    var s, t := before + [x] + after, before + after;
    if WouldCreateConflict(s, candidate) {
      var i :| 0 <= i < |s| && IsConflictSource(s[i], candidate)
        && Overlaps(candidate.checkIn, candidate.checkOut, s[i].checkIn, s[i].checkOut);
      var j := if i < |before| then i else i - 1;
      assert t[j] == s[i];
    }
    if WouldCreateConflict(t, candidate) {
      var j :| 0 <= j < |t| && IsConflictSource(t[j], candidate)
        && Overlaps(candidate.checkIn, candidate.checkOut, t[j].checkIn, t[j].checkOut);
      var i := if j < |before| then j else j + 1;
      assert s[i] == t[j];
    }
  }

  /** Position `i` holds the first booking with id `bookingId`. */
  predicate IsFirstWithId(bookings: seq<Booking>, bookingId: string, i: int) {
    && 0 <= i < |bookings|
    && bookings[i].id == Some(bookingId)
    && forall j :: 0 <= j < i ==> bookings[j].id != Some(bookingId)
  }

  /** `bookings.find(b => b.id === bookingId)`: the first booking with that id. */
  function FindById(bookings: seq<Booking>, bookingId: string): (r: Option<Booking>)
    ensures r.None? <==> forall i :: 0 <= i < |bookings| ==> bookings[i].id != Some(bookingId)
    ensures r.Some? ==> exists i :: IsFirstWithId(bookings, bookingId, i) && bookings[i] == r.value
  {
    if |bookings| == 0 then None
    else if bookings[0].id == Some(bookingId) then
      assert IsFirstWithId(bookings, bookingId, 0);
      Some(bookings[0])
    else
      var r := FindById(bookings[1..], bookingId);
      if r.Some? then
        var i :| IsFirstWithId(bookings[1..], bookingId, i) && bookings[1..][i] == r.value;
        assert IsFirstWithId(bookings, bookingId, i + 1) && bookings[i + 1] == r.value;
        r
      else
        r
  }

  /** The check `handleStatusUpdate` makes before writing: only a change to `confirmed`
      of a booking found in the snapshot is checked, and it is refused when that
      booking would conflict. */
  function StatusUpdateAllowed(bookings: seq<Booking>, bookingId: string, newStatus: Status): (allowed: bool)
    ensures newStatus != Confirmed ==> allowed
    ensures FindById(bookings, bookingId).None? ==> allowed
    ensures !allowed <==> (newStatus == Confirmed &&
              exists i :: IsFirstWithId(bookings, bookingId, i) && WouldCreateConflict(bookings, bookings[i]))
  {
    var found := FindById(bookings, bookingId);
    if newStatus == Confirmed && found.Some? then
      ghost var i :| IsFirstWithId(bookings, bookingId, i) && bookings[i] == found.value;
      FirstWithIdUnique(bookings, bookingId, i);
      !WouldCreateConflict(bookings, found.value)
    else
      true
  }

  lemma FirstWithIdUnique(bookings: seq<Booking>, bookingId: string, i: int)
    requires IsFirstWithId(bookings, bookingId, i)
    ensures forall k :: IsFirstWithId(bookings, bookingId, k) ==> k == i
  {
  }

  /** The rule the gate is there for: confirmed stays of one room never share a night. */
  ghost predicate ConfirmedStaysDisjoint(bookings: seq<Booking>) {
    forall i, j :: 0 <= i < |bookings| && 0 <= j < |bookings| && i != j
      && bookings[i].status == Confirmed && bookings[j].status == Confirmed
      && bookings[i].roomId == bookings[j].roomId
      ==> !Overlaps(bookings[i].checkIn, bookings[i].checkOut, bookings[j].checkIn, bookings[j].checkOut)
  }

  /** Every booking has its own id and a stay of at least one night, as a snapshot
      read from the store of bookings made through the request form does. */
  ghost predicate WellFormedSnapshot(bookings: seq<Booking>) {
    && (forall i :: 0 <= i < |bookings| ==> bookings[i].id.Some? && bookings[i].checkIn < bookings[i].checkOut)
    && (forall i, j :: 0 <= i < j < |bookings| ==> bookings[i].id != bookings[j].id)
  }

  /** Confirming a booking the gate lets through keeps confirmed stays disjoint. */
  lemma ConfirmKeepsStaysDisjoint(bookings: seq<Booking>, k: int)
    requires WellFormedSnapshot(bookings) && ConfirmedStaysDisjoint(bookings)
    requires 0 <= k < |bookings|
    requires StatusUpdateAllowed(bookings, bookings[k].id.value, Confirmed)
    ensures ConfirmedStaysDisjoint(bookings[k := bookings[k].(status := Confirmed)])
  {
    var id := bookings[k].id.value;
    assert IsFirstWithId(bookings, id, k);
    assert !WouldCreateConflict(bookings, bookings[k]);
    var after := bookings[k := bookings[k].(status := Confirmed)];
    forall i, j | 0 <= i < |after| && 0 <= j < |after| && i != j
      && after[i].status == Confirmed && after[j].status == Confirmed && after[i].roomId == after[j].roomId
      ensures !Overlaps(after[i].checkIn, after[i].checkOut, after[j].checkIn, after[j].checkOut)
    {
      if i == k {
        assert !(IsConflictSource(bookings[j], bookings[k])
          && Overlaps(bookings[k].checkIn, bookings[k].checkOut, bookings[j].checkIn, bookings[j].checkOut));
      } else if j == k {
        assert !(IsConflictSource(bookings[i], bookings[k])
          && Overlaps(bookings[k].checkIn, bookings[k].checkOut, bookings[i].checkIn, bookings[i].checkOut));
        OverlapsSymmetric(bookings[k].checkIn, bookings[k].checkOut, bookings[i].checkIn, bookings[i].checkOut);
      }
    }
  }

  // ---------------------------------------------------------------------------
  // Dashboard counts

  /** The bookings with status `s`. */
  function WithStatus(s: Status): Booking -> bool {
    (b: Booking) => b.status == s
  }

  /** The statuses of the snapshot, booking by booking. */
  function Statuses(bookings: seq<Booking>): (r: seq<Status>)
    ensures |r| == |bookings|
    ensures forall i :: 0 <= i < |r| ==> r[i] == bookings[i].status
  {
    seq(|bookings|, i requires 0 <= i < |bookings| => bookings[i].status)
  }

  /** Filtering by a status keeps as many bookings as carry that status. */
  lemma {:induction false} StatusCount(bookings: seq<Booking>, s: Status)
    ensures |Filter(bookings, WithStatus(s))| == multiset(Statuses(bookings))[s]
  {
    if |bookings| > 0 {
      StatusCount(bookings[1..], s);
      assert Statuses(bookings) == [bookings[0].status] + Statuses(bookings[1..]);
    }
  }

  datatype DashboardStats = DashboardStats(
    totalBookings: nat, pendingBookings: nat, confirmedBookings: nat, cancelledBookings: nat)

  /** Each booking has exactly one of the three statuses. */
  lemma {:induction false} StatusesPartition(bookings: seq<Booking>)
    ensures |Filter(bookings, WithStatus(Pending))| + |Filter(bookings, WithStatus(Confirmed))|
            + |Filter(bookings, WithStatus(Cancelled))| == |bookings|
  {
    if |bookings| > 0 {
      StatusesPartition(bookings[1..]);
    }
  }

  /** `dashboardStats`: the snapshot size and, for each status, the number of bookings
      that carry it; the three counts add up to the total. */
  function Dashboard(bookings: seq<Booking>): (d: DashboardStats)
    ensures d.totalBookings == |bookings|
    ensures d.pendingBookings == multiset(Statuses(bookings))[Pending]
    ensures d.confirmedBookings == multiset(Statuses(bookings))[Confirmed]
    ensures d.cancelledBookings == multiset(Statuses(bookings))[Cancelled]
    ensures d.pendingBookings + d.confirmedBookings + d.cancelledBookings == d.totalBookings
  {
    StatusesPartition(bookings);
    StatusCount(bookings, Pending);
    StatusCount(bookings, Confirmed);
    StatusCount(bookings, Cancelled);
    DashboardStats(|bookings|, |Filter(bookings, WithStatus(Pending))|,
                   |Filter(bookings, WithStatus(Confirmed))|, |Filter(bookings, WithStatus(Cancelled))|)
  }

  // ---------------------------------------------------------------------------
  // The booking list filter

  /** The filter bar: room and status selectors ("all" or a value), an optional
      check-in range, and a search text ("" for none). */
  datatype BookingFilters = BookingFilters(
    roomFilter: string, statusFilter: string, dateFrom: Option<int>, dateTo: Option<int>, search: string)

  /** The filter bar's initial state, which its reset button restores. */
  const DefaultFilters := BookingFilters("all", "all", None, None, "")

  /** `toLowerCase`, on the letters A to Z. */
  function ToLower(s: string): (r: string)
    ensures |r| == |s|
    ensures forall i :: 0 <= i < |s| ==> r[i] == (if 'A' <= s[i] <= 'Z' then (s[i] as int + 32) as char else s[i])
  {
    if |s| == 0 then []
    else [if 'A' <= s[0] <= 'Z' then (s[0] as int + 32) as char else s[0]] + ToLower(s[1..])
  }

  predicate OccursAt(text: string, part: string, i: int) {
    0 <= i && i + |part| <= |text| && text[i..i + |part|] == part
  }

  /** `text.includes(part)`. */
  predicate Includes(text: string, part: string) {
    exists i :: 0 <= i <= |text| - |part| && OccursAt(text, part, i)
  }

  /** The search test: the lower-cased name or e-mail contains the lower-cased search text. */
  predicate MatchesSearch(b: Booking, search: string) {
    Includes(ToLower(b.guestName), ToLower(search)) || Includes(ToLower(b.guestEmail), ToLower(search))
  }

  /** The tests of `filteredBookings`, in the program's order. */
  predicate PassesFilters(f: BookingFilters, b: Booking) {
    && (f.roomFilter == "all" || b.roomId == f.roomFilter)
    && (f.statusFilter == "all" || StatusName(b.status) == f.statusFilter)
    && (f.dateFrom.None? || b.checkIn >= f.dateFrom.value)
    && (f.dateTo.None? || b.checkIn <= f.dateTo.value)
    && (f.search == "" || MatchesSearch(b, f.search))
  }

  function FilterTest(f: BookingFilters): Booking -> bool {
    b => PassesFilters(f, b)
  }

  /** `filteredBookings`: the bookings that pass every test, in snapshot order. */
  function FilteredBookings(bookings: seq<Booking>, f: BookingFilters): (r: seq<Booking>)
    ensures IsSubsequence(r, bookings)
    ensures forall i :: 0 <= i < |r| ==> PassesFilters(f, r[i])
    ensures forall b :: multiset(r)[b] == if PassesFilters(f, b) then multiset(bookings)[b] else 0
  {
    FilterIsSubsequence(bookings, FilterTest(f));
    FilterMultiset(bookings, FilterTest(f));
    Filter(bookings, FilterTest(f))
  }

  /** With the filter bar at its defaults every booking is listed. */
  lemma DefaultFiltersKeepAll(bookings: seq<Booking>)
    ensures FilteredBookings(bookings, DefaultFilters) == bookings
  {
    FilterKeepsAll(bookings, FilterTest(DefaultFilters));
  }

  // ---------------------------------------------------------------------------
  // Room settings switches

  /** The settings after `toggleRoomAvailability(roomId)`. */
  function ToggledSettings(settings: RoomSettings, roomId: string): (r: RoomSettings)
    requires roomId in settings
    ensures r.Keys == settings.Keys
    ensures r[roomId].enabled == !settings[roomId].enabled
    ensures r[roomId].name == settings[roomId].name && r[roomId].bookingUntil == settings[roomId].bookingUntil
    ensures forall k :: k in settings && k != roomId ==> r[k] == settings[k]
  {
    settings[roomId := settings[roomId].(enabled := !settings[roomId].enabled)]
  }

  /** Toggling a room twice restores the settings. */
  lemma ToggleTwiceRestores(settings: RoomSettings, roomId: string)
    requires roomId in settings
    ensures ToggledSettings(ToggledSettings(settings, roomId), roomId) == settings
  {
    var twice := ToggledSettings(ToggledSettings(settings, roomId), roomId);
    assert twice[roomId] == settings[roomId];
  }

  /** The settings after `updateBookingPeriod(roomId, bookingUntil)`; `None` is the
      cleared date field. */
  function WithBookingPeriod(settings: RoomSettings, roomId: string, bookingUntil: Option<int>): (r: RoomSettings)
    requires roomId in settings
    ensures r.Keys == settings.Keys
    ensures r[roomId].bookingUntil == bookingUntil
    ensures r[roomId].name == settings[roomId].name && r[roomId].enabled == settings[roomId].enabled
    ensures forall k :: k in settings && k != roomId ==> r[k] == settings[k]
  {
    settings[roomId := settings[roomId].(bookingUntil := bookingUntil)]
  }

  /** Setting a room's period twice leaves only the last value. */
  lemma LastBookingPeriodWins(settings: RoomSettings, roomId: string, first: Option<int>, second: Option<int>)
    requires roomId in settings
    ensures WithBookingPeriod(WithBookingPeriod(settings, roomId, first), roomId, second)
            == WithBookingPeriod(settings, roomId, second)
  {
  }

  /** The two switches touch different fields, so their order does not matter. */
  lemma SwitchesCommute(settings: RoomSettings, roomId: string, other: string, bookingUntil: Option<int>)
    requires roomId in settings && other in settings
    ensures ToggledSettings(WithBookingPeriod(settings, other, bookingUntil), roomId)
            == WithBookingPeriod(ToggledSettings(settings, roomId), other, bookingUntil)
  {
    var a := ToggledSettings(WithBookingPeriod(settings, other, bookingUntil), roomId);
    var b := WithBookingPeriod(ToggledSettings(settings, roomId), other, bookingUntil);
    assert a[roomId] == b[roomId] && a[other] == b[other];
  }

  // ---------------------------------------------------------------------------
  // The panel's state and its handlers

  datatype UpdateOutcome = Blocked | Updated | Failed

  class Panel {
    /** The snapshot last read from the store. */
    var bookings: seq<Booking>
    /** The settings shown, as last loaded or saved. */
    var roomSettings: RoomSettings

    constructor (storage: SettingsStorage)
      ensures bookings == [] && roomSettings == LoadRoomSettings(storage.cell)
    {
      bookings := [];
      roomSettings := LoadRoomSettings(storage.cell);
    }

    /** `loadBookings`: replace the snapshot by a fresh listing of the store. */
    method LoadBookings(store: BookingStore)
      modifies this
      ensures IsListing(store.docs, bookings) && roomSettings == old(roomSettings)
    {
      bookings := store.GetAll();
    }

    /** `handleStatusUpdate`: refused when the gate says so; otherwise the status is
        written and the snapshot reloaded. A write to a missing document fails and
        changes nothing. */
    method HandleStatusUpdate(store: BookingStore, bookingId: string, newStatus: Status) returns (outcome: UpdateOutcome)
      modifies this, store
      ensures outcome == Blocked <==> !StatusUpdateAllowed(old(bookings), bookingId, newStatus)
      ensures outcome == Updated ==> bookingId in old(store.docs)
      ensures outcome == Updated ==>
        store.docs == old(store.docs)[bookingId := old(store.docs)[bookingId].(status := newStatus)]
      ensures outcome == Updated ==> IsListing(store.docs, bookings)
      ensures outcome != Updated ==> store.docs == old(store.docs) && bookings == old(bookings)
      ensures outcome == Failed ==> bookingId !in old(store.docs)
      ensures roomSettings == old(roomSettings)
    {
      if !StatusUpdateAllowed(bookings, bookingId, newStatus) {
        return Blocked;
      }
      var ok := store.UpdateStatus(bookingId, newStatus);
      if !ok {
        return Failed;
      }
      LoadBookings(store);
      outcome := Updated;
    }

    /** `handleDelete`: after the operator agrees, remove the document and reload. */
    method HandleDelete(store: BookingStore, bookingId: string, operatorAgrees: bool)
      modifies this, store
      ensures !operatorAgrees ==> store.docs == old(store.docs) && bookings == old(bookings)
      ensures operatorAgrees ==> store.docs == old(store.docs) - {bookingId} && IsListing(store.docs, bookings)
      ensures roomSettings == old(roomSettings)
    {
      if !operatorAgrees {
        return;
      }
      store.Delete(bookingId);
      LoadBookings(store);
    }

    /** `toggleRoomAvailability`: flip the room's flag, save, and show the new settings. */
    method ToggleRoomAvailability(storage: SettingsStorage, roomId: string)
      requires roomId in roomSettings
      modifies this, storage
      ensures roomSettings == ToggledSettings(old(roomSettings), roomId)
      ensures storage.cell == Encoded(roomSettings) && bookings == old(bookings)
    {
      var newSettings := ToggledSettings(roomSettings, roomId);
      storage.Save(newSettings);
      roomSettings := newSettings;
    }

    /** `updateBookingPeriod`: set the room's cutoff, save, and show the new settings. */
    method UpdateBookingPeriod(storage: SettingsStorage, roomId: string, bookingUntil: Option<int>)
      requires roomId in roomSettings
      modifies this, storage
      ensures roomSettings == WithBookingPeriod(old(roomSettings), roomId, bookingUntil)
      ensures storage.cell == Encoded(roomSettings) && bookings == old(bookings)
    {
      var newSettings := WithBookingPeriod(roomSettings, roomId, bookingUntil);
      storage.Save(newSettings);
      roomSettings := newSettings;
    }
  }
}
