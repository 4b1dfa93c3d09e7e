/** The public request form (src/components/BookingModal.tsx): on submit it checks the
    date range, then reads the store and refuses dates that overlap a confirmed
    booking of the room, and only then writes a new pending booking. Dates are day
    numbers; the id the store assigns and the store clock are parameters. */
module BookingModal {
  import opened Basics
  import opened BookingService
  import opened Overlap
  import RoomSettingsService

  /** `getRoomName`. */
  function RoomName(id: string): string {
    if id == "room-1" then "Room Uno"
    else if id == "room-2" then "Room Dos"
    else if id == "room-3" then "El Sofa"
    else "Unknown Room"
  }

  /** The form names each default room as the default settings do, and every other
      id "Unknown Room". */
  lemma RoomNameMatchesSettings(id: string)
    ensures id in RoomSettingsService.DefaultSettings() ==> RoomName(id) == RoomSettingsService.DefaultSettings()[id].name
    ensures id !in RoomSettingsService.DefaultSettings() ==> RoomName(id) == "Unknown Room"
  {
  }

  /** The fields of the form; the date fields are day numbers and `guests` is the
      number the guests field parses to. */
  datatype RequestForm = RequestForm(
    guestName: string,
    email: string,
    phone: string,
    checkIn: int,
    checkOut: int,
    guests: int,
    message: string)

  /** The draft handed to `saveBooking`: an empty message becomes absent, and the
      phone number is not passed on. */
  function Draft(roomId: string, form: RequestForm): (data: BookingFormData)
    ensures data.roomId == roomId && data.roomName == RoomName(roomId)
    ensures data.guestName == form.guestName && data.guestEmail == form.email
    ensures data.checkIn == form.checkIn && data.checkOut == form.checkOut && data.guests == form.guests
    ensures data.message.None? <==> form.message == ""
    ensures data.message.Some? ==> data.message.value == form.message
  {
    BookingFormData(roomId, RoomName(roomId), form.guestName, form.email, form.checkIn, form.checkOut,
                    form.guests, if form.message == "" then None else Some(form.message))
  }

  /** The record a submitted form leads to: pending, carrying the room, the guest, the
      stay and the guest count of the form, with the message kept exactly when it has
      a character that is not white space. */
  lemma SubmittedRecord(roomId: string, form: RequestForm, now: int)
    ensures NewRecord(Draft(roomId, form), now).status == Pending
    ensures NewRecord(Draft(roomId, form), now).roomId == roomId
    ensures NewRecord(Draft(roomId, form), now).roomName == RoomName(roomId)
    ensures NewRecord(Draft(roomId, form), now).guestName == form.guestName
    ensures NewRecord(Draft(roomId, form), now).guestEmail == form.email
    ensures NewRecord(Draft(roomId, form), now).checkIn == form.checkIn
    ensures NewRecord(Draft(roomId, form), now).checkOut == form.checkOut
    ensures NewRecord(Draft(roomId, form), now).guests == form.guests
    ensures NewRecord(Draft(roomId, form), now).message == if IsBlank(form.message) then None else Some(form.message)
  {
    if form.message == "" {
      assert IsBlank(form.message);
    }
  }

  /** Some stored booking of room `roomId` is confirmed and overlaps [checkIn, checkOut). */
  predicate StoreConflict(docs: map<string, Booking>, roomId: string, checkIn: int, checkOut: int) {
    exists k :: k in docs && docs[k].roomId == roomId && docs[k].status == Confirmed
      && Overlaps(checkIn, checkOut, docs[k].checkIn, docs[k].checkOut)
  }

  /** The conflict test on a listing of the store is the conflict test on the store. */
  lemma ListingConflict(docs: map<string, Booking>, listing: seq<Booking>, roomId: string, checkIn: int, checkOut: int)
    requires IsListing(docs, listing)
    ensures RoomConflict(listing, roomId, checkIn, checkOut) <==> StoreConflict(docs, roomId, checkIn, checkOut)
  {
    RoomConflictMeaning(listing, roomId, checkIn, checkOut);
    if StoreConflict(docs, roomId, checkIn, checkOut) {
      var k :| k in docs && docs[k].roomId == roomId && docs[k].status == Confirmed
        && Overlaps(checkIn, checkOut, docs[k].checkIn, docs[k].checkOut);
      var i :| 0 <= i < |listing| && listing[i].id == Some(k);
      assert listing[i] == docs[k].(id := Some(k));
      assert ConfirmedRoomOverlapAt(listing, roomId, checkIn, checkOut, i);
    }
    if RoomConflict(listing, roomId, checkIn, checkOut) {
      var i :| ConfirmedRoomOverlapAt(listing, roomId, checkIn, checkOut, i);
      var k := listing[i].id.value;
      assert listing[i] == docs[k].(id := Some(k));
      assert StoreConflict(docs, roomId, checkIn, checkOut);
    }
  }

  datatype RejectReason = InvalidRange | DateConflict

  datatype SubmitOutcome = Rejected(reason: RejectReason) | Submitted(id: string)

  /** `handleSubmit`. The date range is checked before the store is read; a range
      overlapping a confirmed booking of the room is refused; only then is the draft
      saved, under the id the store assigns (`newId`) at store time `now`. */
  method HandleSubmit(store: BookingStore, roomId: string, form: RequestForm, newId: string, now: int)
    returns (outcome: SubmitOutcome)
    requires newId !in store.docs
    modifies store
    ensures outcome == Rejected(InvalidRange) <==> form.checkIn >= form.checkOut
    ensures outcome == Rejected(DateConflict) <==>
      form.checkIn < form.checkOut && StoreConflict(old(store.docs), roomId, form.checkIn, form.checkOut)
    ensures outcome.Rejected? ==> store.docs == old(store.docs)
    ensures outcome.Submitted? ==>
      outcome.id == newId && store.docs == old(store.docs)[newId := NewRecord(Draft(roomId, form), now)]
  {
    if form.checkIn >= form.checkOut {
      return Rejected(InvalidRange);
    }
    var allBookings := store.GetAll();
    ListingConflict(store.docs, allBookings, roomId, form.checkIn, form.checkOut);
    var hasConflict := RoomConflict(allBookings, roomId, form.checkIn, form.checkOut);
    if hasConflict {
      return Rejected(DateConflict);
    }
    var id := store.Save(Draft(roomId, form), newId, now);
    outcome := Submitted(id);
  }

  /** Only confirmed bookings of the same room can block a request: a pending or
      cancelled booking, or one of another room, never changes the verdict. */
  lemma OnlyConfirmedSameRoomBlocks(docs: map<string, Booking>, k: string, x: Booking, roomId: string, checkIn: int, checkOut: int)
    requires x.status != Confirmed || x.roomId != roomId
    ensures StoreConflict(docs[k := x], roomId, checkIn, checkOut) <==> StoreConflict(docs - {k}, roomId, checkIn, checkOut)
  {
    if StoreConflict(docs[k := x], roomId, checkIn, checkOut) {
      var j :| j in docs[k := x] && docs[k := x][j].roomId == roomId && docs[k := x][j].status == Confirmed
        && Overlaps(checkIn, checkOut, docs[k := x][j].checkIn, docs[k := x][j].checkOut);
      assert j != k && j in docs - {k};
    }
    if StoreConflict(docs - {k}, roomId, checkIn, checkOut) {
      var j :| j in docs - {k} && docs[j].roomId == roomId && docs[j].status == Confirmed
        && Overlaps(checkIn, checkOut, docs[j].checkIn, docs[j].checkOut);
      assert j in docs[k := x] && docs[k := x][j] == docs[j];
    }
  }

  /** Same-day turnover is accepted: when every confirmed stay of the room is well
      formed and ends on or before the requested check-in or starts on or after the
      requested check-out, the request is not refused for its dates. */
  lemma TurnoverAccepted(docs: map<string, Booking>, roomId: string, checkIn: int, checkOut: int)
    requires checkIn < checkOut
    requires forall k :: k in docs && docs[k].roomId == roomId && docs[k].status == Confirmed ==>
      docs[k].checkIn < docs[k].checkOut && (docs[k].checkOut <= checkIn || checkOut <= docs[k].checkIn)
    ensures !StoreConflict(docs, roomId, checkIn, checkOut)
  {
  }

  /** A request sharing a night with a confirmed stay of the same room is refused. */
  lemma SharedNightRefused(docs: map<string, Booking>, k: string, roomId: string, checkIn: int, checkOut: int, night: int)
    requires k in docs && docs[k].roomId == roomId && docs[k].status == Confirmed
    requires Occupies(checkIn, checkOut, night) && Occupies(docs[k].checkIn, docs[k].checkOut, night)
    ensures StoreConflict(docs, roomId, checkIn, checkOut)
  {
    OverlapsIffSharedNight(checkIn, checkOut, docs[k].checkIn, docs[k].checkOut);
  }
}
