/** The stay-overlap test that the admin confirm gate (src/components/AdminPanel.tsx),
    the availability check (src/components/RoomAvailability.tsx) and the request
    form (src/components/BookingModal.tsx) each spell out with the same three
    clauses. A stay is the half-open range of nights [checkIn, checkOut): the
    check-out day itself is free for the next guest. */
module Overlap {
  import opened Basics
  import opened BookingService

  /** Night `d` belongs to the stay [checkIn, checkOut). */
  predicate Occupies(checkIn: int, checkOut: int, d: int) {
    checkIn <= d < checkOut
  }

  /** The three clauses, for a new stay [aIn, aOut) against an existing stay [bIn, bOut):
      the new check-in falls inside the existing stay, or the new check-out does,
      or the new stay contains the existing one. */
  predicate Overlaps(aIn: int, aOut: int, bIn: int, bOut: int) {
    || (aIn >= bIn && aIn < bOut)
    || (aOut > bIn && aOut <= bOut)
    || (aIn <= bIn && aOut >= bOut)
  }

  /** For well-formed stays the three clauses are the half-open intersection test. */
  lemma OverlapsIsHalfOpenIntersection(aIn: int, aOut: int, bIn: int, bOut: int)
    requires aIn < aOut && bIn < bOut
    ensures Overlaps(aIn, aOut, bIn, bOut) <==> aIn < bOut && bIn < aOut
  {
  }

  /** For well-formed stays, two stays overlap exactly when some night belongs to both. */
  lemma OverlapsIffSharedNight(aIn: int, aOut: int, bIn: int, bOut: int)
    requires aIn < aOut && bIn < bOut
    ensures Overlaps(aIn, aOut, bIn, bOut) <==> exists d :: Occupies(aIn, aOut, d) && Occupies(bIn, bOut, d)
  {
    if Overlaps(aIn, aOut, bIn, bOut) {
      var d := if aIn < bIn then bIn else aIn;
      assert Occupies(aIn, aOut, d) && Occupies(bIn, bOut, d);
    }
  }

  /** For well-formed stays the test does not depend on which stay is the new one. */
  lemma OverlapsSymmetric(aIn: int, aOut: int, bIn: int, bOut: int)
    requires aIn < aOut && bIn < bOut
    ensures Overlaps(aIn, aOut, bIn, bOut) <==> Overlaps(bIn, bOut, aIn, aOut)
  {
  }

  /** Same-day turnover: a stay that starts on another's check-out day, or ends on
      its check-in day, does not overlap it. */
  lemma TurnoverIsNotOverlap(checkIn: int, checkOut: int, next: int)
    requires checkIn < checkOut < next
    ensures !Overlaps(checkOut, next, checkIn, checkOut)
    ensures !Overlaps(checkIn, checkOut, checkOut, next)
  {
  }

  /** A well-formed stay overlaps itself and every stay that contains it or that it contains. */
  lemma NestedStaysOverlap(aIn: int, aOut: int, bIn: int, bOut: int)
    requires aIn < aOut && bIn < bOut
    requires (aIn <= bIn && bOut <= aOut) || (bIn <= aIn && aOut <= bOut)
    ensures Overlaps(aIn, aOut, bIn, bOut)
  {
  }

  /** `roomBookings.some(...)` as the request form and `areDatesAvailable` write it:
      some confirmed booking's stay overlaps the requested stay [checkIn, checkOut). */
  predicate ConfirmedOverlap(roomBookings: seq<Booking>, checkIn: int, checkOut: int) {
    exists i :: 0 <= i < |roomBookings| && roomBookings[i].status == Confirmed
      && Overlaps(checkIn, checkOut, roomBookings[i].checkIn, roomBookings[i].checkOut)
  }

  /** A booking that is not confirmed never makes a difference to `ConfirmedOverlap`,
      wherever it stands in the list. */
  lemma ConfirmedOverlapIgnoresUnconfirmed(before: seq<Booking>, x: Booking, after: seq<Booking>, checkIn: int, checkOut: int)
    requires x.status != Confirmed
    ensures ConfirmedOverlap(before + [x] + after, checkIn, checkOut) <==> ConfirmedOverlap(before + after, checkIn, checkOut)
  {
    var s, t := before + [x] + after, before + after;
    if ConfirmedOverlap(s, checkIn, checkOut) {
      var i :| 0 <= i < |s| && s[i].status == Confirmed && Overlaps(checkIn, checkOut, s[i].checkIn, s[i].checkOut);
      var j := if i < |before| then i else i - 1;
      assert t[j] == s[i];
    }
    if ConfirmedOverlap(t, checkIn, checkOut) {
      var j :| 0 <= j < |t| && t[j].status == Confirmed && Overlaps(checkIn, checkOut, t[j].checkIn, t[j].checkOut);
      var i := if j < |before| then j else j + 1;
      assert s[i] == t[j];
    }
  }

  /** The bookings of room `roomId`, whatever their status. */
  function InRoom(roomId: string): Booking -> bool {
    (b: Booking) => b.roomId == roomId
  }

  /** `allBookings.filter(b => b.roomId === roomId).some(...)`: the requested stay
      [checkIn, checkOut) overlaps a confirmed booking of the room. */
  predicate RoomConflict(allBookings: seq<Booking>, roomId: string, checkIn: int, checkOut: int) {
    ConfirmedOverlap(Filter(allBookings, InRoom(roomId)), checkIn, checkOut)
  }

  /** A confirmed booking of the room that overlaps the stay. */
  predicate ConfirmedRoomOverlapAt(allBookings: seq<Booking>, roomId: string, checkIn: int, checkOut: int, i: int) {
    && 0 <= i < |allBookings| && allBookings[i].roomId == roomId && allBookings[i].status == Confirmed
    && Overlaps(checkIn, checkOut, allBookings[i].checkIn, allBookings[i].checkOut)
  }

  /** Filtering by room first does not change what is found: there is a conflict exactly
      when some confirmed booking of that room overlaps the requested stay. */
  lemma RoomConflictMeaning(allBookings: seq<Booking>, roomId: string, checkIn: int, checkOut: int)
    ensures RoomConflict(allBookings, roomId, checkIn, checkOut) <==>
      exists i :: ConfirmedRoomOverlapAt(allBookings, roomId, checkIn, checkOut, i)
  {
    var roomBookings := Filter(allBookings, InRoom(roomId));
    if ConfirmedOverlap(roomBookings, checkIn, checkOut) {
      var k :| 0 <= k < |roomBookings| && roomBookings[k].status == Confirmed
        && Overlaps(checkIn, checkOut, roomBookings[k].checkIn, roomBookings[k].checkOut);
      var b := roomBookings[k];
      FilterMembership(allBookings, InRoom(roomId), b);
      var i :| 0 <= i < |allBookings| && allBookings[i] == b;
      assert ConfirmedRoomOverlapAt(allBookings, roomId, checkIn, checkOut, i);
    }
    if exists i :: ConfirmedRoomOverlapAt(allBookings, roomId, checkIn, checkOut, i) {
      var i :| ConfirmedRoomOverlapAt(allBookings, roomId, checkIn, checkOut, i);
      var b := allBookings[i];
      FilterMembership(allBookings, InRoom(roomId), b);
      var k :| 0 <= k < |roomBookings| && roomBookings[k] == b;
      assert ConfirmedOverlap(roomBookings, checkIn, checkOut);
    }
  }

  /** A booking that is not confirmed, or belongs to another room, never makes a
      difference to `RoomConflict`, wherever it stands in the snapshot. */
  lemma RoomConflictIgnoresOthers(before: seq<Booking>, x: Booking, after: seq<Booking>, roomId: string, checkIn: int, checkOut: int)
    requires x.status != Confirmed || x.roomId != roomId
    ensures RoomConflict(before + [x] + after, roomId, checkIn, checkOut)
            == RoomConflict(before + after, roomId, checkIn, checkOut)
  {
    var p := InRoom(roomId);
    var fb, fx, fa := Filter(before, p), Filter([x], p), Filter(after, p);
    FilterConcat(before + [x], after, p);
    FilterConcat(before, [x], p);
    FilterConcat(before, after, p);
    assert Filter(before + [x] + after, p) == fb + fx + fa;
    if x.roomId == roomId {
      assert fx == [x];
      ConfirmedOverlapIgnoresUnconfirmed(fb, x, fa, checkIn, checkOut);
    } else {
      assert fx == [];
      assert fb + fx + fa == fb + fa;
    }
  }
}
