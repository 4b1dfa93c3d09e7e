/** The booking record and the booking store (src/lib/bookingService.ts).
    The remote document collection is modelled as a map from document id to
    the stored fields; dates are whole day numbers and `createdAt` is the
    store clock's reading, passed in by the caller. */
module BookingService {
  import opened Basics

  /** The closed set of lifecycle states of a booking. */
  datatype Status = Pending | Confirmed | Cancelled

  /** The string the program stores and compares for each status. */
  function StatusName(s: Status): (name: string)
    ensures name in {"pending", "confirmed", "cancelled"}
  {
    match s
    case Pending => "pending"
    case Confirmed => "confirmed"
    case Cancelled => "cancelled"
  }

  lemma StatusNameInjective(s: Status, t: Status)
    ensures StatusName(s) == StatusName(t) <==> s == t
  {
  }

  /** A booking as the program sees it; `id` is absent until the store assigns one. */
  datatype Booking = Booking(
    id: Option<string>,
    roomId: string,
    roomName: string,
    guestName: string,
    guestEmail: string,
    checkIn: int,
    checkOut: int,
    guests: int,
    message: Option<string>,
    status: Status,
    createdAt: int)

  /** The draft handed to `saveBooking`. */
  datatype BookingFormData = BookingFormData(
    roomId: string,
    roomName: string,
    guestName: string,
    guestEmail: string,
    checkIn: int,
    checkOut: int,
    guests: int,
    message: Option<string>)

  /** The characters `String.prototype.trim` strips: white space and line terminators. */
  predicate IsWhitespace(c: char) {
    || c == '\t' || c == '\n' || c == '\U{B}' || c == '\U{C}' || c == '\r' || c == ' '
    || c == '\U{A0}' || c == '\U{1680}' || ('\U{2000}' <= c <= '\U{200A}')
    || c == '\U{2028}' || c == '\U{2029}' || c == '\U{202F}' || c == '\U{205F}'
    || c == '\U{3000}' || c == '\U{FEFF}'
  }

  /** Every character of `s` is white space (vacuously true of ""). */
  predicate IsBlank(s: string) {
    forall i :: 0 <= i < |s| ==> IsWhitespace(s[i])
  }

  function TrimStart(s: string): string {
    if |s| > 0 && IsWhitespace(s[0]) then TrimStart(s[1..]) else s
  }

  function TrimEnd(s: string): string {
    if |s| > 0 && IsWhitespace(s[|s| - 1]) then TrimEnd(s[..|s| - 1]) else s
  }

  /** `s.trim()`. */
  function Trim(s: string): string {
    TrimEnd(TrimStart(s))
  }

  lemma {:induction false} TrimStartEmptyIffBlank(s: string)
    ensures TrimStart(s) == [] <==> IsBlank(s)
  {
    if |s| > 0 && IsWhitespace(s[0]) {
      TrimStartEmptyIffBlank(s[1..]);
      assert forall i :: 1 <= i < |s| ==> s[i] == s[1..][i - 1];
    }
  }

  lemma {:induction false} TrimEndEmptyIffBlank(s: string)
    ensures TrimEnd(s) == [] <==> IsBlank(s)
  {
    if |s| > 0 && IsWhitespace(s[|s| - 1]) {
      TrimEndEmptyIffBlank(s[..|s| - 1]);
      assert forall i :: 0 <= i < |s| - 1 ==> s[i] == s[..|s| - 1][i];
    }
  }

  lemma {:induction false} TrimStartOfNonBlankStartsWithText(s: string)
    requires !IsBlank(s)
    ensures |TrimStart(s)| > 0 && !IsWhitespace(TrimStart(s)[0])
  {
    if |s| > 0 && IsWhitespace(s[0]) {
      assert !IsBlank(s[1..]) by {
        var i :| 0 <= i < |s| && !IsWhitespace(s[i]);
        assert s[1..][i - 1] == s[i];
      }
      TrimStartOfNonBlankStartsWithText(s[1..]);
    }
  }

  /** `s.trim() !== ""` holds exactly when `s` has a character that is not white space. */
  lemma TrimEmptyIffBlank(s: string)
    ensures Trim(s) == [] <==> IsBlank(s)
  {
    TrimStartEmptyIffBlank(s);
    if !IsBlank(s) {
      TrimStartOfNonBlankStartsWithText(s);
      var t := TrimStart(s);
      assert !IsBlank(t) by { assert !IsWhitespace(t[0]); }
      TrimEndEmptyIffBlank(t);
    }
  }

  /** The record `saveBooking` builds from a draft before writing it. */
  function NewRecord(data: BookingFormData, now: int): (b: Booking)
    ensures b.status == Pending && b.id == None && b.createdAt == now
    ensures b.roomId == data.roomId && b.roomName == data.roomName
    ensures b.guestName == data.guestName && b.guestEmail == data.guestEmail
    ensures b.checkIn == data.checkIn && b.checkOut == data.checkOut && b.guests == data.guests
    ensures b.message.Some? <==> data.message.Some? && !IsBlank(data.message.value)
    ensures b.message.Some? ==> b.message == data.message
  {
    var record := Booking(None, data.roomId, data.roomName, data.guestName, data.guestEmail,
                          data.checkIn, data.checkOut, data.guests, None, Pending, now);
    if data.message.Some? && Trim(data.message.value) != "" then
      TrimEmptyIffBlank(data.message.value);
      record.(message := data.message)
    else
      (if data.message.Some? then TrimEmptyIffBlank(data.message.value); record else record)
  }

  /** The records `getAllBookings` returns: every stored document with its id attached,
      newest first. */
  ghost predicate IsListing(docs: map<string, Booking>, r: seq<Booking>) {
    && |r| == |docs|
    && (forall i :: 0 <= i < |r| ==>
          r[i].id.Some? && r[i].id.value in docs && r[i] == docs[r[i].id.value].(id := r[i].id))
    && (forall k :: k in docs ==> exists i :: 0 <= i < |r| && r[i].id == Some(k))
    && (forall i, j :: 0 <= i < j < |r| ==> r[i].id != r[j].id)
    && (forall i, j :: 0 <= i < j < |r| ==> r[i].createdAt >= r[j].createdAt)
  }

  /** A non-empty set of stored ids has a newest member. */
  lemma {:induction false} NewestExists(ks: set<string>, docs: map<string, Booking>)
    requires ks != {} && ks <= docs.Keys
    ensures exists k :: k in ks && forall k' :: k' in ks ==> docs[k'].createdAt <= docs[k].createdAt
  {
    var x :| x in ks;
    if ks != {x} {
      NewestExists(ks - {x}, docs);
      var y :| y in ks - {x} && forall k' :: k' in ks - {x} ==> docs[k'].createdAt <= docs[y].createdAt;
      if docs[x].createdAt <= docs[y].createdAt {
        assert forall k' :: k' in ks ==> docs[k'].createdAt <= docs[y].createdAt;
      } else {
        assert forall k' :: k' in ks ==> docs[k'].createdAt <= docs[x].createdAt;
      }
    }
  }

  /** The document ids of `docs` ordered by `createdAt`, newest first: the query
      `orderBy('createdAt', 'desc')`. Documents with equal `createdAt` come in an
      order the model leaves open. */
  method NewestFirst(docs: map<string, Booking>) returns (order: seq<string>)
    ensures |order| == |docs|
    ensures forall k :: k in order <==> k in docs
    ensures forall i, j :: 0 <= i < j < |order| ==> order[i] != order[j]
    ensures forall i, j :: 0 <= i < j < |order| ==> docs[order[i]].createdAt >= docs[order[j]].createdAt
  {
    var remaining := docs.Keys;
    order := [];
    while remaining != {}
      invariant remaining <= docs.Keys
      invariant |order| + |remaining| == |docs|
      invariant forall k :: k in order <==> k in docs && k !in remaining
      invariant forall i, j :: 0 <= i < j < |order| ==> order[i] != order[j]
      invariant forall i, j :: 0 <= i < j < |order| ==> docs[order[i]].createdAt >= docs[order[j]].createdAt
      invariant forall i, k :: 0 <= i < |order| && k in remaining ==> docs[order[i]].createdAt >= docs[k].createdAt
      decreases remaining
    {
      NewestExists(remaining, docs);
      var k :| k in remaining && forall k' :: k' in remaining ==> docs[k'].createdAt <= docs[k].createdAt;
      order := order + [k];
      remaining := remaining - {k};
    }
  }

  /** The documents listed in `order`, each with its id attached. */
  function WithIds(docs: map<string, Booking>, order: seq<string>): (r: seq<Booking>)
    requires forall i :: 0 <= i < |order| ==> order[i] in docs
    ensures |r| == |order|
    ensures forall i :: 0 <= i < |r| ==> r[i] == docs[order[i]].(id := Some(order[i]))
  {
    seq(|order|, i requires 0 <= i < |order| => docs[order[i]].(id := Some(order[i])))
  }

  /** Attaching ids along a newest-first order of the ids yields a listing. */
  lemma WithIdsIsListing(docs: map<string, Booking>, order: seq<string>)
    requires |order| == |docs|
    requires forall k :: k in order <==> k in docs
    requires forall i, j :: 0 <= i < j < |order| ==> order[i] != order[j]
    requires forall i, j :: 0 <= i < j < |order| ==> docs[order[i]].createdAt >= docs[order[j]].createdAt
    ensures IsListing(docs, WithIds(docs, order))
  {
    var r := WithIds(docs, order);
    assert forall i :: 0 <= i < |r| ==> r[i].id == Some(order[i]) && r[i].createdAt == docs[order[i]].createdAt;
    forall k | k in docs ensures exists i :: 0 <= i < |r| && r[i].id == Some(k) {
      var i :| 0 <= i < |order| && order[i] == k;
      assert r[i].id == Some(k);
    }
  }

  /** The `bookings` collection. Documents hold the stored fields (their `id` is `None`);
      the document id is the map key. */
  class BookingStore {
    var docs: map<string, Booking>

    constructor ()
      ensures docs == map[]
    {
      docs := map[];
    }

    /** `saveBooking`: writes `NewRecord(data, now)` under the id the store assigns
        (`newId`, a fresh key) and returns that id. */
    method Save(data: BookingFormData, newId: string, now: int) returns (id: string)
      requires newId !in docs
      modifies this
      ensures id == newId
      ensures docs == old(docs)[newId := NewRecord(data, now)]
    {
      docs := docs[newId := NewRecord(data, now)];
      id := newId;
    }

    /** `updateBookingStatus`: changes the status of document `id` and nothing else.
        Updating a document that does not exist fails and changes nothing. */
    method UpdateStatus(id: string, status: Status) returns (ok: bool)
      modifies this
      ensures ok <==> id in old(docs)
      ensures ok ==> docs == old(docs)[id := old(docs)[id].(status := status)]
      ensures !ok ==> docs == old(docs)
    {
      ok := id in docs;
      if ok {
        docs := docs[id := docs[id].(status := status)];
      }
    }

    /** `deleteBooking`: removes document `id` (deleting a missing document is not an error). */
    method Delete(id: string)
      modifies this
      ensures docs == old(docs) - {id}
    {
      docs := docs - {id};
    }

    /** `getAllBookings`: the query ordered by `createdAt` descending, each document
        mapped to a booking carrying its id. */
    method GetAll() returns (r: seq<Booking>)
      ensures IsListing(docs, r)
    {
      var order := NewestFirst(docs);
      WithIdsIsListing(docs, order);
      r := WithIds(docs, order);
    }
  }
}
