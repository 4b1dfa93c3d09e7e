/** The per-day calendar widget (src/components/ui/room-calendar.tsx): it receives
    one entry per day, looks entries up by day and splits the days into the three
    colour classes available, booked and pending. Calendar days are day numbers. */
module RoomCalendar {
  import opened Basics

  datatype DayStatus = Available | Booked | Pending

  /** One calendar entry; `roomId` and `guestName` are present only on covered days. */
  datatype BookingDate = BookingDate(date: int, status: DayStatus, roomId: Option<string>, guestName: Option<string>)

  /** Entry `i` is the first entry on day `date`. */
  predicate FirstOnDay(entries: seq<BookingDate>, date: int, i: int) {
    && 0 <= i < |entries|
    && entries[i].date == date
    && (forall j :: 0 <= j < i ==> entries[j].date != date)
  }

  /** `getDateBooking`: the first entry on day `date`, if any. */
  function GetDateBooking(entries: seq<BookingDate>, date: int): (r: Option<BookingDate>)
    ensures r.None? <==> forall i :: 0 <= i < |entries| ==> entries[i].date != date
    ensures r.Some? ==> exists i :: FirstOnDay(entries, date, i) && r.value == entries[i]
  {
    if |entries| == 0 then None
    else if entries[0].date == date then
      assert FirstOnDay(entries, date, 0);
      Some(entries[0])
    else
      var r := GetDateBooking(entries[1..], date);
      if r.Some? then
        var i :| FirstOnDay(entries[1..], date, i) && r.value == entries[1..][i];
        assert FirstOnDay(entries, date, i + 1);
        r
      else r
  }

  /** `getDateStatus`: the status of the first entry on day `date`, or `Available`
      when there is none (every status is a non-empty string, so `||` never
      replaces a found status). */
  function GetDateStatus(entries: seq<BookingDate>, date: int): (s: DayStatus)
    ensures (forall i :: 0 <= i < |entries| ==> entries[i].date != date) ==> s == Available
    ensures forall i :: FirstOnDay(entries, date, i) ==> s == entries[i].status
  {
    if |entries| == 0 then Available
    else if entries[0].date == date then entries[0].status
    else
      var s := GetDateStatus(entries[1..], date);
      assert forall i :: FirstOnDay(entries, date, i) ==> i > 0 && FirstOnDay(entries[1..], date, i - 1);
      s
  }

  /** The two lookups agree: the status shown is the status of the entry found. */
  lemma GetDateStatusAgrees(entries: seq<BookingDate>, date: int)
    ensures GetDateStatus(entries, date) == match GetDateBooking(entries, date)
                                          case None => Available
                                          case Some(b) => b.status
  {
  }

  /** The entries with status `s`. */
  function HasStatus(s: DayStatus): BookingDate -> bool {
    (b: BookingDate) => b.status == s
  }

  /** `.map(b => b.date)`. */
  function Dates(entries: seq<BookingDate>): (r: seq<int>)
    ensures |r| == |entries|
    ensures forall i :: 0 <= i < |r| ==> r[i] == entries[i].date
  {
    if |entries| == 0 then [] else [entries[0].date] + Dates(entries[1..])
  }

  /** The three colour classes handed to the date picker. */
  datatype Modifiers = Modifiers(available: seq<int>, booked: seq<int>, pending: seq<int>)

  /** `modifiers`. */
  function ModifiersOf(entries: seq<BookingDate>): Modifiers {
    Modifiers(
      Dates(Filter(entries, HasStatus(Available))),
      Dates(Filter(entries, HasStatus(Booked))),
      Dates(Filter(entries, HasStatus(Pending))))
  }

  /** The number of entries with status `s`. */
  function CountStatus(entries: seq<BookingDate>, s: DayStatus): nat {
    if |entries| == 0 then 0 else (if entries[0].status == s then 1 else 0) + CountStatus(entries[1..], s)
  }

  /** One step of a status list: the first entry's day, if it has that status, then the rest. */
  lemma ListStep(entries: seq<BookingDate>, s: DayStatus)
    requires |entries| > 0
    ensures Dates(Filter(entries, HasStatus(s)))
            == (if entries[0].status == s then [entries[0].date] else []) + Dates(Filter(entries[1..], HasStatus(s)))
  {
    var rest := Filter(entries[1..], HasStatus(s));
    if entries[0].status == s {
      assert Filter(entries, HasStatus(s)) == [entries[0]] + rest;
      assert ([entries[0]] + rest)[1..] == rest;
    }
  }

  /** The first entry's day goes to the list of its status, and only there. */
  lemma PartitionStep(entries: seq<BookingDate>)
    requires |entries| > 0
    ensures multiset(ModifiersOf(entries).available) + multiset(ModifiersOf(entries).booked)
            + multiset(ModifiersOf(entries).pending)
         == multiset{entries[0].date} + multiset(ModifiersOf(entries[1..]).available)
            + multiset(ModifiersOf(entries[1..]).booked) + multiset(ModifiersOf(entries[1..]).pending)
  {
    ListStep(entries, Available);
    ListStep(entries, Booked);
    ListStep(entries, Pending);
    var m, m' := ModifiersOf(entries), ModifiersOf(entries[1..]);
    MultisetSumStep(m.available, m.booked, m.pending, m'.available, m'.booked, m'.pending, entries[0].date);
  }

  /** Adding one day to exactly one of three lists adds it once to their combined multiset. */
  lemma MultisetSumStep(a: seq<int>, b: seq<int>, c: seq<int>, a': seq<int>, b': seq<int>, c': seq<int>, d: int)
    requires || (a == [d] + a' && b == b' && c == c')
             || (a == a' && b == [d] + b' && c == c')
             || (a == a' && b == b' && c == [d] + c')
    ensures multiset(a) + multiset(b) + multiset(c) == multiset{d} + multiset(a') + multiset(b') + multiset(c')
  {
  }

  /** Together the three lists hold every entry's day exactly once. */
  lemma {:induction false} ModifiersPartition(entries: seq<BookingDate>)
    ensures multiset(ModifiersOf(entries).available) + multiset(ModifiersOf(entries).booked)
            + multiset(ModifiersOf(entries).pending) == multiset(Dates(entries))
  {
    if |entries| > 0 {
      ModifiersPartition(entries[1..]);
      PartitionStep(entries);
      assert Dates(entries) == [entries[0].date] + Dates(entries[1..]);
    }
  }

  /** Each list is as long as the number of entries with its status. */
  lemma {:induction false} ModifiersLengths(entries: seq<BookingDate>)
    ensures |ModifiersOf(entries).available| == CountStatus(entries, Available)
    ensures |ModifiersOf(entries).booked| == CountStatus(entries, Booked)
    ensures |ModifiersOf(entries).pending| == CountStatus(entries, Pending)
  {
    if |entries| > 0 {
      ModifiersLengths(entries[1..]);
    }
  }

  lemma {:induction false} DatesOfSubsequence(r: seq<BookingDate>, s: seq<BookingDate>)
    requires IsSubsequence(r, s)
    ensures IsSubsequence(Dates(r), Dates(s))
    decreases |s|
  {
    if |r| > 0 {
      assert Dates(s)[1..] == Dates(s[1..]);
      if r[0] == s[0] && IsSubsequence(r[1..], s[1..]) {
        DatesOfSubsequence(r[1..], s[1..]);
        assert Dates(r)[1..] == Dates(r[1..]);
      } else {
        DatesOfSubsequence(r, s[1..]);
      }
    }
  }

  /** Each list keeps the days in the order of the entries. */
  lemma ModifiersKeepOrder(entries: seq<BookingDate>)
    ensures IsSubsequence(ModifiersOf(entries).available, Dates(entries))
    ensures IsSubsequence(ModifiersOf(entries).booked, Dates(entries))
    ensures IsSubsequence(ModifiersOf(entries).pending, Dates(entries))
  {
    FilterIsSubsequence(entries, HasStatus(Available));
    DatesOfSubsequence(Filter(entries, HasStatus(Available)), entries);
    FilterIsSubsequence(entries, HasStatus(Booked));
    DatesOfSubsequence(Filter(entries, HasStatus(Booked)), entries);
    FilterIsSubsequence(entries, HasStatus(Pending));
    DatesOfSubsequence(Filter(entries, HasStatus(Pending)), entries);
  }

  /** Day `date` is in the list of status `s` exactly when some entry on that day has status `s`. */
  lemma DayInList(entries: seq<BookingDate>, s: DayStatus, date: int)
    ensures date in Dates(Filter(entries, HasStatus(s)))
            <==> exists i :: 0 <= i < |entries| && entries[i].date == date && entries[i].status == s
  {
    var kept := Filter(entries, HasStatus(s));
    var days := Dates(kept);
    if date in days {
      var k :| 0 <= k < |days| && days[k] == date;
      FilterMembership(entries, HasStatus(s), kept[k]);
      var i :| 0 <= i < |entries| && entries[i] == kept[k];
      assert entries[i].date == date && entries[i].status == s;
    }
    if exists i :: 0 <= i < |entries| && entries[i].date == date && entries[i].status == s {
      var i :| 0 <= i < |entries| && entries[i].date == date && entries[i].status == s;
      FilterMembership(entries, HasStatus(s), entries[i]);
      var k :| 0 <= k < |kept| && kept[k] == entries[i];
      assert days[k] == date;
    }
  }

  /** With one entry per day, as the availability view supplies, each entry's day
      is in the list of its own status and in neither of the other two. */
  lemma DayInExactlyOneList(entries: seq<BookingDate>, i: int)
    requires forall j, k :: 0 <= j < k < |entries| ==> entries[j].date != entries[k].date
    requires 0 <= i < |entries|
    ensures entries[i].date in ModifiersOf(entries).available <==> entries[i].status == Available
    ensures entries[i].date in ModifiersOf(entries).booked <==> entries[i].status == Booked
    ensures entries[i].date in ModifiersOf(entries).pending <==> entries[i].status == Pending
  {
    DayInList(entries, Available, entries[i].date);
    DayInList(entries, Booked, entries[i].date);
    DayInList(entries, Pending, entries[i].date);
  }
}
