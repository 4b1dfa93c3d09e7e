/** The guest leaderboard of the operator panel (`guestLeaderboard` in
    src/components/AdminPanel.tsx): confirmed bookings grouped by e-mail, with the
    nights summed and the bookings counted, ranked by nights (a stable sort, so ties
    keep the order in which the guests were first met) and cut to the top ten. */
module Leaderboard {
  import opened Basics
  import opened BookingService

  datatype GuestStat = GuestStat(name: string, email: string, totalDays: int, bookings: nat)

  /** How many guests the leaderboard shows. */
  const TopCount: nat := 10

  /** Booking `b` counts towards guest `email`. */
  predicate CountsFor(b: Booking, email: string) {
    b.status == Confirmed && b.guestEmail == email
  }

  /** The nights of a stay; on whole days the rounded-up millisecond difference is exact. */
  function Nights(b: Booking): int {
    b.checkOut - b.checkIn
  }

  // ---------------------------------------------------------------------------
  // What the leaderboard should hold, defined over ever longer prefixes of the
  // snapshot, the order in which the program visits it.

  /** The nights of the bookings that count towards `email`, summed. */
  function TotalDays(bookings: seq<Booking>, email: string): int {
    if |bookings| == 0 then 0
    else
      var last := bookings[|bookings| - 1];
      TotalDays(bookings[..|bookings| - 1], email) + (if CountsFor(last, email) then Nights(last) else 0)
  }

  /** The number of bookings that count towards `email`. */
  function BookingCount(bookings: seq<Booking>, email: string): nat {
    if |bookings| == 0 then 0
    else BookingCount(bookings[..|bookings| - 1], email) + (if CountsFor(bookings[|bookings| - 1], email) then 1 else 0)
  }

  /** The guest name on the first booking that counts towards `email`. */
  function FirstName(bookings: seq<Booking>, email: string): string {
    if |bookings| == 0 then ""
    else
      var last := bookings[|bookings| - 1];
      if CountsFor(last, email) && BookingCount(bookings[..|bookings| - 1], email) == 0 then last.guestName
      else FirstName(bookings[..|bookings| - 1], email)
  }

  /** The e-mails of confirmed bookings, each once, in the order they are first met. */
  function Emails(bookings: seq<Booking>): seq<string> {
    if |bookings| == 0 then []
    else
      var seen := Emails(bookings[..|bookings| - 1]);
      var last := bookings[|bookings| - 1];
      if last.status == Confirmed && last.guestEmail !in seen then seen + [last.guestEmail] else seen
  }

  /** The entry the leaderboard keeps for `email`. */
  function StatOf(bookings: seq<Booking>, email: string): GuestStat {
    GuestStat(FirstName(bookings, email), email, TotalDays(bookings, email), BookingCount(bookings, email))
  }

  /** The grouped entries, in the order the e-mails were first met. */
  function Aggregate(bookings: seq<Booking>): seq<GuestStat> {
    var emails := Emails(bookings);
    seq(|emails|, k requires 0 <= k < |emails| => StatOf(bookings, emails[k]))
  }

  predicate NoDuplicates(s: seq<string>) {
    forall i, j :: 0 <= i < j < |s| ==> s[i] != s[j]
  }

  /** A guest has no counted booking exactly when none of the bookings counts for them. */
  lemma {:induction false} BookingCountZeroIffNone(bookings: seq<Booking>, email: string)
    ensures BookingCount(bookings, email) == 0 <==> forall i :: 0 <= i < |bookings| ==> !CountsFor(bookings[i], email)
  {
    if |bookings| > 0 {
      var init := bookings[..|bookings| - 1];
      BookingCountZeroIffNone(init, email);
      assert forall i :: 0 <= i < |init| ==> init[i] == bookings[i];
    }
  }

  /** What one more booking does to a guest's entry. */
  lemma {:induction false} StatOfStep(done: seq<Booking>, b: Booking, email: string)
    ensures BookingCount(done, email) == 0 ==> TotalDays(done, email) == 0
    ensures StatOf(done + [b], email) ==
      if !CountsFor(b, email) then StatOf(done, email)
      else if BookingCount(done, email) == 0 then GuestStat(b.guestName, email, Nights(b), 1)
      else StatOf(done, email).(totalDays := TotalDays(done, email) + Nights(b), bookings := BookingCount(done, email) + 1)
  {
    assert (done + [b])[..|done|] == done;
    if |done| > 0 {
      var init := done[..|done| - 1];
      StatOfStep(init, done[|done| - 1], email);
      assert init + [done[|done| - 1]] == done;
    }
  }

  /** Each e-mail is listed once, and exactly the e-mails with a counted booking are listed. */
  lemma {:induction false} EmailsListsGuestsOnce(bookings: seq<Booking>)
    ensures NoDuplicates(Emails(bookings))
    ensures forall e :: e in Emails(bookings) <==> BookingCount(bookings, e) > 0
  {
    if |bookings| > 0 {
      EmailsListsGuestsOnce(bookings[..|bookings| - 1]);
    }
  }

  /** The name kept is the one on the first counted booking of that guest. */
  lemma {:induction false} FirstNameIsFirstMet(bookings: seq<Booking>, email: string)
    requires BookingCount(bookings, email) > 0
    ensures exists i :: (0 <= i < |bookings| && CountsFor(bookings[i], email)
                         && FirstName(bookings, email) == bookings[i].guestName
                         && (forall j :: 0 <= j < i ==> !CountsFor(bookings[j], email)))
  {
    var n := |bookings|;
    var init := bookings[..n - 1];
    assert forall i :: 0 <= i < |init| ==> init[i] == bookings[i];
    if CountsFor(bookings[n - 1], email) && BookingCount(init, email) == 0 {
      BookingCountZeroIffNone(init, email);
      assert CountsFor(bookings[n - 1], email) && FirstName(bookings, email) == bookings[n - 1].guestName;
    } else {
      FirstNameIsFirstMet(init, email);
      var i :| 0 <= i < |init| && CountsFor(init[i], email) && FirstName(init, email) == init[i].guestName
        && (forall j :: 0 <= j < i ==> !CountsFor(init[j], email));
      assert CountsFor(bookings[i], email) && FirstName(bookings, email) == bookings[i].guestName;
    }
  }

  // ---------------------------------------------------------------------------
  // The ranking: `sort((a, b) => b.totalDays - a.totalDays)`, a stable sort.

  predicate SortedByDaysDesc(s: seq<GuestStat>) {
    forall i, j :: 0 <= i < j < |s| ==> s[i].totalDays >= s[j].totalDays
  }

  /** Place `x` before the first entry with no more days than it. */
  function InsertByDays(x: GuestStat, s: seq<GuestStat>): seq<GuestStat> {
    if |s| == 0 || x.totalDays >= s[0].totalDays then [x] + s
    else [s[0]] + InsertByDays(x, s[1..])
  }

  /** A stable sort by days, most days first. */
  function SortByDaysDesc(s: seq<GuestStat>): seq<GuestStat> {
    if |s| == 0 then [] else InsertByDays(s[0], SortByDaysDesc(s[1..]))
  }

  /** The entries with exactly `days` days. */
  function HasDays(days: int): GuestStat -> bool {
    (x: GuestStat) => x.totalDays == days
  }

  lemma {:induction false} InsertByDaysMultiset(x: GuestStat, s: seq<GuestStat>)
    ensures multiset(InsertByDays(x, s)) == multiset{x} + multiset(s)
  {
    if |s| > 0 && x.totalDays < s[0].totalDays {
      InsertByDaysMultiset(x, s[1..]);
      assert s == [s[0]] + s[1..];
    }
  }

  lemma {:induction false} InsertByDaysSorted(x: GuestStat, s: seq<GuestStat>)
    requires SortedByDaysDesc(s)
    ensures SortedByDaysDesc(InsertByDays(x, s))
  {
    if |s| > 0 && x.totalDays < s[0].totalDays {
      var rest := InsertByDays(x, s[1..]);
      InsertByDaysSorted(x, s[1..]);
      InsertByDaysMultiset(x, s[1..]);
      forall j | 0 <= j < |rest| ensures rest[j].totalDays <= s[0].totalDays {
        assert rest[j] in multiset(rest);
        assert rest[j] == x || rest[j] in s[1..];
      }
    }
  }

  /** Inserting never reorders two entries with the same number of days. */
  lemma {:induction false} InsertByDaysStable(x: GuestStat, s: seq<GuestStat>, days: int)
    ensures Filter(InsertByDays(x, s), HasDays(days)) == Filter([x] + s, HasDays(days))
  {
    if |s| > 0 && x.totalDays < s[0].totalDays {
      var p := HasDays(days);
      var inserted := InsertByDays(x, s[1..]);
      InsertByDaysStable(x, s[1..], days);
      FilterConcat([s[0]], inserted, p);
      FilterConcat([x], s[1..], p);
      FilterConcat([x], s, p);
      assert s == [s[0]] + s[1..];
      FilterConcat([s[0]], s[1..], p);
      var fs, fx, fr := Filter([s[0]], p), Filter([x], p), Filter(s[1..], p);
      assert fs == (if s[0].totalDays == days then [s[0]] else []);
      assert fx == (if x.totalDays == days then [x] else []);
      assert fs + (fx + fr) == fx + (fs + fr);
    }
  }

  /** The ranking is a permutation of its input, sorted by days, and stable: the
      entries with any one number of days keep their relative order. */
  lemma {:induction false} SortByDaysDescCorrect(s: seq<GuestStat>)
    ensures multiset(SortByDaysDesc(s)) == multiset(s)
    ensures SortedByDaysDesc(SortByDaysDesc(s))
    ensures forall days :: Filter(SortByDaysDesc(s), HasDays(days)) == Filter(s, HasDays(days))
  {
    if |s| > 0 {
      var rest := SortByDaysDesc(s[1..]);
      SortByDaysDescCorrect(s[1..]);
      InsertByDaysMultiset(s[0], rest);
      InsertByDaysSorted(s[0], rest);
      assert s == [s[0]] + s[1..];
      forall days ensures Filter(SortByDaysDesc(s), HasDays(days)) == Filter(s, HasDays(days)) {
        InsertByDaysStable(s[0], rest, days);
        FilterConcat([s[0]], rest, HasDays(days));
        FilterConcat([s[0]], s[1..], HasDays(days));
      }
    }
  }

  /** `slice(0, n)`. */
  function Take(s: seq<GuestStat>, n: nat): (r: seq<GuestStat>)
    ensures |r| == if |s| <= n then |s| else n
    ensures forall i :: 0 <= i < |r| ==> r[i] == s[i]
  {
    if |s| <= n then s else s[..n]
  }

  /** All guests, ranked. */
  function Ranking(bookings: seq<Booking>): seq<GuestStat> {
    SortByDaysDesc(Aggregate(bookings))
  }

  /** The leaderboard the panel shows. */
  function Leaderboard(bookings: seq<Booking>): (top: seq<GuestStat>)
    ensures |top| <= TopCount
    ensures |top| <= |Ranking(bookings)| && top == Ranking(bookings)[..|top|]
    ensures |top| == TopCount || top == Ranking(bookings)
  {
    Take(Ranking(bookings), TopCount)
  }

  // ---------------------------------------------------------------------------
  // The computation as the program does it.

  /** `guestLeaderboard`: fill a map keyed by e-mail in one pass over the snapshot,
      then rank its values and keep the first ten. The map's key order (a JavaScript
      `Map` iterates in insertion order) is kept beside it. */
  method GuestLeaderboard(bookings: seq<Booking>) returns (top: seq<GuestStat>)
    ensures top == Leaderboard(bookings)
  {
    var guestStats: map<string, GuestStat> := map[];
    var keyOrder: seq<string> := [];
    for i := 0 to |bookings|
      invariant keyOrder == Emails(bookings[..i])
      invariant forall e :: e in guestStats <==> e in keyOrder
      invariant forall e :: e in guestStats ==> guestStats[e] == StatOf(bookings[..i], e)
    {
      var booking := bookings[i];
      assert bookings[..i + 1] == bookings[..i] + [booking];
      EmailsListsGuestsOnce(bookings[..i]);
      forall e ensures StatOf(bookings[..i + 1], e) == if !CountsFor(booking, e) then StatOf(bookings[..i], e)
        else if BookingCount(bookings[..i], e) == 0 then GuestStat(booking.guestName, e, Nights(booking), 1)
        else StatOf(bookings[..i], e).(totalDays := TotalDays(bookings[..i], e) + Nights(booking),
                                        bookings := BookingCount(bookings[..i], e) + 1) {
        StatOfStep(bookings[..i], booking, e);
      }
      if booking.status == Confirmed {
        var days := booking.checkOut - booking.checkIn;
        if booking.guestEmail in guestStats {
          var existing := guestStats[booking.guestEmail];
          guestStats := guestStats[booking.guestEmail := existing.(totalDays := existing.totalDays + days,
                                                                   bookings := existing.bookings + 1)];
        } else {
          guestStats := guestStats[booking.guestEmail := GuestStat(booking.guestName, booking.guestEmail, days, 1)];
          keyOrder := keyOrder + [booking.guestEmail];
        }
      }
    }
    assert bookings[..|bookings|] == bookings;
    var values: seq<GuestStat> := [];
    for k := 0 to |keyOrder|
      invariant values == Aggregate(bookings)[..k]
    {
      values := values + [guestStats[keyOrder[k]]];
    }
    assert values == Aggregate(bookings);
    top := Take(SortByDaysDesc(values), TopCount);
  }

  // ---------------------------------------------------------------------------
  // What the leaderboard promises.

  lemma DuplicateCountsTwice<T>(s: seq<T>, i: int, j: int)
    requires 0 <= i < j < |s| && s[i] == s[j]
    ensures multiset(s)[s[i]] >= 2
  {
    assert s == s[..j] + [s[j]] + s[j + 1..];
    assert s[i] == s[..j][i];
  }

  lemma {:induction false} DistinctCountsOnce<T>(s: seq<T>)
    requires forall i, j :: 0 <= i < j < |s| ==> s[i] != s[j]
    ensures forall x :: multiset(s)[x] <= 1
  {
    if |s| > 0 {
      DistinctCountsOnce(s[1..]);
      assert s == [s[0]] + s[1..];
      assert s[0] !in s[1..];
    }
  }

  /** Entries of the aggregate are distinct guests, each with their true totals. */
  lemma AggregateEntries(bookings: seq<Booking>)
    ensures forall x :: x in Aggregate(bookings) ==> x.email in Emails(bookings) && x == StatOf(bookings, x.email)
    ensures forall x :: multiset(Aggregate(bookings))[x] <= 1
  {
    var agg := Aggregate(bookings);
    EmailsListsGuestsOnce(bookings);
    assert forall i, j :: 0 <= i < j < |agg| ==> agg[i].email != agg[j].email;
    DistinctCountsOnce(agg);
  }

  /** The full ranking holds every guest once, with their true totals, by nights. */
  lemma RankingEntries(bookings: seq<Booking>)
    ensures |Ranking(bookings)| == |Emails(bookings)|
    ensures forall i :: 0 <= i < |Ranking(bookings)| ==>
      Ranking(bookings)[i].email in Emails(bookings) && Ranking(bookings)[i] == StatOf(bookings, Ranking(bookings)[i].email)
    ensures forall i, j :: 0 <= i < j < |Ranking(bookings)| ==> Ranking(bookings)[i].email != Ranking(bookings)[j].email
    ensures SortedByDaysDesc(Ranking(bookings))
    ensures forall e :: e in Emails(bookings) ==>
      exists p :: 0 <= p < |Ranking(bookings)| && Ranking(bookings)[p] == StatOf(bookings, e)
  {
    var agg := Aggregate(bookings);
    var ranked := Ranking(bookings);
    SortByDaysDescCorrect(agg);
    AggregateEntries(bookings);
    assert |ranked| == |agg| by {
      assert |multiset(ranked)| == |multiset(agg)|;
    }
    forall i | 0 <= i < |ranked|
      ensures ranked[i].email in Emails(bookings) && ranked[i] == StatOf(bookings, ranked[i].email)
    {
      assert ranked[i] in multiset(agg);
    }
    forall i, j | 0 <= i < j < |ranked| ensures ranked[i].email != ranked[j].email {
      if ranked[i].email == ranked[j].email {
        DuplicateCountsTwice(ranked, i, j);
      }
    }
    forall e | e in Emails(bookings)
      ensures exists p :: 0 <= p < |ranked| && ranked[p] == StatOf(bookings, e)
    {
      var k :| 0 <= k < |Emails(bookings)| && Emails(bookings)[k] == e;
      assert agg[k] == StatOf(bookings, e);
      assert agg[k] in multiset(ranked);
    }
  }

  /** The leaderboard: at most ten guests (all of them when there are no more than ten),
      each once, each with the sum of nights and the number of their confirmed
      bookings and the name on their first one, ranked by nights; and no guest left
      out has more nights than any guest shown. */
  lemma LeaderboardIsTopTen(bookings: seq<Booking>)
    ensures |Leaderboard(bookings)| == if |Emails(bookings)| <= TopCount then |Emails(bookings)| else TopCount
    ensures forall i :: 0 <= i < |Leaderboard(bookings)| ==>
      Leaderboard(bookings)[i].email in Emails(bookings)
      && Leaderboard(bookings)[i] == StatOf(bookings, Leaderboard(bookings)[i].email)
    ensures forall i, j :: 0 <= i < j < |Leaderboard(bookings)| ==>
      Leaderboard(bookings)[i].email != Leaderboard(bookings)[j].email
    ensures SortedByDaysDesc(Leaderboard(bookings))
    ensures forall e :: (e in Emails(bookings) && (forall i :: 0 <= i < |Leaderboard(bookings)| ==> Leaderboard(bookings)[i].email != e)
                         ==> forall i :: 0 <= i < |Leaderboard(bookings)| ==> Leaderboard(bookings)[i].totalDays >= TotalDays(bookings, e))
  {
    var ranked := Ranking(bookings);
    var top := Leaderboard(bookings);
    RankingEntries(bookings);
    forall e | e in Emails(bookings) && (forall i :: 0 <= i < |top| ==> top[i].email != e)
      ensures forall i :: 0 <= i < |top| ==> top[i].totalDays >= TotalDays(bookings, e)
    {
      var p :| 0 <= p < |ranked| && ranked[p] == StatOf(bookings, e);
      assert p >= |top|;
    }
  }
}
