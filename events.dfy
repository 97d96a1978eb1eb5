/** The events page: upcoming events earliest first, past events latest first, split at the time the page is built. */
module Events {

  /** An event; `date` is the instant its date string denotes (midnight UTC), in milliseconds. */
  datatype Event = Event(id: int, title: string, date: int)

  const DayMs: int := 86400000

  /** The five events the page lists. */
  const MockEvents: seq<Event> := [
    Event(1, "An Evening with Elena Vance", 20315 * DayMs),   // 2025-08-15
    Event(2, "Poetry Open Mic Night", 20322 * DayMs),         // 2025-08-22
    Event(3, "Sci-Fi Symposium with Marcus Chen", 20336 * DayMs), // 2025-09-05
    Event(4, "Children's Story Time", 19924 * DayMs),         // 2024-07-20
    Event(5, "Summer Reading Gala", 19889 * DayMs)            // 2024-06-15
  ]

  /** `a` may come before `b`: ascending or descending by date. */
  predicate InOrder(a: Event, b: Event, descending: bool) {
    if descending then a.date >= b.date else a.date <= b.date
  }

  predicate Sorted(s: seq<Event>, descending: bool) {
    forall i, j :: 0 <= i < j < |s| ==> InOrder(s[i], s[j], descending)
  }

  /** Inserts `e` after every element that may precede it, so that equal dates keep their order. */
  function Insert(e: Event, s: seq<Event>, descending: bool): (r: seq<Event>)
    ensures multiset(r) == multiset(s) + multiset{e}
    ensures |r| == |s| + 1
  {
    if s == [] then [e]
    else if InOrder(s[0], e, descending) then
      assert s == [s[0]] + s[1..];
      [s[0]] + Insert(e, s[1..], descending)
    else [e] + s
  }

  lemma {:induction false} InsertSorted(e: Event, s: seq<Event>, descending: bool)
    requires Sorted(s, descending)
    ensures Sorted(Insert(e, s, descending), descending)
  {
    if s == [] {
    } else if InOrder(s[0], e, descending) {
      InsertSorted(e, s[1..], descending);
      var t := Insert(e, s[1..], descending);
      forall j | 0 <= j < |t|
        ensures InOrder(s[0], t[j], descending)
      {
        assert t[j] in multiset(s[1..]) + multiset{e};
        if t[j] in multiset(s[1..]) {
          var k :| 0 <= k < |s[1..]| && s[1..][k] == t[j];
          assert s[k + 1] == t[j];
        }
      }
      ConsSorted(s[0], t, descending);
    } else {
      ConsSorted(e, s, descending);
    }
  }

  /** An element that may precede every element of a sorted list can be put in front of it. */
  lemma {:induction false} ConsSorted(x: Event, t: seq<Event>, descending: bool)
    requires Sorted(t, descending)
    requires forall j :: 0 <= j < |t| ==> InOrder(x, t[j], descending)
    ensures Sorted([x] + t, descending)
  {
    var r := [x] + t;
    forall i, j | 0 <= i < j < |r|
      ensures InOrder(r[i], r[j], descending)
    {
      assert r[j] == t[j - 1];
      if i > 0 {
        assert r[i] == t[i - 1];
      }
    }
  }

  /** The array `sort` with a date comparator: a stable insertion sort. */
  function SortByDate(s: seq<Event>, descending: bool): (r: seq<Event>)
    ensures |r| == |s|
  {
    if s == [] then [] else Insert(s[|s| - 1], SortByDate(s[..|s| - 1], descending), descending)
  }

  /** Sorting by date keeps each event as often as it occurs. */
  lemma {:induction false} SortByDatePermutes(s: seq<Event>, descending: bool)
    ensures multiset(SortByDate(s, descending)) == multiset(s)
  {
    if s != [] {
      var init := s[..|s| - 1];
      SortByDatePermutes(init, descending);
      assert s == init + [s[|s| - 1]];
      assert multiset(s) == multiset(init) + multiset{s[|s| - 1]};
    }
  }

  /** Sorting by date leaves the events in date order. */
  lemma {:induction false} SortByDateOrders(s: seq<Event>, descending: bool)
    ensures Sorted(SortByDate(s, descending), descending)
  {
    if s != [] {
      var init := s[..|s| - 1];
      SortByDateOrders(init, descending);
      InsertSorted(s[|s| - 1], SortByDate(init, descending), descending);
    }
  }

  /** `events.filter(keep)`, keeping the events from `now` on (`upcoming`) or those before it. */
  function FilterFrom(s: seq<Event>, now: int, upcoming: bool): (r: seq<Event>)
    ensures forall e :: e in r ==> if upcoming then e.date >= now else e.date < now
  {
    if s == [] then []
    else
      var rest := FilterFrom(s[1..], now, upcoming);
      if (if upcoming then s[0].date >= now else s[0].date < now) then [s[0]] + rest else rest
  }

  /** The two filters split the events: together they keep each one as often as it occurs. */
  lemma {:induction false} FiltersSplit(s: seq<Event>, now: int)
    ensures multiset(FilterFrom(s, now, true)) + multiset(FilterFrom(s, now, false)) == multiset(s)
  {
    if s != [] {
      FiltersSplit(s[1..], now);
      assert s == [s[0]] + s[1..];
    }
  }

  /** `upcomingEvents`: from `now` on, earliest first. */
  function Upcoming(events: seq<Event>, now: int): (r: seq<Event>)
    ensures Sorted(r, false)
    ensures forall e :: e in r ==> e.date >= now
  {
    var kept := FilterFrom(events, now, true);
    SortByDateOrders(kept, false);
    SortByDatePermutes(kept, false);
    assert forall e :: e in SortByDate(kept, false) ==> e in multiset(kept);
    SortByDate(kept, false)
  }

  /** `pastEvents`: before `now`, latest first. */
  function Past(events: seq<Event>, now: int): (r: seq<Event>)
    ensures Sorted(r, true)
    ensures forall e :: e in r ==> e.date < now
  {
    var kept := FilterFrom(events, now, false);
    SortByDateOrders(kept, true);
    SortByDatePermutes(kept, true);
    assert forall e :: e in SortByDate(kept, true) ==> e in multiset(kept);
    SortByDate(kept, true)
  }

  /** Both lists are ordered as the page promises and split the events at the one instant `now`:
    * every event is in exactly one of them, as many times as in the input. */
  lemma {:induction false} EventsPartition(events: seq<Event>, now: int)
    ensures Sorted(Upcoming(events, now), false) && Sorted(Past(events, now), true)
    ensures forall e :: e in Upcoming(events, now) ==> e.date >= now
    ensures forall e :: e in Past(events, now) ==> e.date < now
    ensures multiset(Upcoming(events, now)) + multiset(Past(events, now)) == multiset(events)
  {
    var up := FilterFrom(events, now, true);
    var past := FilterFrom(events, now, false);
    FiltersSplit(events, now);
    SortByDatePermutes(up, false);
    SortByDatePermutes(past, true);
    SortByDateOrders(up, false);
    SortByDateOrders(past, true);
    forall e | e in Upcoming(events, now) ensures e.date >= now {
      assert e in multiset(Upcoming(events, now));
      assert e in multiset(up);
    }
    forall e | e in Past(events, now) ensures e.date < now {
      assert e in multiset(Past(events, now));
      assert e in multiset(past);
    }
  }

  const NewYear2025: int := 20089 * DayMs

  lemma {:induction false} MockUpcomingFiltered()
    ensures FilterFrom(MockEvents, NewYear2025, true) == MockEvents[..3]
  {
    var e := MockEvents;
    assert FilterFrom(e[4..], NewYear2025, true) == [] by {
      assert e[4..][1..] == [];
    }
    assert FilterFrom(e[3..], NewYear2025, true) == [] by {
      assert e[3..][1..] == e[4..];
    }
    assert FilterFrom(e[2..], NewYear2025, true) == [e[2]] by {
      assert e[2..][1..] == e[3..];
    }
    assert FilterFrom(e[1..], NewYear2025, true) == [e[1], e[2]] by {
      assert e[1..][1..] == e[2..];
    }
    assert e[1..] == e[1..];
  }

  lemma {:induction false} MockPastFiltered()
    ensures FilterFrom(MockEvents, NewYear2025, false) == MockEvents[3..]
  {
    var e := MockEvents;
    assert FilterFrom(e[4..], NewYear2025, false) == [e[4]] by {
      assert e[4..][1..] == [];
    }
    assert FilterFrom(e[3..], NewYear2025, false) == [e[3], e[4]] by {
      assert e[3..][1..] == e[4..];
    }
    assert FilterFrom(e[2..], NewYear2025, false) == [e[3], e[4]] by {
      assert e[2..][1..] == e[3..];
    }
    assert FilterFrom(e[1..], NewYear2025, false) == [e[3], e[4]] by {
      assert e[1..][1..] == e[2..];
    }
    assert e[1..] == e[1..];
  }

  /** `a` comes strictly before `b` in the order. */
  predicate Precedes(a: Event, b: Event, descending: bool) {
    if descending then a.date > b.date else a.date < b.date
  }

  /** Each element comes strictly before the next. */
  predicate StrictChain(s: seq<Event>, descending: bool) {
    forall i :: 0 <= i < |s| - 1 ==> Precedes(s[i], s[i + 1], descending)
  }

  /** Insertion sort leaves a list that is already strictly in order as it is. */
  lemma {:induction false} SortOfOrdered(s: seq<Event>, descending: bool)
    requires StrictChain(s, descending)
    ensures SortByDate(s, descending) == s
  {
    if s != [] {
      var init := s[..|s| - 1];
      var last := s[|s| - 1];
      ChainInit(s, descending);
      SortOfOrdered(init, descending);
      if init != [] {
        assert init[|init| - 1] == s[|s| - 2];
      }
      ChainBeforeLast(init, last, descending);
      InsertLast(init, last, descending);
      SortByDateLast(s, descending);
      assert init + [last] == s;
    }
  }

  lemma {:induction false} SortByDateLast(s: seq<Event>, descending: bool)
    requires s != []
    ensures SortByDate(s, descending) == Insert(s[|s| - 1], SortByDate(s[..|s| - 1], descending), descending)
  {
  }

  lemma {:induction false} ChainInit(s: seq<Event>, descending: bool)
    requires s != [] && StrictChain(s, descending)
    ensures StrictChain(s[..|s| - 1], descending)
  {
    var init := s[..|s| - 1];
    assert forall k :: 0 <= k < |init| ==> init[k] == s[k];
  }

  /** Every element of a strict chain that ends before `last` may precede `last`. */
  lemma {:induction false} ChainBeforeLast(s: seq<Event>, last: Event, descending: bool)
    requires StrictChain(s, descending)
    requires s != [] ==> Precedes(s[|s| - 1], last, descending)
    ensures forall k :: 0 <= k < |s| ==> InOrder(s[k], last, descending)
    decreases |s|
  {
    if s != [] {
      var init := s[..|s| - 1];
      ChainInit(s, descending);
      if init != [] {
        assert init[|init| - 1] == s[|s| - 2];
      }
      ChainBeforeLast(init, last, descending);
      assert forall k :: 0 <= k < |init| ==> init[k] == s[k];
    }
  }

  lemma {:induction false} InsertLast(s: seq<Event>, e: Event, descending: bool)
    requires forall k :: 0 <= k < |s| ==> InOrder(s[k], e, descending)
    ensures Insert(e, s, descending) == s + [e]
  {
    if s != [] {
      InsertLast(s[1..], e, descending);
      assert [s[0]] + (s[1..] + [e]) == s + [e];
    }
  }

  /** Built on 2025-01-01, the page lists events 1, 2, 3 as upcoming in that order and 4, 5 as past. */
  lemma {:induction false} MockEventsOnNewYear2025()
    ensures Upcoming(MockEvents, NewYear2025) == MockEvents[..3]
    ensures Past(MockEvents, NewYear2025) == MockEvents[3..]
  {
    MockUpcomingFiltered();
    MockPastFiltered();
    MockUpcomingInOrder();
    MockPastInOrder();
  }

  lemma {:induction false} MockUpcomingInOrder()
    ensures SortByDate(MockEvents[..3], false) == MockEvents[..3]
  {
    var up := MockEvents[..3];
    assert Precedes(up[0], up[1], false) && Precedes(up[1], up[2], false);
    SortOfOrdered(up, false);
  }

  lemma {:induction false} MockPastInOrder()
    ensures SortByDate(MockEvents[3..], true) == MockEvents[3..]
  {
    var past := MockEvents[3..];
    assert Precedes(past[0], past[1], true);
    SortOfOrdered(past, true);
  }
}
