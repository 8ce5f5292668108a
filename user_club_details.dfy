// A club's public page (userClubDetailsScreen): its events shown under the
// club's name, the events of the chosen date tab in date order, the city
// shown, and the link that "open in maps" follows.
//
// An event's date is already a local moment (None where the date text does
// not parse, which compares false with every bound).  The map search URL is
// given by the text it searches for; its URI encoding is not modelled.

module UserClubDetails {
  import opened Basics
  import opened Text
  import opened EventsTicketing
  import opened TimelineTabs

  datatype ClubEvent = ClubEvent(id: string, name: string, venue: string, date: Option<Stamp>)

  /** `allEvents`: every event of the club, its venue the club's name when the club has one. */
  function AllEvents(clubName: string, events: seq<ClubEvent>): (r: seq<ClubEvent>)
    ensures |r| == |events|
    ensures forall i :: 0 <= i < |r| ==> r[i] == events[i].(venue := r[i].venue)
    ensures forall i :: 0 <= i < |r| ==> r[i].venue == if clubName != "" then clubName else events[i].venue
  {
    Map(events, (e: ClubEvent) => e.(venue := OrElse(clubName, e.venue)))
  }

  /** The moment an event is sorted by; an unparsed date never reaches the sort. */
  function DateKey(e: ClubEvent): Stamp {
    e.date.GetOr(Stamp(Date(0, 1, 1), 0))
  }

  predicate Later(a: Stamp, b: Stamp) { !StampAtMost(a, b) }

  /** `eventDate >= start && eventDate <= end` */
  predicate InRange(e: ClubEvent, range: Range) {
    e.date.Some? && StampAtMost(range.start, e.date.value) && StampAtMost(e.date.value, range.end)
  }

  /** Placing one event into a list sorted by date, after the events of the same moment. */
  function Insert(x: ClubEvent, t: seq<ClubEvent>): (r: seq<ClubEvent>)
    ensures multiset(r) == multiset(t) + multiset{x}
  {
    if t == [] then [x]
    else if Later(DateKey(t[0]), DateKey(x)) then [x] + t
    else
      assert t == [t[0]] + t[1..];
      [t[0]] + Insert(x, t[1..])
  }

  predicate SortedByDate(s: seq<ClubEvent>) {
    forall i, j :: 0 <= i < j < |s| ==> StampAtMost(DateKey(s[i]), DateKey(s[j]))
  }

  lemma StampOrderTotal(a: Stamp, b: Stamp)
    ensures StampAtMost(a, b) || StampAtMost(b, a)
  {
  }

  lemma StampOrderTransitive(a: Stamp, b: Stamp, c: Stamp)
    requires StampAtMost(a, b) && StampAtMost(b, c)
    ensures StampAtMost(a, c)
  {
  }

  lemma {:induction false} InsertSorted(x: ClubEvent, t: seq<ClubEvent>)
    requires SortedByDate(t)
    ensures SortedByDate(Insert(x, t))
  {
    if t != [] {
      if Later(DateKey(t[0]), DateKey(x)) {
        StampOrderTotal(DateKey(t[0]), DateKey(x));
        forall j | 0 <= j < |t| ensures StampAtMost(DateKey(x), DateKey(t[j])) {
          if j > 0 {
            StampOrderTransitive(DateKey(x), DateKey(t[0]), DateKey(t[j]));
          }
        }
      } else {
        InsertSorted(x, t[1..]);
        var r := Insert(x, t[1..]);
        forall k | 0 <= k < |r| ensures StampAtMost(DateKey(t[0]), DateKey(r[k])) {
          assert r[k] in multiset(r);
          if r[k] != x {
            assert r[k] in multiset(t[1..]);
            var j :| 0 <= j < |t[1..]| && t[1..][j] == r[k];
            assert t[j + 1] == r[k];
          }
        }
      }
    }
  }

  /** Array.prototype.sort by date: stable, earliest first. */
  function SortByDate(s: seq<ClubEvent>): (r: seq<ClubEvent>)
    ensures multiset(r) == multiset(s)
  {
    if s == [] then []
    else
      assert s == s[..|s| - 1] + [s[|s| - 1]];
      Insert(s[|s| - 1], SortByDate(s[..|s| - 1]))
  }

  lemma {:induction false} SortByDateSorted(s: seq<ClubEvent>)
    ensures SortedByDate(SortByDate(s))
  {
    if s != [] {
      SortByDateSorted(s[..|s| - 1]);
      InsertSorted(s[|s| - 1], SortByDate(s[..|s| - 1]));
    }
  }

  /** `filteredEvents`: the events inside the tab's range, earliest first. */
  function FilteredEvents(events: seq<ClubEvent>, range: Range): (r: seq<ClubEvent>)
    ensures |r| <= |events|
  {
    var kept := Filter(events, (e: ClubEvent) => InRange(e, range));
    var r := SortByDate(kept);
    assert |r| == |multiset(r)| == |multiset(kept)| == |kept|;
    r
  }

  /**
   * The shown events are exactly the events dated inside the range, each
   * as often as the club lists it, earliest first.
   */
  lemma FilteredEventsShape(events: seq<ClubEvent>, range: Range)
    ensures var r := FilteredEvents(events, range);
      SortedByDate(r)
      && (forall i :: 0 <= i < |r| ==> InRange(r[i], range) && r[i] in events)
      && (forall e :: e in events && InRange(e, range) ==> e in r)
      && (forall e :: multiset(r)[e] == if InRange(e, range) then multiset(events)[e] else 0)
      && |r| <= |events|
  {
    var kept := Filter(events, (e: ClubEvent) => InRange(e, range));
    var r := FilteredEvents(events, range);
    SortByDateSorted(kept);
    FilterMultiset(events, (e: ClubEvent) => InRange(e, range));
    forall i | 0 <= i < |r| ensures InRange(r[i], range) && r[i] in events {
      assert r[i] in multiset(kept);
    }
    forall e | e in events && InRange(e, range) ensures e in r {
      assert e in multiset(kept);
    }
    assert |r| == |multiset(r)| == |multiset(kept)| == |kept|;
  }

  /** Tonight's events are those of today's date. */
  lemma TonightIsToday(events: seq<ClubEvent>, today: Date, weekday: int, e: ClubEvent)
    requires ValidDate(today) && 0 <= weekday < 7
    requires e in events && e.date.Some? && ValidStamp(e.date.value)
    ensures e in FilteredEvents(events, TabRange(Tonight, today, weekday)) <==> e.date.value.date == today
  {
    FilteredEventsShape(events, TabRange(Tonight, today, weekday));
  }

  datatype City = AbuDhabi | Dubai

  /** `selectedCity`: the club's city, "Dubai" when it has none, read as Abu Dhabi when it mentions "abu". */
  function SelectedCity(city: string): (r: City)
    ensures r == AbuDhabi <==> Contains(ToLower(Trim(OrElse(city, "Dubai"))), "abu")
  {
    if Contains(ToLower(Trim(OrElse(city, "Dubai"))), "abu") then AbuDhabi else Dubai
  }

  /** A club whose city starts with "abu" in any case is shown in Abu Dhabi. */
  lemma AbuDhabiCity(city: string)
    requires Trim(city) == city && |city| >= 3 && ToLower(city[..3]) == "abu"
    ensures SelectedCity(city) == AbuDhabi
  {
    var shown := ToLower(Trim(city));
    assert StartsWith(shown[0..], "abu");
  }

  /** Spaces around a club's city do not change where it is shown. */
  lemma PaddedCity(city: string)
    requires city != ""
    ensures SelectedCity(" " + city + " ") == SelectedCity(city)
  {
    TrimPadded(city);
  }

  /** A club without a city is shown in Dubai. */
  lemma NoCityIsDubai()
    ensures SelectedCity("") == Dubai
  {
    var shown := ToLower(Trim("Dubai"));
    assert TrimStart("Dubai") == "Dubai";
    assert TrimEnd("Dubai") == "Dubai";
    assert shown == "dubai";
    assert shown[0..3] == "dub" && shown[1..4] == "uba" && shown[2..5] == "bai";
    forall i | 0 <= i <= |shown| ensures !StartsWith(shown[i..], "abu") {
      if i + 3 <= |shown| {
        assert shown[i..][..3] == shown[i..i + 3];
        assert i == 0 || i == 1 || i == 2;
      }
    }
  }

  datatype MapsTarget = Link(url: string) | Search(query: string)

  /** `openMaps`: the club's map link when it has one, else a map search for its name. */
  function MapsUrl(mapLink: Option<string>, clubName: string): (r: MapsTarget)
    ensures mapLink.Some? && mapLink.value != "" ==> r == Link(mapLink.value)
    ensures (mapLink.None? || mapLink.value == "") ==> r == Search(clubName)
  {
    match mapLink
    case Some(link) => if |link| > 0 then Link(link) else Search(clubName)
    case None => Search(clubName)
  }
}
