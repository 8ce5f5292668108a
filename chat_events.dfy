// Flattening clubs with their embedded events into event records for the
// chatbot (chatbotDatabaseUtils.extractEventsFromClubs): every event that
// has an id, in club order and then event order, carrying its club's name,
// city and distance.

module ChatEvents {
  import opened Basics

  datatype Ticket = Ticket(name: string, price: real, quantityAvailable: int, quantitySold: int)

  /** An event as stored inside its club; `id` is "" where the record has no _id. */
  datatype RawEvent = RawEvent(
    id: string, name: string, description: string, date: string, time: string,
    djArtists: Option<seq<string>>, tickets: Option<seq<Ticket>>)

  /** A club as the query returns it; `events` is None where it is not an array. */
  datatype RawClub = RawClub(name: string, city: string, distanceFromUser: Option<real>, events: Option<seq<Option<RawEvent>>>)

  /** The flattened event the chatbot describes and the cards show. */
  datatype ChatEvent = ChatEvent(
    id: string, name: string, description: string, date: string, time: string,
    venue: string, city: string, djArtists: Option<seq<string>>, tickets: Option<seq<Ticket>>,
    distanceFromUser: Option<real>)

  /** `event && event._id` */
  predicate HasId(e: Option<RawEvent>) { e.Some? && e.value.id != "" }

  function Flatten(c: RawClub, e: RawEvent): (r: ChatEvent)
    ensures r.venue == c.name && r.city == c.city && r.distanceFromUser == c.distanceFromUser
    ensures r.id == e.id && r.name == e.name && r.date == e.date && r.time == e.time
  {
    ChatEvent(e.id, e.name, e.description, e.date, e.time, c.name, c.city, e.djArtists, e.tickets, c.distanceFromUser)
  }

  /** The records one club contributes from a list of its events, in that list's order. */
  function FromEvents(c: RawClub, events: seq<Option<RawEvent>>): (r: seq<ChatEvent>)
    ensures forall i :: 0 <= i < |r| ==> r[i].id != "" && r[i].venue == c.name
  {
    if events == [] then []
    else
      var last := events[|events| - 1];
      FromEvents(c, events[..|events| - 1]) + (if HasId(last) then [Flatten(c, last.value)] else [])
  }

  function FromClub(c: RawClub): (r: seq<ChatEvent>)
    ensures forall i :: 0 <= i < |r| ==> r[i].id != "" && r[i].venue == c.name
  {
    match c.events
    case None => []
    case Some(events) => FromEvents(c, events)
  }

  /** All the records, club after club. */
  function Extracted(clubs: seq<RawClub>): (r: seq<ChatEvent>)
    ensures forall i :: 0 <= i < |r| ==> r[i].id != ""
  {
    if clubs == [] then [] else Extracted(clubs[..|clubs| - 1]) + FromClub(clubs[|clubs| - 1])
  }

  /** `extractEventsFromClubs`: the nested forEach, pushing onto one list. */
  method ExtractEventsFromClubs(clubs: seq<RawClub>) returns (events: seq<ChatEvent>)
    ensures events == Extracted(clubs)
  {
    events := [];
    var i := 0;
    while i < |clubs|
      invariant 0 <= i <= |clubs|
      invariant events == Extracted(clubs[..i])
    {
      var club := clubs[i];
      assert clubs[..i + 1][..i] == clubs[..i];
      if club.events.Some? {
        var clubEvents := club.events.value;
        var j := 0;
        while j < |clubEvents|
          invariant 0 <= j <= |clubEvents|
          invariant events == Extracted(clubs[..i]) + FromEvents(club, clubEvents[..j])
        {
          assert clubEvents[..j + 1][..j] == clubEvents[..j];
          var event := clubEvents[j];
          if event.Some? && event.value.id != "" {
            events := events + [Flatten(club, event.value)];
          }
          j := j + 1;
        }
        assert clubEvents[..j] == clubEvents;
      }
      i := i + 1;
    }
    assert clubs[..i] == clubs;
  }

  /** The number of events with an id among a club's events. */
  function CountWithId(events: seq<Option<RawEvent>>): nat {
    if events == [] then 0 else CountWithId(events[..|events| - 1]) + (if HasId(events[|events| - 1]) then 1 else 0)
  }

  function ClubCount(c: RawClub): nat {
    match c.events
    case None => 0
    case Some(events) => CountWithId(events)
  }

  function TotalCount(clubs: seq<RawClub>): nat {
    if clubs == [] then 0 else TotalCount(clubs[..|clubs| - 1]) + ClubCount(clubs[|clubs| - 1])
  }

  lemma {:induction false} FromEventsLength(c: RawClub, events: seq<Option<RawEvent>>)
    ensures |FromEvents(c, events)| == CountWithId(events)
  {
    if events != [] {
      FromEventsLength(c, events[..|events| - 1]);
    }
  }

  /** One record per event with an id, across every club with an events array. */
  lemma {:induction false} ExtractedLength(clubs: seq<RawClub>)
    ensures |Extracted(clubs)| == TotalCount(clubs)
  {
    if clubs != [] {
      ExtractedLength(clubs[..|clubs| - 1]);
      var c := clubs[|clubs| - 1];
      if c.events.Some? {
        FromEventsLength(c, c.events.value);
      }
    }
  }

  /** Each record of a club names that club, and comes from one of its events with an id. */
  lemma {:induction false} FromEventsOwned(c: RawClub, events: seq<Option<RawEvent>>)
    ensures forall k :: 0 <= k < |FromEvents(c, events)| ==>
      FromEvents(c, events)[k].venue == c.name && FromEvents(c, events)[k].city == c.city
      && FromEvents(c, events)[k].distanceFromUser == c.distanceFromUser
      && (exists e :: e in events && HasId(e) && FromEvents(c, events)[k] == Flatten(c, e.value))
  {
    if events != [] {
      var init := events[..|events| - 1];
      FromEventsOwned(c, init);
      var r := FromEvents(c, events);
      forall k | 0 <= k < |r|
        ensures r[k].venue == c.name && r[k].city == c.city && r[k].distanceFromUser == c.distanceFromUser
        ensures exists e :: e in events && HasId(e) && r[k] == Flatten(c, e.value)
      {
        assert r == FromEvents(c, init) + (if HasId(events[|events| - 1]) then [Flatten(c, events[|events| - 1].value)] else []);
        if k < |FromEvents(c, init)| {
          assert r[k] == FromEvents(c, init)[k];
          var e :| e in init && HasId(e) && FromEvents(c, init)[k] == Flatten(c, e.value);
          assert e in events;
        } else {
          assert events[|events| - 1] in events;
        }
      }
    }
  }

  /** Every record carries the name, city and distance of a club it came from. */
  lemma {:induction false} ExtractedOwned(clubs: seq<RawClub>)
    ensures forall k :: 0 <= k < |Extracted(clubs)| ==>
      exists c :: (c in clubs && Extracted(clubs)[k].venue == c.name && Extracted(clubs)[k].city == c.city
        && Extracted(clubs)[k].distanceFromUser == c.distanceFromUser)
  {
    if clubs != [] {
      var init := clubs[..|clubs| - 1];
      var c := clubs[|clubs| - 1];
      ExtractedOwned(init);
      var r := Extracted(clubs);
      if c.events.Some? {
        FromEventsOwned(c, c.events.value);
      }
      forall k | 0 <= k < |Extracted(clubs)|
        ensures exists d :: (d in clubs && Extracted(clubs)[k].venue == d.name && Extracted(clubs)[k].city == d.city
          && Extracted(clubs)[k].distanceFromUser == d.distanceFromUser)
      {
        assert r == Extracted(init) + FromClub(c);
        if k < |Extracted(init)| {
          assert r[k] == Extracted(init)[k];
          var d :| d in init && Extracted(init)[k].venue == d.name && Extracted(init)[k].city == d.city
            && Extracted(init)[k].distanceFromUser == d.distanceFromUser;
          assert d in clubs;
        } else {
          assert c in clubs;
          assert r[k] == FromClub(c)[k - |Extracted(init)|];
        }
      }
    } else {
      assert Extracted(clubs) == [];
    }
  }

  /** A club whose events are not an array adds nothing, wherever it stands. */
  lemma ClubWithoutEventsAddsNothing(clubs: seq<RawClub>, c: RawClub)
    requires c.events.None?
    ensures Extracted(clubs + [c]) == Extracted(clubs)
  {
    assert (clubs + [c])[..|clubs|] == clubs;
  }

  /** Records of earlier clubs come before those of later clubs. */
  lemma ExtractedAppend(clubs: seq<RawClub>, c: RawClub)
    ensures Extracted(clubs + [c]) == Extracted(clubs) + FromClub(c)
  {
    assert (clubs + [c])[..|clubs|] == clubs;
  }
}
