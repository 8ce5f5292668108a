// The search screen (frontend/components/screens/SearchScreen.tsx): the
// recent-search history and the recently opened items, both capped at five
// entries, and the filtering of the fetched events or clubs by the query.

module SearchScreen {
  import opened Basics
  import opened Text
  import opened SearchPattern

  const Cap := 5

  datatype Mode = EventsMode | ClubsMode

  /** A recently opened event or club. */
  datatype Selection = Selection(id: string, name: string)

  /** The searchable fields of an event; a missing field is the empty string. */
  datatype EventItem = EventItem(name: string, djArtists: string, venue: string)

  /** The searchable fields of a club; a missing field is the empty string. */
  datatype Club = Club(name: string, clubDescription: string, address: string, typeOfVenue: string)

  /** What the key-value store yields for a list key, after `JSON.parse`. */
  datatype Stored<T> = Absent | Malformed | NotAnArray | Array(items: seq<T>)

  /** The list restored on mount: the first five stored entries, or nothing. */
  function LoadList<T>(stored: Stored<T>): (r: seq<T>)
    ensures |r| <= Cap
  {
    match stored
    case Array(items) => Take(items, Cap)
    case _ => []
  }

  lemma LoadListSpec<T>(stored: Stored<T>)
    ensures |LoadList(stored)| <= Cap
    ensures stored.Array? ==> LoadList(stored) == stored.items[..|LoadList(stored)|]
    ensures stored.Array? && |stored.items| >= Cap ==> |LoadList(stored)| == Cap
    ensures !stored.Array? ==> LoadList(stored) == []
  {
  }

  /** Pushing `head` in front of `rest` and capping keeps a prefix of `rest` behind it. */
  lemma PushFront<T>(head: T, rest: seq<T>)
    ensures var r := Take([head] + rest, Cap);
      1 <= |r| <= Cap && r[0] == head
      && r[1..] == rest[..|r| - 1]
      && (|r| == Cap || r[1..] == rest)
  {
    var s := [head] + rest;
    assert s[1..] == rest;
  }

  /** The earlier queries that survive saving `text`: those different from it up to case. */
  function OtherQueries(history: seq<string>, text: string): (r: seq<string>)
    ensures forall i :: 0 <= i < |r| ==> ToLower(r[i]) != ToLower(Trim(text))
    ensures IsSubseq(r, history)
    ensures forall h :: multiset(r)[h] == if ToLower(h) != ToLower(Trim(text)) then multiset(history)[h] else 0
  {
    var key := ToLower(Trim(text));
    var keep := (h: string) => ToLower(h) != key;
    FilterIsSubseq(history, keep);
    FilterMultiset(history, keep);
    Filter(history, keep)
  }

  function SavedHistory(history: seq<string>, text: string): (r: seq<string>)
    ensures 1 <= |r| <= Cap && r[0] == Trim(text)
  {
    Take([Trim(text)] + OtherQueries(history, text), Cap)
  }

  /**
   * The saved query heads the history, the history keeps at most five
   * entries, no later entry equals the head up to case, and the later
   * entries are the surviving earlier queries in their old order, as many
   * as fit.
   */
  lemma SavedHistorySpec(history: seq<string>, text: string)
    ensures var r := SavedHistory(history, text);
      1 <= |r| <= Cap && r[0] == Trim(text)
      && (forall i :: 1 <= i < |r| ==> ToLower(r[i]) != ToLower(Trim(text)))
      && IsSubseq(r[1..], history)
      && r[1..] == OtherQueries(history, text)[..|r| - 1]
      && (|r| == Cap || r[1..] == OtherQueries(history, text))
  {
    var existing := OtherQueries(history, text);
    var r := SavedHistory(history, text);
    PushFront(Trim(text), existing);
    assert forall i :: 1 <= i < |r| ==> r[i] == existing[i - 1];
    SubseqPrefix(existing, history, |r| - 1);
  }

  /** The entries that survive saving a selection: another id and another name up to case. */
  predicate Unrelated(s: Selection, id: string, name: string) {
    s.id != id && ToLower(s.name) != ToLower(Trim(name))
  }

  function OtherSelections(selections: seq<Selection>, id: string, name: string): (r: seq<Selection>)
    ensures forall i :: 0 <= i < |r| ==> Unrelated(r[i], id, name)
    ensures IsSubseq(r, selections)
    ensures forall s :: multiset(r)[s] == if Unrelated(s, id, name) then multiset(selections)[s] else 0
  {
    var keep := (s: Selection) => Unrelated(s, id, name);
    FilterIsSubseq(selections, keep);
    FilterMultiset(selections, keep);
    Filter(selections, keep)
  }

  function SavedSelections(selections: seq<Selection>, id: string, name: string): seq<Selection> {
    Take([Selection(id, Trim(name))] + OtherSelections(selections, id, name), Cap)
  }

  /**
   * The opened item heads the list with its trimmed name, the list keeps at
   * most five entries, no later entry has that id or that name up to case,
   * and the later entries are the surviving selections in order, as many as fit.
   */
  lemma SavedSelectionsSpec(selections: seq<Selection>, id: string, name: string)
    ensures var r := SavedSelections(selections, id, name);
      1 <= |r| <= Cap && r[0] == Selection(id, Trim(name))
      && (forall i :: 1 <= i < |r| ==> r[i].id != id && ToLower(r[i].name) != ToLower(Trim(name)))
      && IsSubseq(r[1..], selections)
      && r[1..] == OtherSelections(selections, id, name)[..|r| - 1]
      && (|r| == Cap || r[1..] == OtherSelections(selections, id, name))
  {
    var existing := OtherSelections(selections, id, name);
    var r := SavedSelections(selections, id, name);
    PushFront(Selection(id, Trim(name)), existing);
    forall i | 1 <= i < |r| ensures Unrelated(r[i], id, name) {
      assert r[i] == existing[i - 1];
    }
    SubseqPrefix(existing, selections, |r| - 1);
  }

  function DeletedHistory(history: seq<string>, text: string): seq<string> {
    Filter(history, (h: string) => h != text)
  }

  /** Exactly the entries equal to `text` go; the rest stay, in order. */
  lemma DeletedHistorySpec(history: seq<string>, text: string)
    ensures text !in DeletedHistory(history, text)
    ensures forall i :: 0 <= i < |history| && history[i] != text ==> history[i] in DeletedHistory(history, text)
    ensures IsSubseq(DeletedHistory(history, text), history)
    ensures forall h :: multiset(DeletedHistory(history, text))[h] == if h != text then multiset(history)[h] else 0
  {
    FilterIsSubseq(history, (h: string) => h != text);
    FilterMultiset(history, (h: string) => h != text);
  }

  function DeletedSelections(selections: seq<Selection>, id: string): seq<Selection> {
    Filter(selections, (s: Selection) => s.id != id)
  }

  /** Exactly the entries with `id` go; the rest stay, in order. */
  lemma DeletedSelectionsSpec(selections: seq<Selection>, id: string)
    ensures forall s :: s in DeletedSelections(selections, id) ==> s.id != id
    ensures forall i :: 0 <= i < |selections| && selections[i].id != id ==> selections[i] in DeletedSelections(selections, id)
    ensures IsSubseq(DeletedSelections(selections, id), selections)
    ensures forall s :: multiset(DeletedSelections(selections, id))[s] == if s.id != id then multiset(selections)[s] else 0
  {
    FilterIsSubseq(selections, (s: Selection) => s.id != id);
    FilterMultiset(selections, (s: Selection) => s.id != id);
  }

  /** The screen's two remembered lists; persisting them to the store is not modelled. */
  class SearchState {
    var history: seq<string>
    var selections: seq<Selection>

    constructor (storedHistory: Stored<string>, storedSelections: Stored<Selection>)
      ensures history == LoadList(storedHistory) && selections == LoadList(storedSelections)
    {
      history := LoadList(storedHistory);
      selections := LoadList(storedSelections);
    }

    method SaveToHistory(text: string)
      modifies this
      ensures history == SavedHistory(old(history), text) && selections == old(selections)
    {
      history := SavedHistory(history, text);
    }

    method SaveSelection(id: string, name: string)
      modifies this
      ensures selections == SavedSelections(old(selections), id, name) && history == old(history)
    {
      selections := SavedSelections(selections, id, name);
    }

    method DeleteHistoryItem(text: string)
      modifies this
      ensures history == DeletedHistory(old(history), text) && selections == old(selections)
    {
      history := DeletedHistory(history, text);
    }

    method DeleteSelectionItem(id: string)
      modifies this
      ensures selections == DeletedSelections(old(selections), id) && history == old(history)
    {
      selections := DeletedSelections(selections, id);
    }

    method ClearAllHistory()
      modifies this
      ensures history == [] && selections == old(selections)
    {
      history := [];
    }

    method ClearAllSelections()
      modifies this
      ensures selections == [] && history == old(history)
    {
      selections := [];
    }
  }

  predicate EventMatches(words: seq<string>, e: EventItem) {
    Test(words, e.name) || Test(words, e.djArtists) || Test(words, e.venue)
  }

  predicate ClubMatches(words: seq<string>, c: Club) {
    Test(words, c.name) || Test(words, c.clubDescription) || Test(words, c.address) || Test(words, c.typeOfVenue)
  }

  function FilteredEvents(mode: Mode, events: seq<EventItem>, query: string): (r: seq<EventItem>)
    ensures mode != EventsMode ==> r == []
    ensures |r| <= |events|
  {
    if mode != EventsMode then []
    else match BuildRegex(query)
      case None => events
      case Some(words) => Filter(events, (e: EventItem) => EventMatches(words, e))
  }

  function FilteredClubs(mode: Mode, clubs: seq<Club>, query: string): (r: seq<Club>)
    ensures mode != ClubsMode ==> r == []
    ensures |r| <= |clubs|
  {
    if mode != ClubsMode then []
    else match BuildRegex(query)
      case None => clubs
      case Some(words) => Filter(clubs, (c: Club) => ClubMatches(words, c))
  }

  /**
   * A blank query shows every event; otherwise exactly the events with a
   * matching name, artist list or venue are shown, in their fetched order.
   */
  lemma FilteredEventsSpec(events: seq<EventItem>, query: string)
    ensures Blank(query) ==> FilteredEvents(EventsMode, events, query) == events
    ensures BuildRegex(query).Some? ==>
      var words := BuildRegex(query).value;
      var r := FilteredEvents(EventsMode, events, query);
      IsSubseq(r, events)
      && (forall i :: 0 <= i < |r| ==> EventMatches(words, r[i]))
      && (forall i :: 0 <= i < |events| && EventMatches(words, events[i]) ==> events[i] in r)
      && (forall e :: multiset(r)[e] == if EventMatches(words, e) then multiset(events)[e] else 0)
    ensures FilteredEvents(ClubsMode, events, query) == []
  {
    BuildRegexNoneIffBlank(query);
    if !Blank(query) {
      var words := BuildRegex(query).value;
      FilterIsSubseq(events, (e: EventItem) => EventMatches(words, e));
      FilterMultiset(events, (e: EventItem) => EventMatches(words, e));
    }
  }

  /**
   * A blank query shows every club; otherwise exactly the clubs with a
   * matching name, description, address or venue type are shown, in order.
   */
  lemma FilteredClubsSpec(clubs: seq<Club>, query: string)
    ensures Blank(query) ==> FilteredClubs(ClubsMode, clubs, query) == clubs
    ensures BuildRegex(query).Some? ==>
      var words := BuildRegex(query).value;
      var r := FilteredClubs(ClubsMode, clubs, query);
      IsSubseq(r, clubs)
      && (forall i :: 0 <= i < |r| ==> ClubMatches(words, r[i]))
      && (forall i :: 0 <= i < |clubs| && ClubMatches(words, clubs[i]) ==> clubs[i] in r)
      && (forall c :: multiset(r)[c] == if ClubMatches(words, c) then multiset(clubs)[c] else 0)
    ensures FilteredClubs(EventsMode, clubs, query) == []
  {
    BuildRegexNoneIffBlank(query);
    if !Blank(query) {
      var words := BuildRegex(query).value;
      FilterIsSubseq(clubs, (c: Club) => ClubMatches(words, c));
      FilterMultiset(clubs, (c: Club) => ClubMatches(words, c));
    }
  }
}
