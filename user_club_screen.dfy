// The guest's club list (userClubScreen): one venue-type chip at a time,
// and the fetched clubs filtered by city, search text and venue type.

module UserClubScreen {
  import opened Basics
  import opened Text
  import ClubTypes

  datatype Club = Club(name: string, clubDescription: string, city: string, typeOfVenue: string)

  /** `handleToggleType`: "all" clears, the sole selected type toggles off, anything else is selected alone. */
  function ToggledTypes(prev: seq<string>, typeId: string): (r: seq<string>)
    ensures |r| <= 1
    ensures typeId == "all" ==> r == []
    ensures typeId != "all" ==> (r == [] <==> prev == [typeId])
    ensures r != [] ==> r == [typeId]
  {
    if typeId == "all" then []
    else if |prev| == 1 && prev[0] == typeId then []
    else [typeId]
  }

  /** Choosing the same type twice from nothing selected comes back to nothing selected. */
  lemma ToggleTwiceClears(typeId: string)
    ensures ToggledTypes(ToggledTypes([], typeId), typeId) == []
  {
  }

  /** The venue types of a club as this screen reads them: lower-case first, then split and tidy. */
  function VenueTokens(typeOfVenue: string): (r: seq<string>)
  {
    var parts := Split(ToLower(typeOfVenue), ',');
    Filter(Map(parts, TidyPart), ClubTypes.NonEmpty)
  }

  function TidyPart(t: string): string {
    ClubTypes.Underscored(Trim(t))
  }

  lemma LowerKeepsSpace(c: char)
    ensures IsSpace(Lower(c)) == IsSpace(c)
    ensures (Lower(c) == ',') == (c == ',')
  {
  }

  lemma {:induction false} TrimStartLower(s: string)
    ensures TrimStart(ToLower(s)) == ToLower(TrimStart(s))
  {
    if s != [] {
      LowerKeepsSpace(s[0]);
      assert ToLower(s)[1..] == ToLower(s[1..]);
      TrimStartLower(s[1..]);
    }
  }

  lemma {:induction false} TrimEndLower(s: string)
    ensures TrimEnd(ToLower(s)) == ToLower(TrimEnd(s))
    decreases |s|
  {
    if s != [] {
      LowerKeepsSpace(s[|s| - 1]);
      assert ToLower(s)[..|s| - 1] == ToLower(s[..|s| - 1]);
      TrimEndLower(s[..|s| - 1]);
    }
  }

  lemma {:induction false} SplitFromLower(s: string, current: string)
    requires ',' !in current
    ensures ',' !in ToLower(current)
    ensures SplitFrom(ToLower(s), ',', ToLower(current)) == Map(SplitFrom(s, ',', current), ToLower)
    decreases |s|
  {
    forall i | 0 <= i < |current| ensures ToLower(current)[i] != ',' {
      LowerKeepsSpace(current[i]);
    }
    if s != [] {
      LowerKeepsSpace(s[0]);
      assert ToLower(s)[1..] == ToLower(s[1..]);
      if s[0] == ',' {
        SplitFromLower(s[1..], []);
        assert ToLower([]) == [];
      } else {
        SplitFromLower(s[1..], current + [s[0]]);
        assert ToLower(current + [s[0]]) == ToLower(current) + [Lower(s[0])];
      }
    } else {
      assert ToLower(s) == [];
    }
  }

  /**
   * Lower-casing before splitting and trimming, as this screen does, gives
   * the same tokens as the shared normaliser, which lower-cases after.
   */
  lemma VenueTokensAreNormalized(typeOfVenue: string)
    ensures VenueTokens(typeOfVenue) == ClubTypes.NormalizeClubType(typeOfVenue)
  {
    var parts := Split(typeOfVenue, ',');
    SplitFromLower(typeOfVenue, []);
    assert ToLower([]) == [];
    var lowered := Map(parts, ToLower);
    forall k | 0 <= k < |parts| ensures TidyPart(lowered[k]) == ClubTypes.Token(parts[k]) {
      TrimStartLower(parts[k]);
      TrimEndLower(TrimStart(parts[k]));
    }
    assert Map(lowered, TidyPart) == Map(parts, ClubTypes.Token);
    if typeOfVenue == [] {
      assert Map(parts, ClubTypes.Token) == [[]];
      assert Filter([[]], ClubTypes.NonEmpty) == [];
    }
  }

  /** Whether one of the club's venue types is selected; nothing selected matches every club. */
  predicate MatchesSelectedTypes(c: Club, selected: seq<string>) {
    selected == [] || exists t | t in VenueTokens(c.typeOfVenue) :: t in selected
  }

  /** `normalizedIncludes` */
  predicate NormalizedIncludes(haystack: string, needle: string) {
    Contains(ToLower(haystack), ToLower(Trim(needle)))
  }

  predicate Shown(c: Club, city: string, search: string, selected: seq<string>) {
    (city == "" || ToLower(c.city) == ToLower(city))
    && (search == "" || NormalizedIncludes(c.name, search) || NormalizedIncludes(c.clubDescription, search))
    && MatchesSelectedTypes(c, selected)
  }

  /** `filteredClubs`: the clubs passing the city, search and type tests, in order. */
  function FilteredClubs(clubs: seq<Club>, city: string, search: string, selected: seq<string>): (r: seq<Club>)
    ensures IsSubseq(r, clubs)
    ensures forall k :: 0 <= k < |r| ==> Shown(r[k], city, search, selected)
    ensures forall k :: 0 <= k < |clubs| && Shown(clubs[k], city, search, selected) ==> clubs[k] in r
    ensures forall c :: multiset(r)[c] == if Shown(c, city, search, selected) then multiset(clubs)[c] else 0
  {
    var keep := (c: Club) => Shown(c, city, search, selected);
    FilterIsSubseq(clubs, keep);
    FilterMultiset(clubs, keep);
    Filter(clubs, keep)
  }

  /** With no city, no search and no type chosen, every club is listed. */
  lemma NoFiltersShowsAll(clubs: seq<Club>)
    ensures FilteredClubs(clubs, "", "", []) == clubs
  {
    FilterAll(clubs, (c: Club) => Shown(c, "", "", []));
  }

  /** A blank search (only white space) keeps every club of the city and type. */
  lemma BlankSearchKeepsClub(c: Club, city: string, search: string, selected: seq<string>)
    requires Blank(search)
    requires city == "" || ToLower(c.city) == ToLower(city)
    requires MatchesSelectedTypes(c, selected)
    ensures Shown(c, city, search, selected)
  {
    TrimEmptyIffBlank(search);
    ContainsEmpty(ToLower(c.name));
  }

  /** The query of the club request: the city, and the type when exactly one is selected. */
  datatype ClubQuery = ClubQuery(city: Option<string>, clubType: Option<string>)

  function FetchQuery(city: string, selected: seq<string>): (r: ClubQuery)
    ensures r.clubType.Some? <==> |selected| == 1
    ensures r.city.Some? <==> city != ""
  {
    ClubQuery(if city != "" then Some(city) else None,
              if |selected| == 1 then Some(selected[0]) else None)
  }

  class ClubListScreen {
    var selectedCity: string
    var search: string
    var selectedTypes: seq<string>

    /** The first city of the picker (Dubai) is preselected. */
    constructor (firstCity: string)
      ensures selectedCity == firstCity && search == "" && selectedTypes == []
    {
      selectedCity, search, selectedTypes := firstCity, "", [];
    }

    method ToggleType(typeId: string)
      modifies this
      ensures selectedTypes == ToggledTypes(old(selectedTypes), typeId)
      ensures selectedCity == old(selectedCity) && search == old(search)
      ensures |selectedTypes| <= 1
    {
      selectedTypes := ToggledTypes(selectedTypes, typeId);
    }

    method SelectCity(city: string)
      modifies this
      ensures selectedCity == city && search == old(search) && selectedTypes == old(selectedTypes)
    {
      selectedCity := city;
    }

    method SetSearch(text: string)
      modifies this
      ensures search == text && selectedCity == old(selectedCity) && selectedTypes == old(selectedTypes)
    {
      search := text;
    }

    function Listed(clubs: seq<Club>): seq<Club>
      reads this
    {
      FilteredClubs(clubs, selectedCity, search, selectedTypes)
    }
  }
}
