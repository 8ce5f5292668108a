// The filter sheet of the discovery screens (filterModel): event and club
// filter state, the chips that toggle it, Clear, Apply and the price label.

module FilterModal {
  import opened Basics
  import opened Text

  /** The club types offered as chips. */
  const ClubTypes: seq<string> := ["bar", "lounge", "nightclub", "rooftop", "pool_club", "restaurant"]

  const MaxPrice := 10000

  /**
   * Event filters.  Absent flags read as false, which is how the chips and
   * their consumers treat them.
   */
  datatype EventFilters = EventFilters(
    featured: bool, free: bool, paid: bool, hasMenu: bool, ticketsAvailable: bool,
    mostPopular: bool, distanceKm: Option<int>, maxPrice: Option<int>)

  /** Club filters; absent club types read as the empty list. */
  datatype ClubFilters = ClubFilters(
    hasUpcomingEvents: bool, mostPopular: bool, distanceKm: Option<int>, clubTypes: seq<string>)

  const DefaultEventFilters := EventFilters(false, false, false, false, false, false, None, Some(MaxPrice))
  const DefaultClubFilters := ClubFilters(false, false, None, [])

  datatype EventChip = FeaturedChip | HasMenuChip | TicketsAvailableChip | MostPopularEventChip
  datatype ClubChip = HasUpcomingChip | MostPopularClubChip

  /** A boolean event chip: negate its own key. */
  function ToggleEventChip(f: EventFilters, chip: EventChip): (r: EventFilters)
    ensures chip == FeaturedChip ==> r == f.(featured := !f.featured)
    ensures chip == HasMenuChip ==> r == f.(hasMenu := !f.hasMenu)
    ensures chip == TicketsAvailableChip ==> r == f.(ticketsAvailable := !f.ticketsAvailable)
    ensures chip == MostPopularEventChip ==> r == f.(mostPopular := !f.mostPopular)
  {
    match chip
    case FeaturedChip => f.(featured := !f.featured)
    case HasMenuChip => f.(hasMenu := !f.hasMenu)
    case TicketsAvailableChip => f.(ticketsAvailable := !f.ticketsAvailable)
    case MostPopularEventChip => f.(mostPopular := !f.mostPopular)
  }

  /** A boolean club chip: negate its own key. */
  function ToggleClubChip(f: ClubFilters, chip: ClubChip): ClubFilters {
    match chip
    case HasUpcomingChip => f.(hasUpcomingEvents := !f.hasUpcomingEvents)
    case MostPopularClubChip => f.(mostPopular := !f.mostPopular)
  }

  /** Pressing a chip twice gives the filters back. */
  lemma ToggleChipTwice(e: EventFilters, ec: EventChip, c: ClubFilters, cc: ClubChip)
    ensures ToggleEventChip(ToggleEventChip(e, ec), ec) == e
    ensures ToggleClubChip(ToggleClubChip(c, cc), cc) == c
    ensures ToggleClubChip(c, cc) != c
  {
  }

  function WithoutType(types: seq<string>, clubType: string): (r: seq<string>)
    ensures clubType !in r
    ensures forall t :: t != clubType ==> (t in r <==> t in types)
  {
    var keep := (t: string) => t != clubType;
    assert forall i :: 0 <= i < |types| ==> (types[i] in Filter(types, keep) <==> keep(types[i]));
    Filter(types, keep)
  }

  /** `toggleClubType`: remove a selected type, append an unselected one. */
  function ToggledTypes(types: seq<string>, clubType: string): (r: seq<string>)
    ensures clubType in r <==> clubType !in types
    ensures forall t :: t != clubType ==> (t in r <==> t in types)
  {
    if clubType in types then WithoutType(types, clubType) else types + [clubType]
  }

  /** Toggling a type twice gives back the same set of selected types. */
  lemma ToggledTypesTwice(types: seq<string>, clubType: string)
    ensures forall t :: t in ToggledTypes(ToggledTypes(types, clubType), clubType) <==> t in types
  {
  }

  /** `value.toLocaleString()` grouping for whole numbers: "1,234,567". */
  function Grouped(n: nat): (r: string)
    ensures |r| >= 1
  {
    if n < 1000 then NatToString(n)
    else Grouped(n / 1000) + "," + Pad3(n % 1000)
  }

  function WithoutCommas(s: string): (r: string)
    ensures forall i :: 0 <= i < |r| ==> r[i] != ','
  {
    if s == [] then [] else (if s[0] == ',' then [] else [s[0]]) + WithoutCommas(s[1..])
  }

  lemma {:induction false} WithoutCommasAppend(a: string, b: string)
    ensures WithoutCommas(a + b) == WithoutCommas(a) + WithoutCommas(b)
    decreases |a|
  {
    if a != [] {
      assert (a + b)[1..] == a[1..] + b;
      WithoutCommasAppend(a[1..], b);
    } else {
      assert a + b == b;
    }
  }

  lemma {:induction false} GroupedDigits(n: nat)
    ensures AllChars(WithoutCommas(Grouped(n)), IsDigit)
  {
    if n >= 1000 {
      GroupedDigits(n / 1000);
      GroupedSplit(n);
    } else {
      DigitsHaveNoCommas(NatToString(n));
    }
  }

  /** Above 999 the numeral without commas is the leading groups followed by three digits. */
  lemma GroupedSplit(n: nat)
    requires n >= 1000
    ensures var tail := Pad3(n % 1000);
      AllChars(tail, IsDigit) && WithoutCommas(Grouped(n)) == WithoutCommas(Grouped(n / 1000)) + tail
  {
    var tail := Pad3(n % 1000);
    var g := Grouped(n / 1000);
    WithoutCommasAppend(g + ",", tail);
    WithoutCommasAppend(g, ",");
    assert WithoutCommas(",") == [];
    DigitsHaveNoCommas(tail);
  }

  lemma {:induction false} DigitsHaveNoCommas(s: string)
    requires AllChars(s, IsDigit)
    ensures WithoutCommas(s) == s
  {
    if s != [] {
      DigitsHaveNoCommas(s[1..]);
    }
  }

  /** Reading the grouped numeral without its commas gives back the number. */
  lemma {:induction false} ParseGrouped(n: nat)
    ensures AllChars(WithoutCommas(Grouped(n)), IsDigit)
    ensures ParseDigits(WithoutCommas(Grouped(n))) == n
  {
    GroupedDigits(n);
    if n < 1000 {
      DigitsHaveNoCommas(NatToString(n));
      ParseNatToString(n);
    } else {
      var tail := Pad3(n % 1000);
      var head := WithoutCommas(Grouped(n / 1000));
      ParseGrouped(n / 1000);
      GroupedSplit(n);
      ParseDigitsAppend(head, tail);
      ParsePad3(n % 1000);
      assert Pow10(3) == 1000;
      assert ParseDigits(head + tail) == (n / 1000) * 1000 + n % 1000;
    }
  }

  /** Three zero-padded digits. */
  function Pad3(k: nat): (r: string)
    requires k < 1000
    ensures |r| == 3 && AllChars(r, IsDigit)
  {
    [DigitChar(k / 100), DigitChar(k / 10 % 10), DigitChar(k % 10)]
  }

  lemma ParsePad3(k: nat)
    requires k < 1000
    ensures ParseDigits(Pad3(k)) == k
  {
    var r := Pad3(k);
    var a, b := r[..1], r[..2];
    assert a[..0] == [] && b[..1] == a && r[..2] == b;
    assert ParseDigits(a) == k / 100;
    assert ParseDigits(b) == k / 10;
  }

  /** `formatPrice` */
  function FormatPrice(price: int): (r: string)
    ensures r == "Free" <==> price == 0
    ensures price != 0 ==> |r| > 4 && r[..4] == "AED "
  {
    if price == 0 then "Free"
    else if price >= MaxPrice then "AED 10,000+"
    else if price < 0 then "AED -" + Grouped(-price)
    else "AED " + Grouped(price)
  }

  /** A price under the cap is written as "AED " and its grouped numeral. */
  lemma FormatPriceSpec(price: int)
    ensures price == 0 ==> FormatPrice(price) == "Free"
    ensures price >= MaxPrice ==> FormatPrice(price) == "AED 10,000+"
    ensures 0 < price < MaxPrice ==>
      var s := FormatPrice(price);
      StartsWith(s, "AED ") && AllChars(WithoutCommas(s[4..]), IsDigit)
      && ParseDigits(WithoutCommas(s[4..])) == price
  {
    if 0 < price < MaxPrice {
      ParseGrouped(price);
      assert FormatPrice(price)[4..] == Grouped(price);
    }
  }

  /** The sheet's filter state. */
  class FilterSheet {
    var eventFilters: EventFilters
    var clubFilters: ClubFilters

    /** The initial state: the caller's filters, else the defaults. */
    constructor (initialEvent: Option<EventFilters>, initialClub: Option<ClubFilters>)
      ensures eventFilters == initialEvent.GetOr(EventFilters(false, false, false, false, false, false, None, Some(MaxPrice)))
      ensures clubFilters == initialClub.GetOr(ClubFilters(false, false, None, []))
    {
      eventFilters := initialEvent.GetOr(DefaultEventFilters);
      clubFilters := initialClub.GetOr(DefaultClubFilters);
    }

    method ToggleClubType(clubType: string)
      modifies this
      ensures clubFilters == old(clubFilters).(clubTypes := ToggledTypes(old(clubFilters.clubTypes), clubType))
      ensures eventFilters == old(eventFilters)
    {
      clubFilters := clubFilters.(clubTypes := ToggledTypes(clubFilters.clubTypes, clubType));
    }

    method PressEventChip(chip: EventChip)
      modifies this
      ensures eventFilters == ToggleEventChip(old(eventFilters), chip) && clubFilters == old(clubFilters)
    {
      eventFilters := ToggleEventChip(eventFilters, chip);
    }

    method PressClubChip(chip: ClubChip)
      modifies this
      ensures clubFilters == ToggleClubChip(old(clubFilters), chip) && eventFilters == old(eventFilters)
    {
      clubFilters := ToggleClubChip(clubFilters, chip);
    }

    /** A distance chip sets the distance of the list the sheet filters. */
    method PressDistance(forEvents: bool, km: int)
      modifies this
      ensures forEvents ==> eventFilters == old(eventFilters).(distanceKm := Some(km)) && clubFilters == old(clubFilters)
      ensures !forEvents ==> clubFilters == old(clubFilters).(distanceKm := Some(km)) && eventFilters == old(eventFilters)
    {
      if forEvents {
        eventFilters := eventFilters.(distanceKm := Some(km));
      } else {
        clubFilters := clubFilters.(distanceKm := Some(km));
      }
    }

    /** Moving the price slider, which only acts on the events sheet. */
    method SlidePrice(forEvents: bool, value: real)
      modifies this
      ensures forEvents ==> eventFilters == old(eventFilters).(maxPrice := Some(Round(value)))
      ensures !forEvents ==> eventFilters == old(eventFilters)
      ensures clubFilters == old(clubFilters)
    {
      if forEvents {
        eventFilters := eventFilters.(maxPrice := Some(Round(value)));
      }
    }

    /** `apply`: hand the current filters to the caller. */
    method Apply() returns (event: EventFilters, club: ClubFilters)
      ensures event == eventFilters && club == clubFilters
    {
      event, club := eventFilters, clubFilters;
    }

    /** `clear`: reset both filter sets and hand the defaults to the caller. */
    method Clear() returns (event: EventFilters, club: ClubFilters)
      modifies this
      ensures event == eventFilters && club == clubFilters
      ensures event == DefaultEventFilters && club == DefaultClubFilters
      ensures event.maxPrice == Some(MaxPrice) && event.distanceKm == None
      ensures !(event.featured || event.hasMenu || event.ticketsAvailable || event.mostPopular || event.free || event.paid)
      ensures club.clubTypes == [] && club.distanceKm == None && !club.hasUpcomingEvents && !club.mostPopular
    {
      eventFilters := DefaultEventFilters;
      clubFilters := DefaultClubFilters;
      event, club := eventFilters, clubFilters;
    }
  }
}
