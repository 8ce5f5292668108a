// The search of the country picker (CountryPickerModal): the query is
// trimmed and lower-cased; an empty query lists every country, any other
// keeps, in their order, the countries whose name, dial code or code
// contains it, ignoring case.

module CountryPicker {
  import opened Basics
  import opened Text

  datatype Country = Country(name: string, dialCode: string, code: string)

  /** The needle the list is searched for. */
  function Needle(query: string): (r: string)
    ensures r == [] <==> Blank(query)
  {
    TrimEmptyIffBlank(query);
    ToLower(Trim(query))
  }

  predicate Matches(c: Country, q: string) {
    Contains(ToLower(c.name), q) || Contains(ToLower(c.dialCode), q) || Contains(ToLower(c.code), q)
  }

  /** The `filtered` memo of the modal. */
  function FilteredCountries(countries: seq<Country>, query: string): (r: seq<Country>)
    ensures Blank(query) ==> r == countries
    ensures !Blank(query) ==> forall c :: c in r <==> c in countries && Matches(c, Needle(query))
    ensures !Blank(query) ==> forall c :: multiset(r)[c] == if Matches(c, Needle(query)) then multiset(countries)[c] else 0
    ensures IsSubseq(r, countries)
  {
    var q := Needle(query);
    if q == [] then
      FilterAll(countries, _ => true);
      FilterIsSubseq(countries, _ => true);
      countries
    else
      var r := Filter(countries, c => Matches(c, q));
      FilterIsSubseq(countries, c => Matches(c, q));
      FilterMultiset(countries, c => Matches(c, q));
      assert forall c :: c in r ==> exists i :: 0 <= i < |r| && r[i] == c;
      assert forall c :: c in countries ==> exists i :: 0 <= i < |countries| && countries[i] == c;
      r
  }

  /** Padding the query with spaces changes nothing. */
  lemma SurroundingSpacesIgnored(countries: seq<Country>, query: string)
    ensures FilteredCountries(countries, " " + query + " ") == FilteredCountries(countries, query)
  {
    TrimPadded(query);
  }
}
