// Club venue types (utils/clubTypes): a free-text "typeOfVenue" such as
// "Night Club, Rooftop" becomes tokens like ["night_club", "rooftop"], and
// the first token with a known colour picks the colour of the club's marker.

module ClubTypes {
  import opened Basics
  import opened Text

  /** `.replace(/\s+/g, '_')`: every run of white space becomes one underscore. */
  function Underscored(s: string): (r: string)
    ensures forall i :: 0 <= i < |r| ==> !IsSpace(r[i])
    ensures forall i :: 0 <= i < |r| ==> r[i] == '_' || r[i] in s
    ensures |r| <= |s|
    decreases |s|
  {
    if s == [] then []
    else if IsSpace(s[0]) then
      assert TrimStart(s) == TrimStart(s[1..]);
      TrimStartShape(s);
      ['_'] + Underscored(TrimStart(s))
    else [s[0]] + Underscored(s[1..])
  }

  predicate NoSpace(s: string) { forall i :: 0 <= i < |s| ==> !IsSpace(s[i]) }

  predicate NoUpper(s: string) { forall i :: 0 <= i < |s| ==> !('A' <= s[i] <= 'Z') }

  /** One token: trimmed, lower-cased, white space runs replaced. */
  function Token(t: string): (r: string)
    ensures NoSpace(r) && NoUpper(r)
  {
    var lowered := ToLower(Trim(t));
    var r := Underscored(lowered);
    assert forall i :: 0 <= i < |r| ==> r[i] == '_' || r[i] in lowered;
    r
  }

  predicate NonEmpty(s: string) { s != [] }

  /** `normalizeClubType`: the non-empty tokens of the comma-separated text. */
  function NormalizeClubType(raw: string): (r: seq<string>)
    ensures raw == [] ==> r == []
    ensures forall k :: 0 <= k < |r| ==> r[k] != [] && NoSpace(r[k]) && NoUpper(r[k]) && ',' !in r[k]
  {
    if raw == [] then []
    else
      var parts := Split(raw, ',');
      TokensHaveNoComma(parts);
      Filter(Map(parts, Token), NonEmpty)
  }

  /** The pieces between commas give tokens without a comma. */
  lemma TokensHaveNoComma(parts: seq<string>)
    requires forall k :: 0 <= k < |parts| ==> ',' !in parts[k]
    ensures forall k :: 0 <= k < |parts| ==> ',' !in Token(parts[k])
  {
    forall k | 0 <= k < |parts| ensures ',' !in Token(parts[k]) {
      TrimShape(parts[k]);
      assert forall i :: 0 <= i < |Trim(parts[k])| ==> Trim(parts[k])[i] in parts[k];
    }
  }

  lemma {:induction false} UnderscoredNoSpace(s: string)
    requires NoSpace(s)
    ensures Underscored(s) == s
  {
    if s != [] {
      UnderscoredNoSpace(s[1..]);
    }
  }

  /** Normalising a token again leaves it as it is. */
  lemma TokenIdempotent(t: string)
    ensures Token(Token(t)) == Token(t)
  {
    var x := Token(t);
    if x != [] {
      assert TrimStart(x) == x;
      assert TrimEnd(x) == x;
    }
    assert Trim(x) == x;
    assert ToLower(x) == x;
    UnderscoredNoSpace(x);
  }

  /** Every produced token is its own normal form. */
  lemma NormalizedTokensAreNormal(raw: string)
    ensures forall k :: 0 <= k < |NormalizeClubType(raw)| ==>
      Token(NormalizeClubType(raw)[k]) == NormalizeClubType(raw)[k]
  {
    var r := NormalizeClubType(raw);
    forall k | 0 <= k < |r| ensures Token(r[k]) == r[k] {
      var x := r[k];
      if x != [] {
        assert TrimStart(x) == x;
        assert TrimEnd(x) == x;
      }
      assert Trim(x) == x;
      assert ToLower(x) == x;
      UnderscoredNoSpace(x);
    }
  }

  datatype Color = Primary | BlueAccent | Warning | Success | Info

  /** `CLUB_TYPE_COLORS` */
  const ClubTypeColors: map<string, Color> := map[
    "nightclub" := Primary, "night_club" := Primary, "rooftop" := BlueAccent,
    "bar" := Warning, "lounge" := Success, "pool_club" := Info, "beach_club" := Info
  ]

  /** The loop of `getClubTypeColor`: the colour of the first token that has one. */
  method FirstColor(tokens: seq<string>) returns (c: Option<Color>)
    ensures c.Some? ==> (exists k :: 0 <= k < |tokens| && tokens[k] in ClubTypeColors && ClubTypeColors[tokens[k]] == c.value
                                   && forall j :: 0 <= j < k ==> tokens[j] !in ClubTypeColors)
    ensures c.None? ==> forall k :: 0 <= k < |tokens| ==> tokens[k] !in ClubTypeColors
  {
    var k := 0;
    while k < |tokens|
      invariant 0 <= k <= |tokens|
      invariant forall j :: 0 <= j < k ==> tokens[j] !in ClubTypeColors
    {
      if tokens[k] in ClubTypeColors {
        return Some(ClubTypeColors[tokens[k]]);
      }
      k := k + 1;
    }
    return None;
  }

  /** `getClubTypeColor`: the colour of the first token of the normalised text that has one. */
  method ClubTypeColor(typeOrTypes: string) returns (c: Option<Color>)
    ensures var tokens := NormalizeClubType(typeOrTypes);
      c.Some? ==> (exists k :: 0 <= k < |tokens| && tokens[k] in ClubTypeColors && ClubTypeColors[tokens[k]] == c.value
                               && forall j :: 0 <= j < k ==> tokens[j] !in ClubTypeColors)
    ensures var tokens := NormalizeClubType(typeOrTypes);
      c.None? ==> forall k :: 0 <= k < |tokens| ==> tokens[k] !in ClubTypeColors
  {
    c := FirstColor(NormalizeClubType(typeOrTypes));
  }
}
