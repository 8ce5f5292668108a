// Map helpers (utils/mapUtils): the coordinates written in a shared
// map link, and the region that frames a set of markers.
//
// Coordinates are exact reals: the rounding of parseFloat and of the
// floating-point arithmetic is not modelled.

module MapUtils {
  import opened Basics
  import opened Text

  datatype Coordinates = Coordinates(latitude: real, longitude: real)

  predicate InRange(c: Coordinates) {
    -90.0 <= c.latitude <= 90.0 && -180.0 <= c.longitude <= 180.0
  }

  /** The end of the run of decimal digits that starts at `i`. */
  function DigitRun(s: string, i: nat): (r: nat)
    requires i <= |s|
    ensures i <= r <= |s|
    ensures forall k :: i <= k < r ==> IsDigit(s[k])
    ensures r == |s| || !IsDigit(s[r])
    decreases |s| - i
  {
    if i < |s| && IsDigit(s[i]) then DigitRun(s, i + 1) else i
  }

  /** The value of a numeral with a whole part and a fraction part of digits. */
  function DecimalValue(negative: bool, whole: string, frac: string): real
    requires AllChars(whole, IsDigit) && AllChars(frac, IsDigit)
  {
    var magnitude := ParseDigits(whole) as real + ParseDigits(frac) as real / Pow10(|frac|) as real;
    if negative then -magnitude else magnitude
  }

  /**
   * `-?\d+\.\d+` at position `i`: the value and the position after it.
   * Greedy digit runs never need to give characters back here, since each
   * is followed by a character that is not a digit.
   */
  function NumberAt(s: string, i: nat): (r: Option<(real, nat)>)
    requires i <= |s|
    ensures r.Some? ==> i < r.value.1 <= |s|
  {
    var j := if i < |s| && s[i] == '-' then i + 1 else i;
    var k := DigitRun(s, j);
    if k == j || k == |s| || s[k] != '.' then None
    else
      var m := DigitRun(s, k + 1);
      if m == k + 1 then None
      else Some((DecimalValue(j > i, s[j..k], s[k + 1..m]), m))
  }

  /** A numeral as a link writes it. */
  datatype Numeral = Numeral(negative: bool, whole: string, frac: string)

  predicate ValidNumeral(n: Numeral) {
    n.whole != [] && n.frac != [] && AllChars(n.whole, IsDigit) && AllChars(n.frac, IsDigit)
  }

  function NumeralText(n: Numeral): string {
    (if n.negative then "-" else "") + n.whole + "." + n.frac
  }

  function NumeralValue(n: Numeral): real
    requires ValidNumeral(n)
  {
    DecimalValue(n.negative, n.whole, n.frac)
  }

  /** A digit run that ends at a non-digit is read whole. */
  lemma {:induction false} DigitRunOf(s: string, i: nat, w: string)
    requires i + |w| <= |s| && s[i..i + |w|] == w && AllChars(w, IsDigit)
    requires i + |w| == |s| || !IsDigit(s[i + |w|])
    ensures DigitRun(s, i) == i + |w|
    decreases |w|
  {
    if w != [] {
      assert s[i] == w[0];
      assert s[i + 1..i + |w|] == w[1..];
      DigitRunOf(s, i + 1, w[1..]);
    }
  }

  /** Where the parts of a written numeral lie in the text that holds it. */
  lemma NumeralLayout(s: string, i: nat, n: Numeral)
    requires ValidNumeral(n)
    requires i + |NumeralText(n)| <= |s| && s[i..i + |NumeralText(n)|] == NumeralText(n)
    ensures var j := if n.negative then i + 1 else i;
      var k := j + |n.whole|;
      (s[i] == '-' <==> n.negative) && s[j..k] == n.whole && s[k] == '.'
      && s[k + 1..k + 1 + |n.frac|] == n.frac && k + 1 + |n.frac| == i + |NumeralText(n)|
  {
    var t := NumeralText(n);
    var j := if n.negative then i + 1 else i;
    var k := j + |n.whole|;
    var m := k + 1 + |n.frac|;
    var sign := if n.negative then "-" else "";
    assert t == sign + n.whole + "." + n.frac;
    assert |sign| == j - i && |t| == m - i;
    assert s[i] == t[0];
    assert !n.negative ==> t[0] == n.whole[0];
    forall q | 0 <= q < |n.whole| ensures s[j..k][q] == n.whole[q] {
      assert s[j + q] == t[j - i + q] == (sign + n.whole)[|sign| + q];
    }
    assert s[k] == t[k - i];
    forall q | 0 <= q < |n.frac| ensures s[k + 1..m][q] == n.frac[q] {
      assert s[k + 1 + q] == t[k + 1 - i + q];
    }
  }

  /** A written numeral followed by a non-digit is read back as its value. */
  lemma NumberAtNumeral(s: string, i: nat, t: string, n: Numeral)
    requires ValidNumeral(n) && t == NumeralText(n)
    requires i + |t| <= |s| && s[i..i + |t|] == t
    requires i + |t| == |s| || !IsDigit(s[i + |t|])
    ensures NumberAt(s, i) == Some((NumeralValue(n), i + |t|))
  {
    var j := if n.negative then i + 1 else i;
    var k := j + |n.whole|;
    var m := k + 1 + |n.frac|;
    assert m == i + |t| && (s[i] == '-' <==> n.negative) && s[j..k] == n.whole && s[k] == '.'
      && s[k + 1..m] == n.frac by {
      NumeralLayout(s, i, n);
    }
    NumberAtLaidOut(s, i, n, j, k, m);
  }

  /** A numeral laid out at `i` (sign, whole digits, point, fraction digits) and not followed by a digit is read back. */
  lemma NumberAtLaidOut(s: string, i: nat, n: Numeral, j: nat, k: nat, m: nat)
    requires ValidNumeral(n)
    requires j == (if n.negative then i + 1 else i) && k == j + |n.whole| && m == k + 1 + |n.frac| && m <= |s|
    requires (s[i] == '-' <==> n.negative) && s[j..k] == n.whole && s[k] == '.' && s[k + 1..m] == n.frac
    requires m == |s| || !IsDigit(s[m])
    ensures NumberAt(s, i) == Some((NumeralValue(n), m))
  {
    assert DigitRun(s, j) == k by { DigitRunOf(s, j, n.whole); }
    assert DigitRun(s, k + 1) == m by { DigitRunOf(s, k + 1, n.frac); }
    NumberAtRuns(s, i, j, k, m);
  }

  /** NumberAt reads the sign, the two digit runs and the point between them. */
  lemma NumberAtRuns(s: string, i: nat, j: nat, k: nat, m: nat)
    requires i <= j <= k < m <= |s|
    requires j == if i < |s| && s[i] == '-' then i + 1 else i
    requires DigitRun(s, j) == k && k != j && s[k] == '.' && DigitRun(s, k + 1) == m && m != k + 1
    ensures AllChars(s[j..k], IsDigit) && AllChars(s[k + 1..m], IsDigit)
    ensures NumberAt(s, i) == Some((DecimalValue(j > i, s[j..k], s[k + 1..m]), m))
  {
  }

  /** The pattern's literal, a numeral, ",", a numeral, matched at position `i`. */
  function MatchAt(s: string, i: nat, prefix: string): Option<Coordinates>
    requires i <= |s|
  {
    if !StartsWith(s[i..], prefix) then None
    else match NumberAt(s, i + |prefix|)
      case None => None
      case Some((lat, e)) =>
        if e == |s| || s[e] != ',' then None
        else match NumberAt(s, e + 1)
          case None => None
          case Some((lng, _)) => Some(Coordinates(lat, lng))
  }

  /** `String.prototype.match`: the leftmost position, at or after `from`, where the pattern matches. */
  function FirstMatch(s: string, prefix: string, from: nat): Option<Coordinates>
    requires from <= |s|
    decreases |s| - from
  {
    if MatchAt(s, from, prefix).Some? then MatchAt(s, from, prefix)
    else if from == |s| then None
    else FirstMatch(s, prefix, from + 1)
  }

  /** The search finds the match at the first position from `from` where the pattern matches, and none when it matches nowhere. */
  lemma {:induction false} FirstMatchSpec(s: string, prefix: string, from: nat)
    requires from <= |s|
    ensures FirstMatch(s, prefix, from).Some? ==>
      exists k :: from <= k <= |s| && MatchAt(s, k, prefix) == FirstMatch(s, prefix, from) && NoMatchBetween(s, prefix, from, k)
    ensures FirstMatch(s, prefix, from).None? ==> NoMatchBetween(s, prefix, from, |s| + 1)
    decreases |s| - from
  {
    var m := MatchAt(s, from, prefix);
    if m.Some? {
      assert FirstMatch(s, prefix, from) == m;
      assert MatchAt(s, from, prefix) == m && NoMatchBetween(s, prefix, from, from);
    } else if from == |s| {
      assert FirstMatch(s, prefix, from).None?;
    } else {
      assert FirstMatch(s, prefix, from) == FirstMatch(s, prefix, from + 1);
      FirstMatchSpec(s, prefix, from + 1);
      if FirstMatch(s, prefix, from + 1).Some? {
        var k :| from + 1 <= k <= |s| && MatchAt(s, k, prefix) == FirstMatch(s, prefix, from + 1) && NoMatchBetween(s, prefix, from + 1, k);
        forall j | from <= j < k
          ensures MatchAt(s, j, prefix).None?
        {
          if j != from {
            assert from + 1 <= j < k;
          }
        }
      }
    }
  }

  /** No position in `[from, to)` matches. */
  ghost predicate NoMatchBetween(s: string, prefix: string, from: nat, to: nat)
    requires to <= |s| + 1
  {
    forall j :: from <= j < to ==> MatchAt(s, j, prefix).None?
  }

  /** The four link forms, in the order they are tried: "@lat,lng", "q=", "place/" and "ll=". */
  const Patterns: seq<string> := ["@", "q=", "place/", "ll="]

  /**
   * The first pattern, in order, whose match lies within the valid ranges;
   * a match out of range falls through to the next pattern.
   */
  function FromPatterns(link: string, patterns: seq<string>): (r: Option<Coordinates>)
    ensures r.Some? ==> InRange(r.value)
  {
    if patterns == [] then None
    else match FirstMatch(link, patterns[0], 0)
      case Some(c) => if InRange(c) then Some(c) else FromPatterns(link, patterns[1..])
      case None => FromPatterns(link, patterns[1..])
  }

  /** The coordinates of a link: none for an empty link, else the first pattern in range. */
  function LinkCoordinates(mapLink: string): (r: Option<Coordinates>)
    ensures mapLink == "" ==> r == None
    ensures r.Some? ==> InRange(r.value)
  {
    if mapLink == "" then None else FromPatterns(mapLink, Patterns)
  }

  /** `extractCoordinatesFromMapLink` */
  method ExtractCoordinates(mapLink: string) returns (r: Option<Coordinates>)
    ensures r == LinkCoordinates(mapLink)
  {
    if mapLink == "" {
      return None;
    }
    var k := 0;
    while k < |Patterns|
      invariant 0 <= k <= |Patterns|
      invariant FromPatterns(mapLink, Patterns) == FromPatterns(mapLink, Patterns[k..])
    {
      assert Patterns[k..][1..] == Patterns[k + 1..];
      var m := FirstMatch(mapLink, Patterns[k], 0);
      if m.Some? && InRange(m.value) {
        return m;
      }
      k := k + 1;
    }
    return None;
  }

  lemma MatchAtOfParts(s: string, prefix: string, lat: real, e: nat, lng: real, end: nat)
    requires |prefix| <= |s| && s[..|prefix|] == prefix
    requires NumberAt(s, |prefix|) == Some((lat, e))
    requires e < |s| && s[e] == ','
    requires NumberAt(s, e + 1) == Some((lng, end))
    ensures MatchAt(s, 0, prefix) == Some(Coordinates(lat, lng))
  {
    assert s[0..] == s;
  }

  /** The "@" pattern matches at the start of an "@lat,lng" text. */
  lemma AtTextMatches(lat: Numeral, lng: Numeral)
    requires ValidNumeral(lat) && ValidNumeral(lng)
    ensures MatchAt("@" + NumeralText(lat) + "," + NumeralText(lng), 0, "@")
      == Some(Coordinates(NumeralValue(lat), NumeralValue(lng)))
  {
    var a, b := NumeralText(lat), NumeralText(lng);
    AtLayout(a, b);
    AtPartsMatch("@" + a + "," + b, a, b, lat, lng);
  }

  /** Where the two texts lie in "@a,b". */
  lemma AtLayout(a: string, b: string)
    ensures var s := "@" + a + "," + b; var e := 1 + |a|;
      |s| == e + 1 + |b| && s[..1] == "@" && s[1..e] == a && s[e] == ',' && !IsDigit(s[e])
      && s[e + 1..e + 1 + |b|] == b
  {
  }

  /** A text made of "@", a written numeral, "," and a written numeral matches the "@" pattern. */
  lemma AtPartsMatch(s: string, a: string, b: string, lat: Numeral, lng: Numeral)
    requires ValidNumeral(lat) && ValidNumeral(lng) && a == NumeralText(lat) && b == NumeralText(lng)
    requires |s| == |a| + 2 + |b| && s[..1] == "@" && s[1..1 + |a|] == a && s[1 + |a|] == ','
      && s[|a| + 2..|a| + 2 + |b|] == b
    ensures MatchAt(s, 0, "@") == Some(Coordinates(NumeralValue(lat), NumeralValue(lng)))
  {
    var e := 1 + |a|;
    assert NumberAt(s, 1) == Some((NumeralValue(lat), e)) by { NumberAtNumeral(s, 1, a, lat); }
    assert NumberAt(s, e + 1) == Some((NumeralValue(lng), |s|)) by { NumberAtNumeral(s, e + 1, b, lng); }
    MatchAtOfParts(s, "@", NumeralValue(lat), e, NumeralValue(lng), |s|);
  }

  /** A link of the "@lat,lng" form with coordinates in range gives those coordinates. */
  lemma AtLinkGivesCoordinates(lat: Numeral, lng: Numeral)
    requires ValidNumeral(lat) && ValidNumeral(lng)
    requires InRange(Coordinates(NumeralValue(lat), NumeralValue(lng)))
    ensures LinkCoordinates("@" + NumeralText(lat) + "," + NumeralText(lng))
      == Some(Coordinates(NumeralValue(lat), NumeralValue(lng)))
  {
    var s := "@" + NumeralText(lat) + "," + NumeralText(lng);
    AtTextMatches(lat, lng);
    assert FirstMatch(s, "@", 0) == MatchAt(s, 0, "@");
  }

  /** A map region: its centre and its spans. */
  datatype Region = Region(latitude: real, longitude: real, latitudeDelta: real, longitudeDelta: real)

  const DefaultRegion := Region(28.6139, 77.2090, 0.5, 0.5)

  function MinOf(s: seq<real>): (r: real)
    requires |s| >= 1
    ensures r in s && forall i :: 0 <= i < |s| ==> r <= s[i]
  {
    if |s| == 1 then s[0]
    else var m := MinOf(s[1..]); if s[0] <= m then s[0] else m
  }

  function MaxOf(s: seq<real>): (r: real)
    requires |s| >= 1
    ensures r in s && forall i :: 0 <= i < |s| ==> s[i] <= r
  {
    if |s| == 1 then s[0]
    else var m := MaxOf(s[1..]); if s[0] >= m then s[0] else m
  }

  function Max(a: real, b: real): real { if a >= b then a else b }

  function Latitudes(cs: seq<Coordinates>): (r: seq<real>)
    ensures |r| == |cs| && forall i :: 0 <= i < |cs| ==> r[i] == cs[i].latitude
  {
    seq(|cs|, i requires 0 <= i < |cs| => cs[i].latitude)
  }

  function Longitudes(cs: seq<Coordinates>): (r: seq<real>)
    ensures |r| == |cs| && forall i :: 0 <= i < |cs| ==> r[i] == cs[i].longitude
  {
    seq(|cs|, i requires 0 <= i < |cs| => cs[i].longitude)
  }

  /** `calculateMapRegion`: a fixed region without markers, else the padded bounding box. */
  function MapRegion(coordinates: seq<Coordinates>): (r: Region)
    ensures coordinates == [] ==> r == DefaultRegion
    ensures r.latitudeDelta >= 0.02 && r.longitudeDelta >= 0.02
  {
    if coordinates == [] then DefaultRegion
    else
      var minLat, maxLat := MinOf(Latitudes(coordinates)), MaxOf(Latitudes(coordinates));
      var minLng, maxLng := MinOf(Longitudes(coordinates)), MaxOf(Longitudes(coordinates));
      var padding := 0.02;
      Region((minLat + maxLat) / 2.0, (minLng + maxLng) / 2.0,
             Max(maxLat - minLat + padding, 0.02), Max(maxLng - minLng + padding, 0.02))
  }

  /** Every marker lies inside the region: within half a span of its centre on each axis. */
  lemma MarkersInsideRegion(coordinates: seq<Coordinates>)
    ensures var r := MapRegion(coordinates);
      forall i :: 0 <= i < |coordinates| ==>
        r.latitude - r.latitudeDelta / 2.0 <= coordinates[i].latitude <= r.latitude + r.latitudeDelta / 2.0
        && r.longitude - r.longitudeDelta / 2.0 <= coordinates[i].longitude <= r.longitude + r.longitudeDelta / 2.0
  {
    if coordinates != [] {
      var lats, lngs := Latitudes(coordinates), Longitudes(coordinates);
      forall i | 0 <= i < |coordinates|
        ensures MinOf(lats) <= coordinates[i].latitude <= MaxOf(lats)
        ensures MinOf(lngs) <= coordinates[i].longitude <= MaxOf(lngs)
      {
        assert lats[i] == coordinates[i].latitude && lngs[i] == coordinates[i].longitude;
      }
    }
  }

  /** One marker gets the smallest region, centred on it. */
  lemma OneMarkerRegion(c: Coordinates)
    ensures MapRegion([c]) == Region(c.latitude, c.longitude, 0.02, 0.02)
  {
    assert Latitudes([c]) == [c.latitude];
    assert Longitudes([c]) == [c.longitude];
  }
}
