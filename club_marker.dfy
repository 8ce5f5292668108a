// The club pin on the map (Map/ClubMarker): a fill colour and a border
// colour picked from fixed palettes by a string hash of the club's name,
// and the initial shown when the club has no image.
//
// charCodeAt is modelled as the character's code point (names are taken to
// be in the Basic Multilingual Plane, where the two agree).  The hash is a
// JavaScript number; HashMagnitude shows that for names shorter than 2^21
// characters it stays an integer below 2^53, where number arithmetic is
// exact, so it is modelled on unbounded integers.

module ClubMarker {
  import opened Text

  const MarkerColors: seq<string> := [
    "#4F46E5", "#EC4899", "#10B981", "#F59E0B", "#EF4444",
    "#8B5CF6", "#06B6D4", "#84CC16", "#F97316", "#6366F1"]

  const BorderColors: seq<string> := [
    "#FFFFFF", "#FFD700", "#FF6B6B", "#4ECDC4", "#45B7D1",
    "#96CEB4", "#FFEAA7", "#DDA0DD", "#98D8C8", "#F7DC6F"]

  const MarkerShift: nat := 5
  const BorderShift: nat := 7

  const TwoTo31: int := 0x8000_0000
  const TwoTo32: int := 0x1_0000_0000

  /** ToInt32: the integer wrapped into the signed 32-bit range. */
  function ToInt32(x: int): (r: int)
    ensures -TwoTo31 <= r < TwoTo31
    ensures (r - x) % TwoTo32 == 0
  {
    (x + TwoTo31) % TwoTo32 - TwoTo31
  }

  function Pow2(n: nat): (r: nat)
    ensures r >= 1
  {
    if n == 0 then 1 else 2 * Pow2(n - 1)
  }

  /** `x << n` for a shift count below 32. */
  function ShiftLeft(x: int, n: nat): (r: int)
    requires n < 32
    ensures -TwoTo31 <= r < TwoTo31
  {
    ToInt32(ToInt32(x) * Pow2(n))
  }

  /** One step of the loop: `hash = charCode + ((hash << n) - hash)`. */
  function Step(hash: int, c: char, n: nat): int
    requires n < 32
  {
    c as int + (ShiftLeft(hash, n) - hash)
  }

  /** The hash after the loop has consumed the whole of `s`. */
  function Hash(s: string, n: nat): int
    requires n < 32
  {
    if s == [] then 0 else Step(Hash(s[..|s| - 1], n), s[|s| - 1], n)
  }

  function Abs(x: int): nat { if x < 0 then -x else x }

  /** The largest growth of the hash per character: the shifted value plus a code point. */
  const StepBound: int := TwoTo31 + 0x11_0000

  /** The hash grows by at most StepBound per character. */
  lemma {:induction false} HashMagnitude(s: string, n: nat)
    requires n < 32
    ensures Abs(Hash(s, n)) <= |s| * StepBound
  {
    if s != [] {
      HashMagnitude(s[..|s| - 1], n);
      assert (|s| - 1) * StepBound + StepBound == |s| * StepBound;
    }
  }

  /** For any name shorter than 2^21 characters the hash is an exact double. */
  lemma HashIsExact(s: string, n: nat)
    requires n < 32 && |s| < 0x20_0000
    ensures Abs(Hash(s, n)) < 0x20_0000_0000_0000
  {
    HashMagnitude(s, n);
    assert |s| * StepBound <= 0x20_0000 * StepBound;
  }

  /** The palette slot: 0 for an empty name, else `Math.abs(hash) % 10`. */
  function ColorIndex(name: string, n: nat): (r: nat)
    requires n < 32
    ensures r < 10
    ensures name == "" ==> r == 0
  {
    if name == "" then 0 else Abs(Hash(name, n)) % 10
  }

  /**
   * `getMarkerColor` and `getBorderColor`: the loop accumulates the hash
   * character by character, then picks from the palette.
   */
  method PickColor(name: string, palette: seq<string>, n: nat) returns (color: string)
    requires n < 32 && |palette| == 10
    ensures color == palette[ColorIndex(name, n)]
    ensures color in palette
  {
    if name == "" {
      return palette[0];
    }
    var hash := 0;
    var i := 0;
    while i < |name|
      invariant 0 <= i <= |name|
      invariant hash == Hash(name[..i], n)
    {
      assert name[..i + 1][..i] == name[..i];
      hash := name[i] as int + (ShiftLeft(hash, n) - hash);
      i := i + 1;
    }
    assert name[..|name|] == name;
    var index := Abs(hash) % |palette|;
    color := palette[index];
  }

  method GetMarkerColor(name: string) returns (color: string)
    ensures color == MarkerColors[ColorIndex(name, MarkerShift)]
    ensures name == "" ==> color == "#4F46E5"
  {
    color := PickColor(name, MarkerColors, MarkerShift);
  }

  method GetBorderColor(name: string) returns (color: string)
    ensures color == BorderColors[ColorIndex(name, BorderShift)]
    ensures name == "" ==> color == "#FFFFFF"
  {
    color := PickColor(name, BorderColors, BorderShift);
  }

  /** The hash of a one-character name is that character's code. */
  lemma SingleCharacterHash(c: char, n: nat)
    requires n < 32
    ensures Hash([c], n) == c as int
  {
    assert [c][..0] == [];
  }

  /**
   * What the pin shows without an image: the first character, upper-cased,
   * of the trimmed title ("Club" for an empty title), or nothing for a
   * title of white space only.
   */
  function FallbackInitial(title: string): (r: string)
    ensures |r| <= 1
    ensures title == "" ==> r == "C"
    ensures r == [] <==> Trim(OrElse(title, "Club")) == []
    ensures r != [] ==> r[0] == Upper(Trim(OrElse(title, "Club"))[0])
  {
    var displayName := Trim(OrElse(title, "Club"));
    if title == "" then
      assert TrimStart("Club") == "Club" && TrimEnd("Club") == "Club";
      [Upper(displayName[0])]
    else if displayName == "" then ""
    else [Upper(displayName[0])]
  }

  /** A title that is white space only shows no initial. */
  lemma BlankTitleShowsNothing(title: string)
    requires title != "" && Blank(title)
    ensures FallbackInitial(title) == ""
  {
    TrimEmptyIffBlank(title);
  }
}
