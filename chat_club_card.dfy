// The club card in the chatbot's answers (ChatbotClubCard): its operating
// days line, its star rating and what a press does.

module ChatClubCard {
  import opened Basics
  import opened Text
  import opened ChatCards

  /** `getOperatingDays`: "Check venue" without days, the first two and "..." for more. */
  function OperatingDaysLabel(days: Option<seq<string>>): (r: string)
    ensures days.None? || days.value == [] ==> r == "Check venue"
    ensures days.Some? && 1 <= |days.value| <= 2 ==> r == Join(days.value, ", ")
    ensures days.Some? && |days.value| > 2 ==> r == Join(days.value[..2], ", ") + "..."
  {
    match days
    case None => "Check venue"
    case Some(d) =>
      if |d| == 0 then "Check venue"
      else
        var shown := Join(Take(d, 2), ", ");
        if |d| > 2 then shown + "..." else shown
  }

  /** Three or more days show exactly the first two, comma-separated. */
  lemma ManyDaysLabel(a: string, b: string, rest: seq<string>)
    requires |rest| >= 1
    ensures OperatingDaysLabel(Some([a, b] + rest)) == a + ", " + b + "..."
  {
    assert ([a, b] + rest)[..2] == [a, b];
    assert Join([a, b], ", ") == a + ", " + Join([b], ", ");
  }

  const Filled: char := '★'
  const Empty: char := '☆'

  /**
   * `getRatingStars` for a rating (None when missing or NaN): one star for
   * no or a zero rating, else the rounded rating in filled stars and the
   * rest of five in empty ones.  A rounded rating outside 0..5 makes
   * String.prototype.repeat throw a RangeError, here None.
   */
  function RatingStars(rating: Option<real>): (r: Option<string>)
    ensures rating.None? || rating.value == 0.0 ==> r == Some([Filled] + Repeat([Empty], 4))
    ensures rating.Some? && rating.value != 0.0 ==> (r.Some? <==> 0 <= Round(rating.value) <= 5)
    ensures r.Some? ==> |r.value| == 5
  {
    match rating
    case None => Some([Filled] + Repeat([Empty], 4))
    case Some(x) =>
      if x == 0.0 then Some([Filled] + Repeat([Empty], 4))
      else
        var stars := Round(x);
        if 0 <= stars <= 5 then Some(Repeat([Filled], stars) + Repeat([Empty], 5 - stars)) else None
  }

  /** For a rating that rounds to r in 1..5 there are r filled stars followed by 5 - r empty ones. */
  lemma StarsOfRating(x: real, i: nat)
    requires 0.5 <= x < 5.5 && i < 5
    ensures RatingStars(Some(x)).Some?
    ensures RatingStars(Some(x)).value[i] == if i < Round(x) then Filled else Empty
  {
    var n := Round(x);
    var s := RatingStars(Some(x)).value;
    assert s == Repeat([Filled], n) + Repeat([Empty], 5 - n);
    if i < n {
      RepeatAt(Filled, n, i);
    } else {
      RepeatAt(Empty, 5 - n, i - n);
    }
  }

  /** A rating above 5.5 cannot be drawn: the count of empty stars would be negative. */
  lemma RatingAboveFiveThrows(x: real)
    requires x >= 5.5
    ensures RatingStars(Some(x)).None?
  {
  }

  /** `handlePress`: a supplied handler replaces navigation to the club page. */
  function HandlePress(hasOnPress: bool, clubId: string): (r: Press)
    ensures hasOnPress <==> r == CallHandler
    ensures !hasOnPress ==> r.path == "/club/details?id=" + clubId
  {
    CardPress(hasOnPress, "/club/details?id=" + clubId)
  }
}
