// The operating-days chips of the club form (DaysSelector).

module DaysSelector {
  import opened Basics

  const Days: seq<string> := ["Monday", "Tuesday", "Wednesday", "Thursday", "Friday", "Saturday", "Sunday"]

  /** `toggleDay`: a selected day is removed wherever it occurs; another day is appended. */
  function ToggleDay(value: seq<string>, day: string): (r: seq<string>)
    ensures day in value ==> day !in r && IsSubseq(r, value)
    ensures day in value ==> forall d :: multiset(r)[d] == if d != day then multiset(value)[d] else 0
    ensures day !in value ==> r == value + [day]
    ensures forall d :: d != day ==> (d in r <==> d in value)
  {
    if day in value then
      var keep := (d: string) => d != day;
      FilterIsSubseq(value, keep);
      SubseqMembers(Filter(value, keep), value);
      FilterMultiset(value, keep);
      Filter(value, keep)
    else value + [day]
  }

  /** Removing a selected day shortens the selection by the number of its copies. */
  lemma ToggleSelectedDayCount(value: seq<string>, day: string)
    requires day in value
    ensures |ToggleDay(value, day)| == |value| - multiset(value)[day]
  {
    var r := ToggleDay(value, day);
    assert multiset(r) == multiset(value)[day := 0];
  }

  /** Toggling a day twice gives back the same selection as a set. */
  lemma ToggleDayTwice(value: seq<string>, day: string)
    ensures forall d :: d in ToggleDay(ToggleDay(value, day), day) <==> d in value
  {
  }

  /** A chip shows the first three letters of its day. */
  function ChipLabel(day: string): (r: string)
    ensures |day| >= 3 ==> |r| == 3 && r == day[..3]
    ensures |day| < 3 ==> r == day
  {
    if |day| >= 3 then day[..3] else day
  }

  /** The seven chip labels are distinct, so each chip names one day. */
  lemma ChipLabelsDistinct()
    ensures forall i, j :: 0 <= i < j < |Days| ==> ChipLabel(Days[i]) != ChipLabel(Days[j])
  {
    var labels := ["Mon", "Tue", "Wed", "Thu", "Fri", "Sat", "Sun"];
    forall i | 0 <= i < |Days| ensures ChipLabel(Days[i]) == labels[i] {
    }
    forall i, j | 0 <= i < j < |Days| ensures labels[i] != labels[j] {
      assert labels[i][0] != labels[j][0] || labels[i][1] != labels[j][1];
    }
  }
}
