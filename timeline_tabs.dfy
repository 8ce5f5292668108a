// The date-range tabs over the events list (TimelineFilterTabs.getDateRange):
// tonight, this week (Sunday to Saturday), next week, and upcoming (tomorrow
// to a year from today).
//
// A local Date object is a valid calendar date and a millisecond of that day.
// "Now" enters as today's date and its day of the week (0 = Sunday), which
// the device clock supplies.

module TimelineTabs {
  import opened EventsTicketing

  datatype Tab = Tonight | ThisWeek | NextWeek | Upcoming

  const LastMillisecond: int := 23 * 3600000 + 59 * 60000 + 59 * 1000 + 999

  /** A local moment: a date and the millisecond of that day. */
  datatype Stamp = Stamp(date: Date, ms: int)

  predicate ValidStamp(t: Stamp) { ValidDate(t.date) && 0 <= t.ms < 86400000 }

  datatype Range = Range(start: Stamp, end: Stamp)

  predicate DateLess(a: Date, b: Date) {
    a.year < b.year
    || (a.year == b.year && (a.month < b.month || (a.month == b.month && a.day < b.day)))
  }

  predicate DateAtMost(a: Date, b: Date) { a == b || DateLess(a, b) }

  /** The order in which Date objects compare. */
  predicate StampAtMost(a: Stamp, b: Stamp) {
    DateLess(a.date, b.date) || (a.date == b.date && a.ms <= b.ms)
  }


  /** The date `n` days after `d` (before it for negative `n`). */
  function AddDays(d: Date, n: int): (r: Date)
    requires ValidDate(d)
    ensures ValidDate(r)
    decreases if n < 0 then -n else n
  {
    if n == 0 then d
    else if n > 0 then NextDay(AddDays(d, n - 1))
    else PrevDay(AddDays(d, n + 1))
  }

  lemma NextDayLater(d: Date)
    requires ValidDate(d)
    ensures DateLess(d, NextDay(d))
  {
  }

  /** One day more is the next day, whatever the sign of the count. */
  lemma {:induction false} AddDaysStep(d: Date, n: int)
    requires ValidDate(d)
    ensures AddDays(d, n + 1) == NextDay(AddDays(d, n))
  {
    if n < 0 {
      NextPrevDay(AddDays(d, n + 1));
    }
  }

  /** Moving by a days, then by b days, is moving by a + b days. */
  lemma {:induction false} AddDaysAdd(d: Date, a: int, b: int)
    requires ValidDate(d)
    ensures AddDays(AddDays(d, a), b) == AddDays(d, a + b)
    decreases if b < 0 then -b else b
  {
    if b > 0 {
      AddDaysAdd(d, a, b - 1);
      AddDaysStep(d, a + b - 1);
    } else if b < 0 {
      AddDaysAdd(d, a, b + 1);
      AddDaysStep(d, a + b);
      NextPrevDay(AddDays(d, a + b));
    }
  }

  /** Moving forward never goes back. */
  lemma {:induction false} AddDaysForward(d: Date, n: nat)
    requires ValidDate(d)
    ensures DateAtMost(d, AddDays(d, n))
  {
    if n > 0 {
      AddDaysForward(d, n - 1);
      NextDayLater(AddDays(d, n - 1));
    }
  }

  /** Moving forward by a positive count gives a later date. */
  lemma AddDaysLater(d: Date, n: nat)
    requires ValidDate(d) && n > 0
    ensures DateLess(d, AddDays(d, n))
  {
    AddDaysForward(d, n - 1);
    NextDayLater(AddDays(d, n - 1));
  }

  /**
   * Date.prototype.setDate(x): the day of the month becomes x, a value
   * outside the month rolling over into the neighbouring months.
   */
  function SetDate(t: Stamp, x: int): (r: Stamp)
    requires ValidStamp(t)
    ensures ValidStamp(r)
  {
    Stamp(AddDays(t.date, x - t.date.day), t.ms)
  }

  /** Setting the day of the month k past the current one moves k days. */
  lemma SetDateMoves(t: Stamp, k: int)
    requires ValidStamp(t)
    ensures SetDate(t, t.date.day + k) == Stamp(AddDays(t.date, k), t.ms)
  {
    assert t.date.day + k - t.date.day == k;
  }

  /** Date.prototype.setHours(23, 59, 59, 999). */
  function SetEndOfDay(t: Stamp): (r: Stamp)
    ensures r.date == t.date && r.ms == LastMillisecond
  {
    Stamp(t.date, LastMillisecond)
  }

  /** Date.prototype.setFullYear(y): the same month and day in year y; 29 February becomes 1 March. */
  function SetFullYear(t: Stamp, y: int): (r: Stamp)
    requires ValidStamp(t)
    ensures ValidStamp(r) && r.date.year == y && r.ms == t.ms
  {
    if ValidDate(Date(y, t.date.month, t.date.day)) then Stamp(Date(y, t.date.month, t.date.day), t.ms)
    else Stamp(Date(y, 3, 1), t.ms)
  }

  /** The range each tab stands for, from today's date and day of the week. */
  function TabRange(tab: Tab, today: Date, weekday: int): (r: Range)
    requires ValidDate(today) && 0 <= weekday < 7
    ensures r.start.ms == 0
    ensures tab != Upcoming ==> r.end.ms == LastMillisecond
  {
    var midnight := Stamp(today, 0);
    match tab
    case Tonight => Range(midnight, Stamp(today, LastMillisecond))
    case ThisWeek =>
      var start := Stamp(AddDays(today, -weekday), 0);
      Range(start, Stamp(AddDays(start.date, 6), LastMillisecond))
    case NextWeek =>
      var start := Stamp(AddDays(today, 7 - weekday), 0);
      Range(start, Stamp(AddDays(start.date, 6), LastMillisecond))
    case Upcoming =>
      Range(Stamp(AddDays(today, 1), 0), SetFullYear(midnight, today.year + 1))
  }

  /**
   * `getDateRange`: today at midnight is copied and each copy is moved with
   * setDate, setHours and setFullYear, step by step as the screen does.
   */
  method GetDateRange(tab: Tab, today: Date, weekday: int) returns (r: Range)
    requires ValidDate(today) && 0 <= weekday < 7
    ensures r == TabRange(tab, today, weekday)
    ensures ValidStamp(r.start) && ValidStamp(r.end)
    ensures StampAtMost(r.start, r.end)
  {
    var midnight := Stamp(today, 0);
    match tab {
      case Tonight =>
        var tonight := midnight;
        tonight := SetEndOfDay(tonight);
        r := Range(midnight, tonight);
      case ThisWeek =>
        var startOfWeek := midnight;
        SetDateMoves(startOfWeek, -weekday);
        startOfWeek := SetDate(startOfWeek, today.day - weekday);
        var endOfWeek := startOfWeek;
        SetDateMoves(endOfWeek, 6);
        endOfWeek := SetDate(endOfWeek, startOfWeek.date.day + 6);
        endOfWeek := SetEndOfDay(endOfWeek);
        r := Range(startOfWeek, endOfWeek);
      case NextWeek =>
        var startOfNextWeek := midnight;
        SetDateMoves(startOfNextWeek, 7 - weekday);
        startOfNextWeek := SetDate(startOfNextWeek, today.day - weekday + 7);
        var endOfNextWeek := startOfNextWeek;
        SetDateMoves(endOfNextWeek, 6);
        endOfNextWeek := SetDate(endOfNextWeek, startOfNextWeek.date.day + 6);
        endOfNextWeek := SetEndOfDay(endOfNextWeek);
        r := Range(startOfNextWeek, endOfNextWeek);
      case Upcoming =>
        var tomorrow := midnight;
        SetDateMoves(tomorrow, 1);
        tomorrow := SetDate(tomorrow, today.day + 1);
        var farFuture := midnight;
        farFuture := SetFullYear(farFuture, today.year + 1);
        r := Range(tomorrow, farFuture);
    }
    TabRangeOrdered(tab, today, weekday);
  }

  /** Every tab's range is made of valid moments and does not end before it starts. */
  lemma TabRangeOrdered(tab: Tab, today: Date, weekday: int)
    requires ValidDate(today) && 0 <= weekday < 7
    ensures var r := TabRange(tab, today, weekday);
      ValidStamp(r.start) && ValidStamp(r.end) && StampAtMost(r.start, r.end)
  {
    match tab
    case Tonight =>
    case ThisWeek => AddDaysForward(AddDays(today, -weekday), 6);
    case NextWeek => AddDaysForward(AddDays(today, 7 - weekday), 6);
    case Upcoming => assert AddDays(today, 1) == NextDay(today);
  }

  /** This week starts on the Sunday on or before today and contains today. */
  lemma ThisWeekContainsToday(today: Date, weekday: int)
    requires ValidDate(today) && 0 <= weekday < 7
    ensures TabRange(ThisWeek, today, weekday).start.date == AddDays(today, -weekday)
    ensures StampAtMost(TabRange(ThisWeek, today, weekday).start, Stamp(today, 0))
    ensures StampAtMost(Stamp(today, LastMillisecond), TabRange(ThisWeek, today, weekday).end)
  {
    AddDaysAdd(today, -weekday, weekday);
    AddDaysForward(AddDays(today, -weekday), weekday);
    AddDaysAdd(today, -weekday, 6);
    AddDaysForward(today, 6 - weekday);
  }

  /** The week ends six days after it starts, at the last millisecond of that day. */
  lemma WeekSpansSevenDays(today: Date, weekday: int)
    requires ValidDate(today) && 0 <= weekday < 7
    ensures TabRange(ThisWeek, today, weekday).end
         == Stamp(AddDays(TabRange(ThisWeek, today, weekday).start.date, 6), LastMillisecond)
    ensures TabRange(ThisWeek, today, weekday).start.ms == 0
  {
  }

  /** Next week starts exactly seven days after this week's start and follows this week's end. */
  lemma NextWeekFollows(today: Date, weekday: int)
    requires ValidDate(today) && 0 <= weekday < 7
    ensures TabRange(NextWeek, today, weekday).start.date == AddDays(TabRange(ThisWeek, today, weekday).start.date, 7)
    ensures !StampAtMost(TabRange(NextWeek, today, weekday).start, TabRange(ThisWeek, today, weekday).end)
  {
    var s := AddDays(today, -weekday);
    var e := AddDays(s, 6);
    var n := AddDays(today, 7 - weekday);
    assert n == AddDays(s, 7) by { AddDaysAdd(today, -weekday, 7); }
    assert n == NextDay(e) by { AddDaysStep(s, 6); }
    assert TabRange(ThisWeek, today, weekday) == Range(Stamp(s, 0), Stamp(e, LastMillisecond));
    assert TabRange(NextWeek, today, weekday).start == Stamp(n, 0);
    NextDayAfterDay(e);
  }

  /** The next day at midnight comes after every moment of the day before. */
  lemma NextDayAfterDay(d: Date)
    requires ValidDate(d)
    ensures !StampAtMost(Stamp(NextDay(d), 0), Stamp(d, LastMillisecond))
  {
    NextDayLater(d);
  }

  /** Upcoming starts the day after tonight ends and ends on today's month and day a year on. */
  lemma UpcomingStartsTomorrow(today: Date, weekday: int)
    requires ValidDate(today) && 0 <= weekday < 7
    ensures TabRange(Upcoming, today, weekday).start == Stamp(AddDays(today, 1), 0)
    ensures !StampAtMost(TabRange(Upcoming, today, weekday).start, TabRange(Tonight, today, weekday).end)
    ensures TabRange(Upcoming, today, weekday).end.date.year == today.year + 1
    ensures ValidDate(Date(today.year + 1, today.month, today.day)) ==>
      TabRange(Upcoming, today, weekday).end.date == Date(today.year + 1, today.month, today.day)
  {
    NextDayLater(today);
  }
}
