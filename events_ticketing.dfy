// The date and time fields of the event form (EventsTicketingSection):
// the event's time is stored as text such as "11:16 PM", its date as
// "YYYY-MM-DD"; the pickers turn those texts into clock values and back.
//
// A moment is modelled as a UTC calendar date plus the minute of that UTC
// day; the device's time zone is a fixed offset in minutes east of UTC
// (between -1439 and +1439), and "now" is a parameter.

module EventsTicketing {
  import opened Basics
  import opened Text

  // ---------------------------------------------------------------- time

  /** The hours and minutes handed to Date.prototype.setHours. */
  datatype Clock = Clock(hours: nat, minutes: nat)

  predicate ValidClock(c: Clock) { c.hours < 24 && c.minutes < 60 }

  /** The time of day of a Date, as its getHours and getMinutes read it. */
  type TimeOfDay = c: Clock | ValidClock(c) witness Clock(0, 0)

  const MinutesPerDay := 1440

  /** The 12-hour dial hour shown for a 24-hour clock hour: 0 and 12 show as 12. */
  function DialHour(h: nat): (r: nat)
    requires h < 24
    ensures 1 <= r <= 12
    ensures r % 12 == h % 12
  {
    if h % 12 == 0 then 12 else h % 12
  }

  function Meridiem(h: nat): string {
    if h >= 12 then "PM" else "AM"
  }

  /** formatTime: "h:mm AM" / "h:mm PM" from the local clock of a moment. */
  function FormatTime(c: Clock): (r: string)
    requires ValidClock(c)
    ensures |r| >= 7 && r[|r| - 2..] == Meridiem(c.hours)
  {
    NatToString(DialHour(c.hours)) + ":" + Pad2(c.minutes) + " " + Meridiem(c.hours)
  }

  predicate IsMeridiem(s: string) {
    |s| == 2 && ToUpper(s) in {"AM", "PM"}
  }

  /** The text after "h:" or "hh:" must be `\d{2}\s*(AM|PM)` up to the end. */
  function MatchAfterHour(hour: string, rest: string): (r: Option<(string, string, string)>)
  {
    if |rest| >= 4 && IsDigit(rest[0]) && IsDigit(rest[1])
       && Blank(rest[2..|rest| - 2]) && IsMeridiem(rest[|rest| - 2..])
    then Some((hour, rest[..2], ToUpper(rest[|rest| - 2..])))
    else None
  }

  /**
   * The regular expression ^(\d{1,2}):(\d{2})\s*(AM|PM)$ with the i flag:
   * the captured hour digits, minute digits and upper-cased meridiem.
   */
  function MatchTime(s: string): (r: Option<(string, string, string)>)
    ensures r.Some? ==> 1 <= |r.value.0| <= 2 && AllChars(r.value.0, IsDigit)
    ensures r.Some? ==> |r.value.1| == 2 && AllChars(r.value.1, IsDigit)
    ensures r.Some? ==> r.value.2 in {"AM", "PM"}
  {
    if |s| >= 2 && IsDigit(s[0]) && s[1] == ':' then MatchAfterHour(s[..1], s[2..])
    else if |s| >= 3 && IsDigit(s[0]) && IsDigit(s[1]) && s[2] == ':' then MatchAfterHour(s[..2], s[3..])
    else None
  }

  /** The meridiem correction: PM adds 12 below 12, and 12 AM is hour 0. */
  function ToDayHour(h: nat, meridiem: string): nat {
    if meridiem == "PM" && h < 12 then h + 12
    else if meridiem == "AM" && h == 12 then 0
    else h
  }

  /**
   * `d.setHours(hours, minutes, 0, 0)` read back as a time of day: minutes
   * past 59 carry into the hour and hours past 23 into the next day, so the
   * clock is the total number of minutes modulo one day.
   */
  function SetHours(hours: nat, minutes: nat): (c: Clock)
    ensures ValidClock(c)
    ensures c.hours * 60 + c.minutes == (hours * 60 + minutes) % MinutesPerDay
  {
    var t := (hours * 60 + minutes) % MinutesPerDay;
    Clock(t / 60, t % 60)
  }

  /** An hour and minute already in range are set as they are. */
  lemma SetHoursInRange(hours: nat, minutes: nat)
    requires hours < 24 && minutes < 60
    ensures SetHours(hours, minutes) == Clock(hours, minutes)
  {
    var t := hours * 60 + minutes;
    assert t % MinutesPerDay == t;
    assert t / 60 == hours;
  }

  /**
   * parseTimeString: the clock to set, or None where the source falls back
   * to the current moment (empty or unmatched text).  Out-of-range values
   * such as "9:75 PM" go through setHours, which carries them over.
   */
  function ParseTime(value: string): (r: Option<Clock>)
    ensures value == [] ==> r == None
    ensures r.Some? <==> MatchTime(value).Some?
    ensures r.Some? ==> ValidClock(r.value)
  {
    if value == [] then None
    else match MatchTime(value)
      case None => None
      case Some((h, m, ampm)) => Some(SetHours(ToDayHour(ParseDigits(h), ampm), ParseDigits(m)))
  }

  /** A typed "9:75 PM" opens the picker at 22:15, which Save writes as "10:15 PM". */
  lemma ParseTimeCarries()
    ensures ParseTime("9:75 PM") == Some(Clock(22, 15))
    ensures FormatTime(Clock(22, 15)) == "10:15 PM"
  {
    assert MatchTime("9:75 PM") == Some(("9", "75", "PM")) by {
      assert "9:75 PM" == "9" + ":" + "75" + " " + "PM";
      MatchTimeOf("9", "75", "PM");
    }
    assert ParseDigits("9") == 9 by { ParseNatToString(9); }
    assert ParseDigits("75") == 75 by { ParseNatToString(75); }
    assert SetHours(21, 75) == Clock(22, 15) by {
      assert (21 * 60 + 75) % MinutesPerDay == 1335;
    }
    assert FormatTime(Clock(22, 15)) == "10:15 PM" by {
      assert DialHour(22) == 10;
      assert NatToString(10) == "10";
      assert Pad2(15) == "15";
    }
  }

  /** The clock a picker opens on: the parsed time, or the current one. */
  function PickerTime(value: string, now: TimeOfDay): TimeOfDay {
    ParseTime(value).GetOr(now)
  }

  lemma FormatTimeShape(c: Clock)
    requires ValidClock(c)
    ensures var s := FormatTime(c); |s| == 7 || |s| == 8
    ensures EndsWith(FormatTime(c), if c.hours < 12 then " AM" else " PM")
  {
    NatToStringShort(DialHour(c.hours));
  }

  /** Parsing what formatTime wrote gives back the same clock. */
  lemma ParseFormatTime(c: Clock)
    requires ValidClock(c)
    ensures ParseTime(FormatTime(c)) == Some(c)
  {
    var d := DialHour(c.hours);
    var hs := NatToString(d);
    var ms := Pad2(c.minutes);
    NatToStringShort(d);
    ParseNatToString(d);
    ParsePad2(c.minutes);
    MatchTimeOf(hs, ms, Meridiem(c.hours));
    DialHourBack(c.hours);
    SetHoursInRange(c.hours, c.minutes);
  }

  /** The meridiem correction undoes the 12-hour dial. */
  lemma DialHourBack(h: nat)
    requires h < 24
    ensures ToDayHour(DialHour(h), Meridiem(h)) == h
  {
  }

  /** One or two hour digits, a colon, two minute digits, a space and a meridiem match the time pattern. */
  lemma MatchTimeOf(hs: string, ms: string, ap: string)
    requires 1 <= |hs| <= 2 && AllChars(hs, IsDigit)
    requires |ms| == 2 && IsDigit(ms[0]) && IsDigit(ms[1]) && (ap == "AM" || ap == "PM")
    ensures MatchTime(hs + ":" + ms + " " + ap) == Some((hs, ms, ap))
  {
    var rest := ms + " " + ap;
    assert MatchAfterHour(hs, rest) == Some((hs, ms, ap)) by {
      assert ToUpper(ap) == ap;
      assert rest[2..|rest| - 2] == " ";
      assert rest[|rest| - 2..] == ap;
      assert rest[..2] == ms;
    }
    var s := hs + ":" + ms + " " + ap;
    if |hs| == 1 {
      assert s[..1] == hs && s[1] == ':' && s[2..] == rest;
    } else {
      assert s[..2] == hs && s[2] == ':' && s[3..] == rest;
      assert !IsDigit(s[2]);
    }
  }

  /** A well-formed time text with an hour from 1 to 12 and minutes below 60 parses to a valid clock. */
  lemma ParseTimeInRange(value: string, h: string, m: string, ap: string)
    requires MatchTime(value) == Some((h, m, ap))
    requires 1 <= ParseDigits(h) <= 12 && ParseDigits(m) < 60
    ensures ParseTime(value) == Some(Clock(ToDayHour(ParseDigits(h), ap), ParseDigits(m)))
  {
    SetHoursInRange(ToDayHour(ParseDigits(h), ap), ParseDigits(m));
  }

  // ---------------------------------------------------------------- dates

  datatype Date = Date(year: int, month: int, day: int)

  predicate IsLeap(y: int) { y % 4 == 0 && (y % 100 != 0 || y % 400 == 0) }

  function DaysInMonth(y: int, m: int): int {
    if m == 2 then (if IsLeap(y) then 29 else 28)
    else if m == 4 || m == 6 || m == 9 || m == 11 then 30
    else 31
  }

  predicate ValidDate(d: Date) {
    1 <= d.month <= 12 && 1 <= d.day <= DaysInMonth(d.year, d.month)
  }

  function NextDay(d: Date): (r: Date)
    requires ValidDate(d)
    ensures ValidDate(r)
  {
    if d.day < DaysInMonth(d.year, d.month) then Date(d.year, d.month, d.day + 1)
    else if d.month < 12 then Date(d.year, d.month + 1, 1)
    else Date(d.year + 1, 1, 1)
  }

  function PrevDay(d: Date): (r: Date)
    requires ValidDate(d)
    ensures ValidDate(r)
  {
    if d.day > 1 then Date(d.year, d.month, d.day - 1)
    else if d.month > 1 then Date(d.year, d.month - 1, DaysInMonth(d.year, d.month - 1))
    else Date(d.year - 1, 12, 31)
  }

  /** The day before a date is a different date, and the day after it is the date again. */
  lemma NextPrevDay(d: Date)
    requires ValidDate(d)
    ensures PrevDay(d) != d
    ensures NextDay(PrevDay(d)) == d
    ensures PrevDay(NextDay(d)) == d
  {
  }

  /** A moment: a valid UTC date and a minute of that day. */
  datatype Moment = Moment(utc: Date, minute: int)

  predicate ValidMoment(t: Moment) { ValidDate(t.utc) && 0 <= t.minute < 1440 }

  predicate ValidOffset(offset: int) { -1440 < offset < 1440 }

  /** The local date and minute of a moment in a zone `offset` minutes east of UTC. */
  function LocalOf(t: Moment, offset: int): (r: Moment)
    requires ValidMoment(t) && ValidOffset(offset)
    ensures ValidMoment(r)
  {
    var m := t.minute + offset;
    if m >= 1440 then Moment(NextDay(t.utc), m - 1440)
    else if m < 0 then Moment(PrevDay(t.utc), m + 1440)
    else Moment(t.utc, m)
  }

  /** The moment at a local date and minute. */
  function FromLocal(local: Moment, offset: int): (r: Moment)
    requires ValidMoment(local) && ValidOffset(offset)
    ensures ValidMoment(r)
  {
    var m := local.minute - offset;
    if m >= 1440 then Moment(NextDay(local.utc), m - 1440)
    else if m < 0 then Moment(PrevDay(local.utc), m + 1440)
    else Moment(local.utc, m)
  }

  lemma LocalOfFromLocal(local: Moment, offset: int)
    requires ValidMoment(local) && ValidOffset(offset)
    ensures LocalOf(FromLocal(local, offset), offset) == local
  {
    NextPrevDay(local.utc);
  }

  /** Four zero-padded digits, for a year from 0 to 9999. */
  function Pad4(n: nat): (r: string)
    requires n < 10000
    ensures |r| == 4 && AllChars(r, IsDigit)
  {
    [DigitChar(n / 10 / 10 / 10), DigitChar(n / 10 / 10 % 10), DigitChar(n / 10 % 10), DigitChar(n % 10)]
  }

  lemma ParsePad4(n: nat)
    requires n < 10000
    ensures ParseDigits(Pad4(n)) == n
  {
    var r := Pad4(n);
    ParseDigitsStep(r, 1);
    ParseDigitsStep(r, 2);
    ParseDigitsStep(r, 3);
    ParseDigitsStep(r, 4);
    assert r[..0] == [] && r[..4] == r;
  }

  /** Reading one more digit multiplies what was read by ten and adds the digit. */
  lemma ParseDigitsStep(s: string, k: nat)
    requires 0 < k <= |s| && AllChars(s, IsDigit)
    ensures ParseDigits(s[..k]) == 10 * ParseDigits(s[..k - 1]) + DigitValue(s[k - 1])
  {
    assert s[..k][..k - 1] == s[..k - 1];
  }

  /** The year as Date.prototype.toISOString writes it: four digits, or a sign and six digits. */
  function IsoYear(y: int): (r: string)
    ensures 0 <= y <= 9999 ==> |r| == 4 && AllChars(r, IsDigit)
  {
    if 0 <= y <= 9999 then Pad4(y)
    else if y < 0 then "-" + Pad2Digits6(-y)
    else "+" + Pad2Digits6(y)
  }

  /** Six digits zero-padded, keeping the low six digits of a larger number. */
  function Pad2Digits6(n: nat): string {
    Pad2(n / 10000 % 100) + Pad2(n / 100 % 100) + Pad2(n % 100)
  }

  /** "YYYY-MM-DD" */
  function IsoDate(d: Date): string
    requires ValidDate(d)
  {
    IsoYear(d.year) + "-" + Pad2(d.month) + "-" + Pad2(d.day)
  }

  /**
   * The date part of the text `${value}T00:00:00` as the Date constructor
   * reads it: four year digits, two month digits and two day digits naming
   * a day of the calendar.
   */
  function ParseIsoDate(s: string): (r: Option<Date>)
    ensures r.Some? ==> ValidDate(r.value) && 0 <= r.value.year <= 9999
  {
    if |s| == 10 && AllChars(s[..4], IsDigit) && s[4] == '-' && AllChars(s[5..7], IsDigit)
       && s[7] == '-' && AllChars(s[8..], IsDigit)
    then
      ParseDigitsBound(s[..4]);
      var d := Date(ParseDigits(s[..4]), ParseDigits(s[5..7]), ParseDigits(s[8..]));
      if ValidDate(d) then Some(d) else None
    else None
  }

  lemma ParseIsoDateOfIsoDate(d: Date)
    requires ValidDate(d) && 0 <= d.year <= 9999
    ensures ParseIsoDate(IsoDate(d)) == Some(d)
  {
    var s := IsoDate(d);
    ParsePad4(d.year);
    ParsePad2(d.month);
    ParsePad2(d.day);
    assert s[..4] == Pad4(d.year);
    assert s[5..7] == Pad2(d.month);
    assert s[8..] == Pad2(d.day);
  }

  /** parseDateString: local midnight of the given date, or `now` for empty or invalid text. */
  function ParseDate(value: string, now: Moment, offset: int): (r: Moment)
    requires ValidMoment(now) && ValidOffset(offset)
    ensures ValidMoment(r)
    ensures ParseIsoDate(value).None? ==> r == now
  {
    if value == [] then now
    else match ParseIsoDate(value)
      case None => now
      case Some(d) => FromLocal(Moment(d, 0), offset)
  }

  /** formatDate as written: the date part of toISOString, which is the UTC date. */
  function FormatDate(t: Moment): (r: string)
    requires ValidMoment(t)
    ensures 0 <= t.utc.year <= 9999 ==> |r| == 10 && r[4] == '-' && r[7] == '-'
  {
    IsoDate(t.utc)
  }

  /** The date the user saw in the picker: the local calendar date. */
  function FormatLocalDate(t: Moment, offset: int): string
    requires ValidMoment(t) && ValidOffset(offset)
  {
    IsoDate(LocalOf(t, offset).utc)
  }

  /**
   * Opening the date picker on a stored date and pressing Save without
   * moving the wheel, as written: east of UTC the saved date is the day
   * before; at UTC or west of it the date is kept.
   */
  lemma SaveUntouchedDate(d: Date, now: Moment, offset: int)
    requires ValidDate(d) && 0 <= d.year <= 9999
    requires ValidMoment(now) && ValidOffset(offset)
    ensures offset > 0 ==> FormatDate(ParseDate(IsoDate(d), now, offset)) == IsoDate(PrevDay(d))
    ensures offset <= 0 ==> FormatDate(ParseDate(IsoDate(d), now, offset)) == IsoDate(d)
  {
    ParseIsoDateOfIsoDate(d);
  }

  /** A concrete case: in UTC+4, "2024-05-10" is saved back as "2024-05-09". */
  lemma SaveUntouchedDateShiftsBack(now: Moment)
    requires ValidMoment(now)
    ensures FormatDate(ParseDate("2024-05-10", now, 240)) == "2024-05-09"
  {
    var d := Date(2024, 5, 10);
    assert IsoDate(d) == "2024-05-10";
    SaveUntouchedDate(d, now, 240);
    assert PrevDay(d) == Date(2024, 5, 9);
    assert IsoDate(Date(2024, 5, 9)) == "2024-05-09";
  }

  /** With the local date written out, the untouched picker saves the date it was opened on, in every zone. */
  lemma SaveUntouchedLocalDate(d: Date, now: Moment, offset: int)
    requires ValidDate(d) && 0 <= d.year <= 9999
    requires ValidMoment(now) && ValidOffset(offset)
    ensures FormatLocalDate(ParseDate(IsoDate(d), now, offset), offset) == IsoDate(d)
  {
    ParseIsoDateOfIsoDate(d);
    LocalOfFromLocal(Moment(d, 0), offset);
  }

  // ---------------------------------------------------------------- pickers

  /**
   * The picker state of the section: which event's date or time picker is
   * open and the value the wheel shows.  Saving returns the field update the
   * section passes to its onUpdateEvent callback.
   */
  class Pickers {
    var datePickerFor: Option<string>
    var tempDate: Option<Moment>
    var timePickerFor: Option<string>
    var tempTime: Option<TimeOfDay>

    constructor ()
      ensures datePickerFor == None && tempDate == None
      ensures timePickerFor == None && tempTime == None
    {
      datePickerFor, tempDate := None, None;
      timePickerFor, tempTime := None, None;
    }

    /** Pressing an event's Date field. */
    method OpenDate(eventId: string, date: string, now: Moment, offset: int)
      requires ValidMoment(now) && ValidOffset(offset)
      modifies this`datePickerFor, this`tempDate
      ensures datePickerFor == Some(eventId)
      ensures tempDate == Some(ParseDate(date, now, offset))
    {
      tempDate := Some(ParseDate(date, now, offset));
      datePickerFor := Some(eventId);
    }

    /** Pressing an event's Time field. */
    method OpenTime(eventId: string, time: string, now: TimeOfDay)
      modifies this`timePickerFor, this`tempTime
      ensures timePickerFor == Some(eventId)
      ensures tempTime == Some(PickerTime(time, now))
    {
      tempTime := Some(PickerTime(time, now));
      timePickerFor := Some(eventId);
    }

    /** Turning the iOS date wheel. */
    method ScrollDate(t: Moment)
      modifies this`tempDate
      ensures tempDate == Some(t)
    {
      tempDate := Some(t);
    }

    /** Turning the iOS time wheel. */
    method ScrollTime(c: TimeOfDay)
      modifies this`tempTime
      ensures tempTime == Some(c)
    {
      tempTime := Some(c);
    }

    /**
     * The iOS Save button of the date picker: the open event's date becomes
     * formatDate of the wheel's moment (or of now), and the picker closes.
     */
    method SaveDate(now: Moment) returns (eventId: string, value: string)
      requires datePickerFor.Some?
      requires ValidMoment(now) && (tempDate.Some? ==> ValidMoment(tempDate.value))
      modifies this`datePickerFor, this`tempDate
      ensures eventId == old(datePickerFor).value
      ensures value == FormatDate(old(tempDate).GetOr(now))
      ensures datePickerFor == None && tempDate == None
    {
      var commit := tempDate.GetOr(now);
      eventId, value := datePickerFor.value, FormatDate(commit);
      datePickerFor, tempDate := None, None;
    }

    /**
     * The Android date dialog: a "set" with a date commits formatDate of it,
     * a dismissal commits nothing, and either way the picker closes.
     */
    method AndroidDateChange(isSet: bool, date: Option<Moment>) returns (update: Option<(string, string)>)
      requires datePickerFor.Some?
      requires date.Some? ==> ValidMoment(date.value)
      modifies this`datePickerFor, this`tempDate
      ensures isSet && date.Some? ==> update == Some((old(datePickerFor).value, FormatDate(date.value)))
      ensures !isSet || date.None? ==> update == None
      ensures datePickerFor == None && tempDate == None
    {
      update := None;
      if isSet && date.Some? {
        update := Some((datePickerFor.value, FormatDate(date.value)));
      }
      datePickerFor, tempDate := None, None;
    }

    /** The Android Cancel button of the date picker: it closes without an update. */
    method CancelDate()
      modifies this`datePickerFor, this`tempDate
      ensures datePickerFor == None && tempDate == None
    {
      datePickerFor, tempDate := None, None;
    }

    /** The iOS Save button of the time picker. */
    method SaveTime(now: TimeOfDay) returns (eventId: string, value: string)
      requires timePickerFor.Some?
      modifies this`timePickerFor, this`tempTime
      ensures eventId == old(timePickerFor).value
      ensures value == FormatTime(old(tempTime).GetOr(now))
      ensures timePickerFor == None && tempTime == None
    {
      var commit := tempTime.GetOr(now);
      eventId, value := timePickerFor.value, FormatTime(commit);
      timePickerFor, tempTime := None, None;
    }
    /** The Android time dialog, as for the date. */
    method AndroidTimeChange(isSet: bool, time: Option<TimeOfDay>) returns (update: Option<(string, string)>)
      requires timePickerFor.Some?
      modifies this`timePickerFor, this`tempTime
      ensures isSet && time.Some? ==> update == Some((old(timePickerFor).value, FormatTime(time.value)))
      ensures !isSet || time.None? ==> update == None
      ensures timePickerFor == None && tempTime == None
    {
      update := None;
      if isSet && time.Some? {
        update := Some((timePickerFor.value, FormatTime(time.value)));
      }
      timePickerFor, tempTime := None, None;
    }

    /** The Android Cancel button of the time picker. */
    method CancelTime()
      modifies this`timePickerFor, this`tempTime
      ensures timePickerFor == None && tempTime == None
    {
      timePickerFor, tempTime := None, None;
    }
  }

  /** Opening the picker on a stored date and saving at once, through the picker's own methods. */
  method OpenAndSaveDate(eventId: string, d: Date, now: Moment, offset: int) returns (value: string)
    requires ValidDate(d) && 0 <= d.year <= 9999
    requires ValidMoment(now) && ValidOffset(offset)
    ensures offset > 0 ==> value == IsoDate(PrevDay(d))
    ensures offset <= 0 ==> value == IsoDate(d)
  {
    var p := new Pickers();
    p.OpenDate(eventId, IsoDate(d), now, offset);
    var id;
    id, value := p.SaveDate(now);
    SaveUntouchedDate(d, now, offset);
  }

  /** Opening the time picker on a time it wrote and saving at once keeps the time. */
  method OpenAndSaveTime(eventId: string, c: TimeOfDay, now: TimeOfDay) returns (value: string)
    ensures value == FormatTime(c)
  {
    var p := new Pickers();
    ParseFormatTime(c);
    p.OpenTime(eventId, FormatTime(c), now);
    var id;
    id, value := p.SaveTime(now);
  }
}
