// One weekly timetable entry (Class.cs).
module ClassInfo {
  import opened Common

  /** A class held every week on `dayOfWeek`, from `startTime` to `endTime` (hours, 24-hour clock). */
  datatype Class = Class(className: string, dayOfWeek: Weekday, startTime: real, endTime: real,
                         teacher: string, room: string)

  /** The constructor; teacher and room default to the empty string. */
  function NewClass(name: string, day: Weekday, start: real, end: real,
                    teacherName: string := "", roomName: string := ""): (c: Class)
    ensures c.className == name && c.dayOfWeek == day
    ensures c.startTime == start && c.endTime == end
    ensures c.teacher == teacherName && c.room == roomName
  {
    Class(name, day, start, end, teacherName, roomName)
  }

  /** `IsActiveNow`: on this weekday and within the class's hours, both ends included. */
  predicate IsActiveNow(c: Class, currentDay: Weekday, currentTime: real)
  {
    c.dayOfWeek == currentDay && currentTime >= c.startTime && currentTime <= c.endTime
  }

  predicate IsToday(c: Class, currentDay: Weekday)
  {
    c.dayOfWeek == currentDay
  }

  /** "HH:MM" of a fractional hour: the truncated hour and the truncated minutes of its fraction. */
  function HourMinute(t: real): string
  {
    var hour := Trunc(t);
    var minute := Trunc((t - hour as real) * 60.0);
    Pad2(hour) + ":" + Pad2(minute)
  }

  /** `GetTimeString`: "HH:MM - HH:MM". */
  function GetTimeString(c: Class): string
  {
    HourMinute(c.startTime) + " - " + HourMinute(c.endTime)
  }

  lemma ActiveImpliesToday(c: Class, d: Weekday, t: real)
    requires IsActiveNow(c, d, t)
    ensures IsToday(c, d)
  {
  }

  /** A class with start <= end is active at both its start and its end hour. */
  lemma ActiveAtBothEnds(c: Class)
    requires c.startTime <= c.endTime
    ensures IsActiveNow(c, c.dayOfWeek, c.startTime) && IsActiveNow(c, c.dayOfWeek, c.endTime)
  {
  }

  /** For an hour in [0, 100) the label is two hour digits, ':' and two minute digits below 60. */
  lemma HourMinuteShape(t: real)
    requires 0.0 <= t < 100.0
    ensures var h := t.Floor; var m := ((t - h as real) * 60.0).Floor;
      0 <= h < 100 && 0 <= m < 60 &&
      HourMinute(t) == [DigitChar(h / 10), DigitChar(h % 10), ':', DigitChar(m / 10), DigitChar(m % 10)]
  {
    var h := t.Floor;
    var m := ((t - h as real) * 60.0).Floor;
    assert Trunc(t) == h;
    assert 0.0 <= (t - h as real) * 60.0 < 60.0;
    assert Trunc((t - h as real) * 60.0) == m;
    Pad2TwoDigits(h);
    Pad2TwoDigits(m);
  }

  lemma TimeStringExample()
    ensures GetTimeString(NewClass("Economics", Monday, 8.5, 10.0)) == "08:30 - 10:00"
  {
    assert HourMinute(8.5) == "08:30" by {
      HourMinuteShape(8.5);
      assert (8.5).Floor == 8 && ((8.5 - 8.0) * 60.0).Floor == 30;
    }
    assert HourMinute(10.0) == "10:00" by {
      HourMinuteShape(10.0);
      assert (10.0).Floor == 10 && ((10.0 - 10.0) * 60.0).Floor == 0;
    }
  }
}
