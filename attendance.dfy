// Attendance records and the hour tallies computed from them (AttendanceRecord.cs).
module Attendance {
  import opened Common
  import opened ClassInfo

  /** One class occurrence: which day it was, when the player turned up, and whether they did. */
  datatype AttendanceRecord = AttendanceRecord(className: string, dayOfWeek: Weekday, dayNumber: int,
                                               attendanceTime: real, attended: bool)

  predicate ClassMatches(c: Class, name: string, day: Weekday)
  {
    c.className == name && c.dayOfWeek == day
  }

  /** The first weekly class with this name on this weekday. */
  function FirstClassFor(classes: seq<Class>, name: string, day: Weekday): (r: Option<Class>)
    ensures r.Some? ==> exists i :: 0 <= i < |classes| && classes[i] == r.value &&
                          ClassMatches(classes[i], name, day) &&
                          forall j :: 0 <= j < i ==> !ClassMatches(classes[j], name, day)
    ensures r.None? ==> forall i :: 0 <= i < |classes| ==> !ClassMatches(classes[i], name, day)
  {
    if |classes| == 0 then None
    else if ClassMatches(classes[0], name, day) then Some(classes[0])
    else
      var r := FirstClassFor(classes[1..], name, day);
      assert forall i :: 1 <= i < |classes| ==> classes[i] == classes[1..][i - 1];
      r
  }

  /** A matching class with no match before it is the one a record is worth. */
  lemma FirstMatchFound(classes: seq<Class>, name: string, r: AttendanceRecord, j: nat)
    requires j < |classes| && ClassMatches(classes[j], name, r.dayOfWeek)
    requires forall k :: 0 <= k < j ==> !ClassMatches(classes[k], name, r.dayOfWeek)
    ensures FirstClassFor(classes, name, r.dayOfWeek) == Some(classes[j])
    ensures RecordHours(classes, name, r) == RoundHalfEven(classes[j].endTime - classes[j].startTime)
  {
  }

  /** Whole hours a record is worth: the rounded length of its weekly class, or 0 if there is none. */
  function RecordHours(classes: seq<Class>, name: string, r: AttendanceRecord): int
  {
    match FirstClassFor(classes, name, r.dayOfWeek)
    case None => 0
    case Some(c) => RoundHalfEven(c.endTime - c.startTime)
  }

  predicate Counted(r: AttendanceRecord, name: string, onlyAttended: bool)
  {
    r.className == name && (r.attended || !onlyAttended)
  }

  /** Sum of `RecordHours` over the records of `name` (only the attended ones, if asked). */
  function TallyHours(records: seq<AttendanceRecord>, classes: seq<Class>, name: string, onlyAttended: bool): int
  {
    if |records| == 0 then 0
    else
      var last := records[|records| - 1];
      TallyHours(records[..|records| - 1], classes, name, onlyAttended) +
        (if Counted(last, name, onlyAttended) then RecordHours(classes, name, last) else 0)
  }

  /** `GetAttendanceCount`: attended hours; 0 when there is no timetable. */
  function AttendedHours(records: seq<AttendanceRecord>, timetable: Option<seq<Class>>, name: string): int
  {
    if timetable.None? then 0 else TallyHours(records, timetable.value, name, true)
  }

  /** `GetTotalClassCount`: recorded hours, attended or not; 0 when there is no timetable. */
  function TotalHours(records: seq<AttendanceRecord>, timetable: Option<seq<Class>>, name: string): int
  {
    if timetable.None? then 0 else TallyHours(records, timetable.value, name, false)
  }

  /** `GetAttendancePercentage` from the two tallies. */
  function Percentage(attended: int, total: int): real
  {
    if total == 0 then 0.0 else attended as real / total as real * 100.0
  }

  predicate WellFormed(classes: seq<Class>)
  {
    forall i :: 0 <= i < |classes| ==> classes[i].startTime <= classes[i].endTime
  }

  lemma RecordHoursNonNegative(classes: seq<Class>, name: string, r: AttendanceRecord)
    requires WellFormed(classes)
    ensures RecordHours(classes, name, r) >= 0
  {
    match FirstClassFor(classes, name, r.dayOfWeek)
    case None =>
    case Some(c) =>
      RoundHalfEvenNonNegative(c.endTime - c.startTime);
  }

  /** Attended hours never exceed recorded hours when no class ends before it starts. */
  lemma {:induction false} AttendedAtMostTotal(records: seq<AttendanceRecord>, classes: seq<Class>, name: string)
    requires WellFormed(classes)
    ensures 0 <= TallyHours(records, classes, name, true) <= TallyHours(records, classes, name, false)
  {
    if |records| > 0 {
      AttendedAtMostTotal(records[..|records| - 1], classes, name);
      RecordHoursNonNegative(classes, name, records[|records| - 1]);
    }
  }

  lemma AttendedAtMostTotalWithTimetable(records: seq<AttendanceRecord>, timetable: Option<seq<Class>>, name: string)
    requires timetable.Some? ==> WellFormed(timetable.value)
    ensures 0 <= AttendedHours(records, timetable, name) <= TotalHours(records, timetable, name)
  {
    if timetable.Some? {
      AttendedAtMostTotal(records, timetable.value, name);
    }
  }

  /** The percentage is 0 without recorded hours and otherwise within [0, 100]. */
  lemma PercentageBounds(attended: int, total: int)
    requires 0 <= attended <= total
    ensures 0.0 <= Percentage(attended, total) <= 100.0
    ensures total > 0 && attended == total ==> Percentage(attended, total) == 100.0
  {
    if total > 0 {
      var q := attended as real / total as real;
      assert q * total as real == attended as real;
      assert 0.0 <= q <= 1.0;
    }
  }

  /** A record of another class adds nothing to either tally. */
  lemma {:induction false} OtherClassesIgnored(records: seq<AttendanceRecord>, classes: seq<Class>,
                                               name: string, onlyAttended: bool, r: AttendanceRecord)
    requires r.className != name
    ensures TallyHours(records + [r], classes, name, onlyAttended) == TallyHours(records, classes, name, onlyAttended)
  {
    assert (records + [r])[..|records|] == records;
  }

  /** `GetDayNumber`: Monday..Sunday as 1..7. */
  function GetDayNumber(day: Weekday): (n: int)
    ensures 1 <= n <= 7
    ensures n == (if day == Sunday then 7 else WeekdayIndex(day))
  {
    match day
    case Monday => 1
    case Tuesday => 2
    case Wednesday => 3
    case Thursday => 4
    case Friday => 5
    case Saturday => 6
    case Sunday => 7
  }

  lemma GetDayNumberInjective(a: Weekday, b: Weekday)
    requires GetDayNumber(a) == GetDayNumber(b)
    ensures a == b
  {
  }

  /** `HasClassOccurred`: within the Monday-first week, has this class already ended? */
  predicate HasClassOccurred(c: Class, currentDay: Weekday, currentTime: real)
  {
    var classDay := GetDayNumber(c.dayOfWeek);
    var todayNumber := GetDayNumber(currentDay);
    if classDay > todayNumber then false
    else if classDay == todayNumber then currentTime >= c.endTime
    else true
  }

  /** Once a class has occurred it stays occurred for the rest of the day. */
  lemma OccurredStaysOccurred(c: Class, d: Weekday, t: real, t': real)
    requires HasClassOccurred(c, d, t) && t <= t'
    ensures HasClassOccurred(c, d, t')
  {
  }

  /** A Sunday class has occurred only on Sunday after it ended: Sunday closes the week. */
  lemma SundayClosesWeek(c: Class, d: Weekday, t: real)
    requires c.dayOfWeek == Sunday
    ensures HasClassOccurred(c, d, t) <==> d == Sunday && t >= c.endTime
  {
  }

  /** Number of classes of `name` that have occurred this week. */
  function OccurredCount(classes: seq<Class>, name: string, day: Weekday, t: real): nat
  {
    if |classes| == 0 then 0
    else
      OccurredCount(classes[..|classes| - 1], name, day, t) +
        (if classes[|classes| - 1].className == name && HasClassOccurred(classes[|classes| - 1], day, t) then 1 else 0)
  }

  lemma {:induction false} OccurredCountBound(classes: seq<Class>, name: string, day: Weekday, t: real)
    ensures OccurredCount(classes, name, day, t) <= |classes|
  {
    if |classes| > 0 { OccurredCountBound(classes[..|classes| - 1], name, day, t); }
  }

  /** The records of one class, in their original order. */
  function RecordsFor(records: seq<AttendanceRecord>, name: string): seq<AttendanceRecord>
  {
    if |records| == 0 then []
    else
      var last := records[|records| - 1];
      RecordsFor(records[..|records| - 1], name) + (if last.className == name then [last] else [])
  }

  /** Exactly the records of the class: each selected record has the name, and each such record is selected. */
  lemma {:induction false} RecordsForMembers(records: seq<AttendanceRecord>, name: string, r: AttendanceRecord)
    ensures r in RecordsFor(records, name) <==> r in records && r.className == name
  {
    if |records| > 0 {
      RecordsForMembers(records[..|records| - 1], name, r);
      assert records == records[..|records| - 1] + [records[|records| - 1]];
    }
  }

  /** Selecting keeps every matching record, duplicates included. */
  lemma {:induction false} RecordsForCount(records: seq<AttendanceRecord>, name: string, r: AttendanceRecord)
    requires r.className == name
    ensures multiset(RecordsFor(records, name))[r] == multiset(records)[r]
  {
    if |records| > 0 {
      RecordsForCount(records[..|records| - 1], name, r);
      assert records == records[..|records| - 1] + [records[|records| - 1]];
    }
  }

  class AttendanceData {
    var records: seq<AttendanceRecord>

    constructor ()
      ensures records == []
    {
      records := [];
    }

    method AddRecord(record: AttendanceRecord)
      modifies this
      ensures records == old(records) + [record]
    {
      records := records + [record];
    }

    method ClearAllRecords()
      modifies this
      ensures records == []
    {
      records := [];
    }

    /** The inner search of both tallies: the hours of the first matching weekly class. */
    method ClassHoursFor(weeklyClasses: seq<Class>, className: string, record: AttendanceRecord) returns (hours: int)
      ensures hours == RecordHours(weeklyClasses, className, record)
    {
      hours := 0;
      var j := 0;
      while j < |weeklyClasses|
        invariant 0 <= j <= |weeklyClasses|
        invariant forall k :: 0 <= k < j ==> !ClassMatches(weeklyClasses[k], className, record.dayOfWeek)
      {
        var classItem := weeklyClasses[j];
        if classItem.className == className && classItem.dayOfWeek == record.dayOfWeek {
          FirstMatchFound(weeklyClasses, className, record, j);
          var duration := classItem.endTime - classItem.startTime;
          hours := RoundHalfEven(duration);
          return;
        }
        j := j + 1;
      }
    }

    method GetAttendanceCount(className: string, weeklyClasses: Option<seq<Class>>) returns (totalHours: int)
      ensures totalHours == AttendedHours(records, weeklyClasses, className)
    {
      if weeklyClasses.None? {
        return 0;
      }
      var classes := weeklyClasses.value;
      totalHours := 0;
      var i := 0;
      while i < |records|
        invariant 0 <= i <= |records|
        invariant totalHours == TallyHours(records[..i], classes, className, true)
      {
        var record := records[i];
        assert records[..i + 1][..i] == records[..i];
        if record.className == className && record.attended {
          var hours := ClassHoursFor(classes, className, record);
          totalHours := totalHours + hours;
        }
        i := i + 1;
      }
      assert records[..i] == records;
    }

    method GetTotalClassCount(className: string, weeklyClasses: Option<seq<Class>>) returns (totalHours: int)
      ensures totalHours == TotalHours(records, weeklyClasses, className)
    {
      if weeklyClasses.None? {
        return 0;
      }
      var classes := weeklyClasses.value;
      totalHours := 0;
      var i := 0;
      while i < |records|
        invariant 0 <= i <= |records|
        invariant totalHours == TallyHours(records[..i], classes, className, false)
      {
        var record := records[i];
        assert records[..i + 1][..i] == records[..i];
        if record.className == className {
          var hours := ClassHoursFor(classes, className, record);
          totalHours := totalHours + hours;
        }
        i := i + 1;
      }
      assert records[..i] == records;
    }

    method GetAttendancePercentage(className: string, weeklyClasses: Option<seq<Class>>) returns (percentage: real)
      ensures percentage == Percentage(AttendedHours(records, weeklyClasses, className),
                                       TotalHours(records, weeklyClasses, className))
      ensures (weeklyClasses.Some? ==> WellFormed(weeklyClasses.value)) ==> 0.0 <= percentage <= 100.0
    {
      var total := GetTotalClassCount(className, weeklyClasses);
      var attended := GetAttendanceCount(className, weeklyClasses);
      if weeklyClasses.Some? ==> WellFormed(weeklyClasses.value) {
        AttendedAtMostTotalWithTimetable(records, weeklyClasses, className);
        PercentageBounds(attended, total);
      }
      if total == 0 {
        return 0.0;
      }
      percentage := attended as real / total as real * 100.0;
    }

    /** `GetClassesOccurredCount`: 0 without a clock or timetable; `now` is the clock's weekday and hour. */
    method GetClassesOccurredCount(className: string, now: Option<(Weekday, real)>,
                                   weeklyClasses: Option<seq<Class>>) returns (classesOccurred: nat)
      ensures now.None? || weeklyClasses.None? ==> classesOccurred == 0
      ensures now.Some? && weeklyClasses.Some? ==>
        classesOccurred == OccurredCount(weeklyClasses.value, className, now.value.0, now.value.1)
    {
      if now.None? || weeklyClasses.None? {
        return 0;
      }
      var classes := weeklyClasses.value;
      var (currentDay, currentTime) := now.value;
      classesOccurred := 0;
      var i := 0;
      while i < |classes|
        invariant 0 <= i <= |classes|
        invariant classesOccurred == OccurredCount(classes[..i], className, currentDay, currentTime)
      {
        assert classes[..i + 1][..i] == classes[..i];
        var classItem := classes[i];
        if classItem.className == className {
          if HasClassOccurred(classItem, currentDay, currentTime) {
            classesOccurred := classesOccurred + 1;
          }
        }
        i := i + 1;
      }
      assert classes[..i] == classes;
    }

    method GetRecordsForClass(className: string) returns (classRecords: seq<AttendanceRecord>)
      ensures classRecords == RecordsFor(records, className)
    {
      classRecords := [];
      var i := 0;
      while i < |records|
        invariant 0 <= i <= |records|
        invariant classRecords == RecordsFor(records[..i], className)
      {
        assert records[..i + 1][..i] == records[..i];
        if records[i].className == className {
          classRecords := classRecords + [records[i]];
        }
        i := i + 1;
      }
      assert records[..i] == records;
    }
  }
}
