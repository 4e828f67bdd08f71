// The weekly timetable and its queries (TimetableManager.cs).
module Timetable {
  import opened Common
  import opened ClassInfo
  import opened Attendance
  import opened Clock

  /** The first class in list order active at (day, t). */
  function FirstActive(classes: seq<Class>, day: Weekday, t: real): (r: Option<Class>)
    ensures r.Some? ==> exists i :: 0 <= i < |classes| && classes[i] == r.value &&
                          IsActiveNow(classes[i], day, t) &&
                          forall j :: 0 <= j < i ==> !IsActiveNow(classes[j], day, t)
    ensures r.None? ==> forall i :: 0 <= i < |classes| ==> !IsActiveNow(classes[i], day, t)
  {
    if |classes| == 0 then None
    else if IsActiveNow(classes[0], day, t) then Some(classes[0])
    else
      assert forall i :: 1 <= i < |classes| ==> classes[i] == classes[1..][i - 1];
      FirstActive(classes[1..], day, t)
  }

  /** Attendance is allowed during the first half of a class, both ends included. */
  predicate InAttendanceWindow(c: Class, t: real)
  {
    t >= c.startTime && t <= c.startTime + (c.endTime - c.startTime) * 0.5
  }

  /** The first class on `day` whose attendance window contains t. */
  function FirstAttendable(classes: seq<Class>, day: Weekday, t: real): (r: Option<Class>)
    ensures r.Some? ==> exists i :: 0 <= i < |classes| && classes[i] == r.value &&
                          classes[i].dayOfWeek == day && InAttendanceWindow(classes[i], t) &&
                          forall j :: 0 <= j < i ==> !(classes[j].dayOfWeek == day && InAttendanceWindow(classes[j], t))
    ensures r.None? ==> forall i :: 0 <= i < |classes| ==>
                          !(classes[i].dayOfWeek == day && InAttendanceWindow(classes[i], t))
  {
    if |classes| == 0 then None
    else if classes[0].dayOfWeek == day && InAttendanceWindow(classes[0], t) then Some(classes[0])
    else
      assert forall i :: 1 <= i < |classes| ==> classes[i] == classes[1..][i - 1];
      FirstAttendable(classes[1..], day, t)
  }

  /** An attendable class is active as well: the window lies inside the class. */
  lemma AttendableIsActive(c: Class, t: real)
    requires c.startTime <= c.endTime && InAttendanceWindow(c, t)
    ensures IsActiveNow(c, c.dayOfWeek, t)
  {
  }

  /** The classes on `day`, in list order. */
  function ClassesOn(classes: seq<Class>, day: Weekday): seq<Class>
  {
    if |classes| == 0 then []
    else
      var last := classes[|classes| - 1];
      ClassesOn(classes[..|classes| - 1], day) + (if last.dayOfWeek == day then [last] else [])
  }

  lemma {:induction false} ClassesOnMembers(classes: seq<Class>, day: Weekday, c: Class)
    ensures c in ClassesOn(classes, day) <==> c in classes && c.dayOfWeek == day
  {
    if |classes| > 0 {
      ClassesOnMembers(classes[..|classes| - 1], day, c);
      assert classes == classes[..|classes| - 1] + [classes[|classes| - 1]];
    }
  }

  predicate SortedByStart(s: seq<Class>)
  {
    forall i, j :: 0 <= i < j < |s| ==> s[i].startTime <= s[j].startTime
  }

  /** Insert x before the first class that does not start earlier. */
  function InsertByStart(x: Class, s: seq<Class>): (r: seq<Class>)
    ensures multiset(r) == multiset(s) + multiset{x}
    ensures |r| == |s| + 1
    ensures r[0] == x || (|s| > 0 && r[0] == s[0])
  {
    if |s| == 0 || x.startTime <= s[0].startTime then
      [x] + s
    else
      assert s == [s[0]] + s[1..];
      [s[0]] + InsertByStart(x, s[1..])
  }

  /** Inserting into a sorted list keeps it sorted. */
  lemma {:induction false} InsertByStartSorted(x: Class, s: seq<Class>)
    requires SortedByStart(s)
    ensures SortedByStart(InsertByStart(x, s))
  {
    if |s| > 0 && x.startTime > s[0].startTime {
      var tail := s[1..];
      assert SortedByStart(tail) by {
        forall i, j | 0 <= i < j < |tail| ensures tail[i].startTime <= tail[j].startTime {
          assert tail[i] == s[i + 1] && tail[j] == s[j + 1];
        }
      }
      var rest := InsertByStart(x, tail);
      InsertByStartSorted(x, tail);
      assert s[0].startTime <= rest[0].startTime by {
        if rest[0] != x {
          assert rest[0] == s[1];
        }
      }
      var r := [s[0]] + rest;
      assert r == InsertByStart(x, s);
      forall i, j | 0 <= i < j < |r| ensures r[i].startTime <= r[j].startTime {
        assert r[j] == rest[j - 1];
        if i == 0 {
          assert rest[0].startTime <= rest[j - 1].startTime;
        } else {
          assert r[i] == rest[i - 1];
        }
      }
    }
  }

  /** A sort by start time (C#'s `List.Sort` is unstable, so only order and contents are fixed). */
  method SortByStart(s: seq<Class>) returns (r: seq<Class>)
    ensures SortedByStart(r) && multiset(r) == multiset(s)
  {
    r := [];
    var i := 0;
    while i < |s|
      invariant 0 <= i <= |s|
      invariant SortedByStart(r) && multiset(r) == multiset(s[..i])
    {
      assert s[..i + 1] == s[..i] + [s[i]];
      InsertByStartSorted(s[i], r);
      r := InsertByStart(s[i], r);
      i := i + 1;
    }
    assert s[..i] == s;
  }

  /** A timetable column for `day`: that day's classes, sorted by start time. */
  predicate IsDayColumn(column: seq<Class>, classes: seq<Class>, day: Weekday)
  {
    SortedByStart(column) && multiset(column) == multiset(ClassesOn(classes, day))
  }

  /** The weekdays the timetable panel shows, in column order. */
  const DisplayDays: seq<Weekday> := [Monday, Tuesday, Wednesday, Thursday, Friday]

  /** The distinct class names of the timetable. */
  function ClassNames(classes: seq<Class>): set<string>
  {
    set i | 0 <= i < |classes| :: classes[i].className
  }

  /** Jumping the clock forward by `end - hours` hours lands exactly on `end`. */
  lemma JumpLandsOnEnd(time: real, end: real)
    requires end - HoursOf(time) > 0.0
    ensures HoursOf(time + (end - HoursOf(time)) * 3600.0) == end
  {
  }

  /** The grouping step of the timetable panel: classes per weekday, days without classes absent. */
  method GroupByDay(weeklyClasses: seq<Class>) returns (classByDay: map<Weekday, seq<Class>>)
    ensures forall d :: d in classByDay <==> ClassesOn(weeklyClasses, d) != []
    ensures forall d :: d in classByDay ==> classByDay[d] == ClassesOn(weeklyClasses, d)
  {
    classByDay := map[];
    var i := 0;
    while i < |weeklyClasses|
      invariant 0 <= i <= |weeklyClasses|
      invariant forall d :: d in classByDay <==> ClassesOn(weeklyClasses[..i], d) != []
      invariant forall d :: d in classByDay ==> classByDay[d] == ClassesOn(weeklyClasses[..i], d)
    {
      var classItem := weeklyClasses[i];
      assert weeklyClasses[..i + 1][..i] == weeklyClasses[..i];
      ghost var before := classByDay;
      if classItem.dayOfWeek !in classByDay {
        classByDay := classByDay[classItem.dayOfWeek := []];
      }
      classByDay := classByDay[classItem.dayOfWeek := classByDay[classItem.dayOfWeek] + [classItem]];
      forall d
        ensures d in classByDay <==> ClassesOn(weeklyClasses[..i + 1], d) != []
        ensures d in classByDay ==> classByDay[d] == ClassesOn(weeklyClasses[..i + 1], d)
      {
        assert ClassesOn(weeklyClasses[..i + 1], d) ==
               ClassesOn(weeklyClasses[..i], d) + (if classItem.dayOfWeek == d then [classItem] else []);
        if d != classItem.dayOfWeek {
          assert (d in classByDay <==> d in before) && (d in before ==> classByDay[d] == before[d]);
        }
      }
      i := i + 1;
    }
    assert weeklyClasses[..i] == weeklyClasses;
  }

  class TimetableManager {
    var weeklyClasses: seq<Class>
    const attendanceData: AttendanceData
    var updateInterval: real

    constructor (data: AttendanceData)
      ensures weeklyClasses == [] && attendanceData == data && updateInterval == 1.0
    {
      weeklyClasses := [];
      attendanceData := data;
      updateInterval := 1.0;
    }

    /** `SetUpdateInterval`: at least one second. */
    method SetUpdateInterval(interval: real)
      modifies this`updateInterval
      ensures updateInterval == MaxReal(1.0, interval)
      ensures updateInterval >= 1.0 && (interval >= 1.0 ==> updateInterval == interval)
    {
      updateInterval := MaxReal(1.0, interval);
    }

    /** `RecordAttendance`: one record stamped with the clock's weekday, day number and hour. */
    method RecordAttendance(clock: DayTime?, className: string, attended: bool)
      modifies attendanceData
      ensures clock == null ==> attendanceData.records == old(attendanceData.records)
      ensures clock != null ==>
        attendanceData.records == old(attendanceData.records) +
          [AttendanceRecord(className, clock.dayOfWeek, clock.days, clock.Hours(), attended)]
    {
      if clock == null {
        return;
      }
      var record := AttendanceRecord(className, clock.dayOfWeek, clock.days, clock.Hours(), attended);
      attendanceData.AddRecord(record);
    }

    method GetCurrentClass(clock: DayTime?) returns (current: Option<Class>)
      ensures clock == null ==> current == None
      ensures clock != null ==> current == FirstActive(weeklyClasses, clock.dayOfWeek, clock.Hours())
    {
      if clock == null {
        return None;
      }
      var currentDay := clock.dayOfWeek;
      var currentTime := clock.Hours();
      var i := 0;
      while i < |weeklyClasses|
        invariant 0 <= i <= |weeklyClasses|
        invariant FirstActive(weeklyClasses, currentDay, currentTime) ==
                  FirstActive(weeklyClasses[i..], currentDay, currentTime)
      {
        if IsActiveNow(weeklyClasses[i], currentDay, currentTime) {
          return Some(weeklyClasses[i]);
        }
        assert weeklyClasses[i..][1..] == weeklyClasses[i + 1..];
        i := i + 1;
      }
      return None;
    }

    /** `GetTodaysClasses`: exactly today's classes, ordered by start time. */
    method GetTodaysClasses(clock: DayTime?) returns (todaysClasses: seq<Class>)
      ensures clock == null ==> todaysClasses == []
      ensures clock != null ==>
        SortedByStart(todaysClasses) &&
        multiset(todaysClasses) == multiset(ClassesOn(weeklyClasses, clock.dayOfWeek))
    {
      if clock == null {
        return [];
      }
      var currentDay := clock.dayOfWeek;
      var found: seq<Class> := [];
      var i := 0;
      while i < |weeklyClasses|
        invariant 0 <= i <= |weeklyClasses|
        invariant found == ClassesOn(weeklyClasses[..i], currentDay)
      {
        assert weeklyClasses[..i + 1][..i] == weeklyClasses[..i];
        if IsToday(weeklyClasses[i], currentDay) {
          found := found + [weeklyClasses[i]];
        }
        i := i + 1;
      }
      assert weeklyClasses[..i] == weeklyClasses;
      todaysClasses := SortByStart(found);
    }

    method AddClass(newClass: Class)
      modifies this`weeklyClasses
      ensures weeklyClasses == old(weeklyClasses) + [newClass]
    {
      weeklyClasses := weeklyClasses + [newClass];
    }

    method RemoveClass(classToRemove: Class)
      modifies this`weeklyClasses
      ensures weeklyClasses == RemoveFirst(old(weeklyClasses), classToRemove)
    {
      weeklyClasses := RemoveFirst(weeklyClasses, classToRemove);
    }

    method GetCurrentAttendableClass(currentDay: Weekday, currentTime: real) returns (attendable: Option<Class>)
      ensures attendable == FirstAttendable(weeklyClasses, currentDay, currentTime)
    {
      var i := 0;
      while i < |weeklyClasses|
        invariant 0 <= i <= |weeklyClasses|
        invariant FirstAttendable(weeklyClasses, currentDay, currentTime) ==
                  FirstAttendable(weeklyClasses[i..], currentDay, currentTime)
      {
        var classItem := weeklyClasses[i];
        if classItem.dayOfWeek == currentDay {
          var attendanceEndTime := classItem.startTime + (classItem.endTime - classItem.startTime) * 0.5;
          var isInTimeRange := currentTime >= classItem.startTime && currentTime <= attendanceEndTime;
          if isInTimeRange {
            return Some(classItem);
          }
        }
        assert weeklyClasses[i..][1..] == weeklyClasses[i + 1..];
        i := i + 1;
      }
      return None;
    }

    /**
     * The slot layout of `UpdateTimetableDisplay`: one column per weekday Monday..Friday,
     * holding that day's classes sorted by start time; weekend classes are not shown.
     */
    method TimetableColumns() returns (columns: seq<seq<Class>>)
      ensures |columns| == |DisplayDays|
      ensures forall k :: 0 <= k < |columns| ==> IsDayColumn(columns[k], weeklyClasses, DisplayDays[k])
    {
      var classByDay := GroupByDay(weeklyClasses);
      columns := [];
      var k := 0;
      while k < |DisplayDays|
        invariant 0 <= k <= |DisplayDays| && |columns| == k
        invariant forall m :: 0 <= m < k ==> IsDayColumn(columns[m], weeklyClasses, DisplayDays[m])
      {
        var day := DisplayDays[k];
        var column: seq<Class> := [];
        if day in classByDay {
          assert classByDay[day] == ClassesOn(weeklyClasses, day);
          column := SortByStart(classByDay[day]);
        } else {
          assert ClassesOn(weeklyClasses, day) == [];
        }
        assert IsDayColumn(column, weeklyClasses, day);
        ghost var before := columns;
        columns := columns + [column];
        forall m | 0 <= m < k + 1 ensures IsDayColumn(columns[m], weeklyClasses, DisplayDays[m]) {
          if m < k {
            assert columns[m] == before[m];
          } else {
            assert columns[m] == column && DisplayDays[m] == day;
          }
        }
        k := k + 1;
      }
    }

    /** The slots of `UpdateAttendanceDisplay`: one per distinct class name, in hash-set order. */
    method AttendanceSlotNames() returns (names: seq<string>)
      ensures forall i, j :: 0 <= i < j < |names| ==> names[i] != names[j]
      ensures forall n :: n in names <==> n in ClassNames(weeklyClasses)
    {
      var uniqueClasses: set<string> := {};
      var i := 0;
      while i < |weeklyClasses|
        invariant 0 <= i <= |weeklyClasses|
        invariant uniqueClasses == ClassNames(weeklyClasses[..i])
      {
        assert weeklyClasses[..i + 1][..i] == weeklyClasses[..i];
        assert ClassNames(weeklyClasses[..i + 1]) == ClassNames(weeklyClasses[..i]) + {weeklyClasses[i].className};
        uniqueClasses := uniqueClasses + {weeklyClasses[i].className};
        i := i + 1;
      }
      assert weeklyClasses[..i] == weeklyClasses;
      names := [];
      var rest := uniqueClasses;
      while rest != {}
        invariant rest <= uniqueClasses
        invariant forall n :: n in names <==> n in uniqueClasses && n !in rest
        invariant forall a, b :: 0 <= a < b < |names| ==> names[a] != names[b]
        decreases rest
      {
        var className :| className in rest;
        names := names + [className];
        rest := rest - {className};
      }
    }
  }
}
