// Automatic attendance: absent-on-start marking, manual marking to present,
// and the cleanup of the per-occurrence bookkeeping (AutomaticAttendanceTracker.cs).
module AttendanceTracking {
  import opened Common
  import opened ClassInfo
  import opened Attendance
  import opened Timetable
  import opened Clock

  /** `GetClassKey`: "{className}_{dayOfWeek}_{dayNumber}". */
  function GetClassKey(c: Class, dayNumber: int): string
  {
    c.className + "_" + WeekdayName(c.dayOfWeek) + "_" + IntToString(dayNumber)
  }

  // ---------------------------------------------------------------------
  // Reading the day number back out of a key
  // ---------------------------------------------------------------------

  /** The day number `CleanupOldEntries` reads from a key as written: the third '_' field. */
  function KeyDayAsWritten(key: string): Option<int>
  {
    var parts := Split(key, '_');
    if |parts| >= 3 then ParseInt(parts[2]) else None
  }

  predicate IsStaleKeyAsWritten(key: string, currentDayNumber: int)
  {
    var d := KeyDayAsWritten(key);
    d.Some? && d.value < currentDayNumber
  }

  /** The day number a key was made for: its last '_' field (the class name may contain '_'). */
  function KeyDay(key: string): Option<int>
  {
    var parts := Split(key, '_');
    if |parts| >= 3 then ParseInt(parts[|parts| - 1]) else None
  }

  /** A tracked key left over from an earlier day. */
  predicate IsStaleKey(key: string, currentDayNumber: int)
  {
    var d := KeyDay(key);
    d.Some? && d.value < currentDayNumber
  }

  /** Every key made by `GetClassKey` reads back its own day number, whatever the class name. */
  lemma KeyDayOfClassKey(c: Class, dayNumber: int)
    ensures KeyDay(GetClassKey(c, dayNumber)) == Some(dayNumber)
  {
    var name, day, num := c.className, WeekdayName(c.dayOfWeek), IntToString(dayNumber);
    IntToStringNoSeparator(dayNumber, '_');
    SplitNoSeparator(num, '_');
    SplitNoSeparator(day, '_');
    var key := GetClassKey(c, dayNumber);
    assert key == name + ['_'] + (day + ['_'] + num);
    SplitConcat(day, '_', num);
    SplitConcat(name, '_', day + ['_'] + num);
    var parts := Split(key, '_');
    assert parts == Split(name, '_') + [day, num];
    assert parts[|parts| - 1] == num;
    ParseIntToString(dayNumber);
  }

  /** Today's keys are never stale, so cleanup keeps them. */
  lemma ClassKeyNotStaleToday(c: Class, dayNumber: int, currentDayNumber: int)
    requires dayNumber >= currentDayNumber
    ensures !IsStaleKey(GetClassKey(c, dayNumber), currentDayNumber)
  {
    KeyDayOfClassKey(c, dayNumber);
  }

  /** For a class name without '_' the code as written reads the same day number. */
  lemma AsWrittenAgreesWithoutUnderscore(c: Class, dayNumber: int)
    requires '_' !in c.className
    ensures KeyDayAsWritten(GetClassKey(c, dayNumber)) == Some(dayNumber)
  {
    var name, day, num := c.className, WeekdayName(c.dayOfWeek), IntToString(dayNumber);
    IntToStringNoSeparator(dayNumber, '_');
    SplitNoSeparator(num, '_');
    SplitAfterField(day, '_', num);
    var key := GetClassKey(c, dayNumber);
    assert key == name + ['_'] + (day + ['_'] + num);
    SplitAfterField(name, '_', day + ['_'] + num);
    ParseIntToString(dayNumber);
  }

  /** The class name "Lab_Part_1" makes the code as written treat today's day-5 key as stale. */
  lemma AsWrittenDropsTodaysKey()
    ensures IsStaleKeyAsWritten(GetClassKey(NewClass("Lab_Part_1", Monday, 9.0, 11.0), 5), 5)
  {
    var c := NewClass("Lab_Part_1", Monday, 9.0, 11.0);
    var one, five := IntToString(1), IntToString(5);
    assert one == "1" && five == "5";
    var key := GetClassKey(c, 5);
    assert key == "Lab" + ['_'] + ("Part" + ['_'] + (one + ['_'] + ("Monday" + ['_'] + five)));
    SplitThirdField("Lab", "Part", one, "Monday" + ['_'] + five);
    ParseIntToString(1);
  }

  lemma SplitThirdField(a: string, b: string, x: string, rest: string)
    requires '_' !in a && '_' !in b && '_' !in x
    ensures |Split(a + ['_'] + (b + ['_'] + (x + ['_'] + rest)), '_')| >= 3
    ensures Split(a + ['_'] + (b + ['_'] + (x + ['_'] + rest)), '_')[2] == x
  {
    SplitAfterField(x, '_', rest);
    SplitAfterField(b, '_', x + ['_'] + rest);
    SplitAfterField(a, '_', b + ['_'] + (x + ['_'] + rest));
  }

  // ---------------------------------------------------------------------
  // The tracker's state and its transitions
  // ---------------------------------------------------------------------

  /** The tracker's two dictionaries plus the attendance records it writes to. */
  datatype TrackState = TrackState(checked: map<string, bool>, startTimes: map<string, real>,
                                   records: seq<AttendanceRecord>)

  /** One class of the automatic sweep at (day, t, dayNumber): mark it absent once when it starts. */
  function SweepStep(s: TrackState, c: Class, day: Weekday, t: real, dayNumber: int): TrackState
  {
    var key := GetClassKey(c, dayNumber);
    if c.dayOfWeek == day && t >= c.startTime && key !in s.checked then
      TrackState(s.checked[key := true], s.startTimes[key := t],
                 s.records + [AttendanceRecord(c.className, day, dayNumber, t, false)])
    else s
  }

  /** The loop of `CheckAndUpdateAttendance` over the weekly classes. */
  function Sweep(s: TrackState, classes: seq<Class>, day: Weekday, t: real, dayNumber: int): TrackState
  {
    if |classes| == 0 then s
    else SweepStep(Sweep(s, classes[..|classes| - 1], day, t, dayNumber), classes[|classes| - 1], day, t, dayNumber)
  }

  /** `CleanupOldEntries`: forget stale keys in both dictionaries. */
  function Cleanup(s: TrackState, currentDayNumber: int): TrackState
  {
    TrackState(
      map k | k in s.checked && !IsStaleKey(k, currentDayNumber) :: s.checked[k],
      map k | k in s.startTimes && !(k in s.checked && IsStaleKey(k, currentDayNumber)) :: s.startTimes[k],
      s.records)
  }

  /** Removing one more key after a set of keys is removing both at once. */
  lemma RemoveOneMore<V>(m: map<string, V>, removed: set<string>, key: string)
    ensures (m - removed) - {key} == m - (removed + {key})
  {
  }

  /** Removing the stale keys of the checked map from both maps leaves what `Cleanup` keeps. */
  lemma StaleKeysRemoved(checked: map<string, bool>, starts: map<string, real>, stale: set<string>, currentDayNumber: int)
    requires forall k :: k in stale <==> k in checked.Keys && IsStaleKey(k, currentDayNumber)
    ensures checked - stale == map k | k in checked && !IsStaleKey(k, currentDayNumber) :: checked[k]
    ensures starts - stale == map k | k in starts && !(k in checked && IsStaleKey(k, currentDayNumber)) :: starts[k]
  {
  }

  /** `CleanupOldEntries` as written, reading the third field of each key. */
  function CleanupAsWritten(s: TrackState, currentDayNumber: int): TrackState
  {
    TrackState(
      map k | k in s.checked && !IsStaleKeyAsWritten(k, currentDayNumber) :: s.checked[k],
      map k | k in s.startTimes && !(k in s.checked && IsStaleKeyAsWritten(k, currentDayNumber)) :: s.startTimes[k],
      s.records)
  }

  /** `IsStudentPresent`: no presence detection exists, so the automatic check never marks present. */
  predicate IsStudentPresent(c: Class) { false }

  predicate SameOccurrence(r: AttendanceRecord, c: Class, dayNumber: int)
  {
    r.className == c.className && r.dayNumber == dayNumber && r.dayOfWeek == c.dayOfWeek
  }

  /** `HasAttendedClass`: an attended record of this class for this day exists. */
  predicate HasAttended(records: seq<AttendanceRecord>, c: Class, dayNumber: int)
  {
    exists i :: 0 <= i < |records| && SameOccurrence(records[i], c, dayNumber) && records[i].attended
  }

  /** The most recent absent record of this class occurrence. */
  function LastAbsent(records: seq<AttendanceRecord>, c: Class, dayNumber: int): (r: Option<nat>)
    ensures r.Some? ==> r.value < |records| && SameOccurrence(records[r.value], c, dayNumber) &&
                        !records[r.value].attended &&
                        forall j :: r.value < j < |records| ==> !(SameOccurrence(records[j], c, dayNumber) && !records[j].attended)
    ensures r.None? ==> forall j :: 0 <= j < |records| ==> !(SameOccurrence(records[j], c, dayNumber) && !records[j].attended)
  {
    if |records| == 0 then None
    else
      var last := records[|records| - 1];
      if SameOccurrence(last, c, dayNumber) && !last.attended then Some(|records| - 1)
      else LastAbsent(records[..|records| - 1], c, dayNumber)
  }

  /** `UpdateAttendanceToPresent`: flip the most recent absent record, stamping the hour. */
  function ToPresent(records: seq<AttendanceRecord>, c: Class, dayNumber: int, hours: real): (r: seq<AttendanceRecord>)
    ensures |r| == |records|
    ensures LastAbsent(records, c, dayNumber).None? ==> r == records
    ensures LastAbsent(records, c, dayNumber).Some? ==>
      var i := LastAbsent(records, c, dayNumber).value;
      r[i] == records[i].(attended := true, attendanceTime := hours) &&
      (forall j :: 0 <= j < |records| && j != i ==> r[j] == records[j]) &&
      HasAttended(r, c, dayNumber)
  {
    match LastAbsent(records, c, dayNumber)
    case None => records
    case Some(i) => records[i := records[i].(attended := true, attendanceTime := hours)]
  }

  /** `CanAttendClass` for the first class of that name today. */
  function CanAttend(s: TrackState, classes: seq<Class>, className: string, day: Weekday, t: real, dayNumber: int): bool
  {
    match FirstClassFor(classes, className, day)
    case None => false
    case Some(c) => InAttendanceWindow(c, t) && !HasAttended(s.records, c, dayNumber)
  }

  /** `MarkAttendanceManually` on the first class of that name today. */
  function ManualMark(s: TrackState, classes: seq<Class>, className: string, day: Weekday, t: real, dayNumber: int): TrackState
  {
    match FirstClassFor(classes, className, day)
    case None => s
    case Some(c) =>
      if !InAttendanceWindow(c, t) || HasAttended(s.records, c, dayNumber) then s
      else
        var key := GetClassKey(c, dayNumber);
        var s1 := if key !in s.checked
                  then TrackState(s.checked[key := true], s.startTimes,
                                  s.records + [AttendanceRecord(c.className, day, dayNumber, t, false)])
                  else s;
        s1.(records := ToPresent(s1.records, c, dayNumber, t))
  }

  // ---------------------------------------------------------------------
  // Properties
  // ---------------------------------------------------------------------

  /** The sweep only appends records, and every appended record is absent. */
  lemma {:induction false} SweepAppendsAbsent(s: TrackState, classes: seq<Class>, day: Weekday, t: real, dayNumber: int)
    ensures var r := Sweep(s, classes, day, t, dayNumber).records;
      |s.records| <= |r| && r[..|s.records|] == s.records &&
      forall j :: |s.records| <= j < |r| ==> !r[j].attended
  {
    if |classes| > 0 {
      SweepAppendsAbsent(s, classes[..|classes| - 1], day, t, dayNumber);
    }
  }

  /** The sweep never forgets a key. */
  lemma {:induction false} SweepKeepsKeys(s: TrackState, classes: seq<Class>, day: Weekday, t: real, dayNumber: int)
    ensures s.checked.Keys <= Sweep(s, classes, day, t, dayNumber).checked.Keys
  {
    if |classes| > 0 {
      SweepKeepsKeys(s, classes[..|classes| - 1], day, t, dayNumber);
    }
  }

  /** After a sweep every class of the list that has started today is tracked. */
  lemma {:induction false} SweepTracksStarted(s: TrackState, classes: seq<Class>, day: Weekday, t: real, dayNumber: int)
    ensures forall i :: 0 <= i < |classes| && classes[i].dayOfWeek == day && t >= classes[i].startTime ==>
      GetClassKey(classes[i], dayNumber) in Sweep(s, classes, day, t, dayNumber).checked
  {
    if |classes| > 0 {
      var init := classes[..|classes| - 1];
      SweepTracksStarted(s, init, day, t, dayNumber);
      var mid := Sweep(s, init, day, t, dayNumber);
      assert mid.checked.Keys <= SweepStep(mid, classes[|classes| - 1], day, t, dayNumber).checked.Keys;
      forall i | 0 <= i < |classes| - 1 ensures classes[i] == init[i] { }
    }
  }

  /** A sweep in which every started class is already tracked changes nothing. */
  lemma {:induction false} SweepOfTrackedIsNoop(s: TrackState, classes: seq<Class>, day: Weekday, t: real, dayNumber: int)
    requires forall i :: 0 <= i < |classes| && classes[i].dayOfWeek == day && t >= classes[i].startTime ==>
      GetClassKey(classes[i], dayNumber) in s.checked
    ensures Sweep(s, classes, day, t, dayNumber) == s
  {
    if |classes| > 0 {
      var init := classes[..|classes| - 1];
      forall i | 0 <= i < |init| ensures init[i] == classes[i] { }
      SweepOfTrackedIsNoop(s, init, day, t, dayNumber);
    }
  }

  /** Cleanup on the current day keeps every key made for that day. */
  lemma CleanupKeepsToday(s: TrackState, c: Class, dayNumber: int)
    requires GetClassKey(c, dayNumber) in s.checked
    ensures GetClassKey(c, dayNumber) in Cleanup(s, dayNumber).checked
  {
    ClassKeyNotStaleToday(c, dayNumber, dayNumber);
  }

  /**
   * Absent is recorded at most once per class occurrence: a second automatic check
   * later on the same day adds no record for the classes already started at the first.
   */
  lemma CheckTwiceRecordsOnce(s: TrackState, classes: seq<Class>, day: Weekday, t: real, dayNumber: int)
    ensures var s1 := Cleanup(Sweep(s, classes, day, t, dayNumber), dayNumber);
      Cleanup(Sweep(s1, classes, day, t, dayNumber), dayNumber).records == s1.records
  {
    var swept := Sweep(s, classes, day, t, dayNumber);
    var s1 := Cleanup(swept, dayNumber);
    SweepTracksStarted(s, classes, day, t, dayNumber);
    forall i | 0 <= i < |classes| && classes[i].dayOfWeek == day && t >= classes[i].startTime
      ensures GetClassKey(classes[i], dayNumber) in s1.checked
    {
      CleanupKeepsToday(swept, classes[i], dayNumber);
    }
    SweepOfTrackedIsNoop(s1, classes, day, t, dayNumber);
  }

  /** One check as written of a single class whose key reads as stale: a new absent record, key forgotten. */
  lemma AsWrittenCheckForgets(s: TrackState, c: Class, t: real, dayNumber: int)
    requires t >= c.startTime
    requires IsStaleKeyAsWritten(GetClassKey(c, dayNumber), dayNumber)
    requires GetClassKey(c, dayNumber) !in s.checked
    ensures var s1 := CleanupAsWritten(Sweep(s, [c], c.dayOfWeek, t, dayNumber), dayNumber);
      GetClassKey(c, dayNumber) !in s1.checked && |s1.records| == |s.records| + 1
  {
    assert [c][..0] == [];
  }

  /**
   * With the cleanup as written, a class named "Lab_Part_1" is recorded absent again on
   * every check of its day: two checks at the same hour leave two absent records.
   */
  lemma AsWrittenRecordsAbsentTwice()
    ensures var c := NewClass("Lab_Part_1", Monday, 9.0, 11.0);
      var s0 := TrackState(map[], map[], []);
      var s1 := CleanupAsWritten(Sweep(s0, [c], Monday, 9.5, 5), 5);
      var s2 := CleanupAsWritten(Sweep(s1, [c], Monday, 9.5, 5), 5);
      |s2.records| == 2
  {
    var c := NewClass("Lab_Part_1", Monday, 9.0, 11.0);
    AsWrittenDropsTodaysKey();
    var s0 := TrackState(map[], map[], []);
    AsWrittenCheckForgets(s0, c, 9.5, 5);
    var s1 := CleanupAsWritten(Sweep(s0, [c], Monday, 9.5, 5), 5);
    AsWrittenCheckForgets(s1, c, 9.5, 5);
  }

  /** Some record, attended or not, exists for this class occurrence. */
  predicate OccurrenceRecorded(records: seq<AttendanceRecord>, c: Class, dayNumber: int)
  {
    exists i :: 0 <= i < |records| && SameOccurrence(records[i], c, dayNumber)
  }

  /**
   * Inside the window of an unattended class, marking leaves it attended, provided the
   * occurrence is either untracked or still has its record (the records can be cleared
   * independently of the tracker).
   */
  lemma ManualMarkAttends(s: TrackState, classes: seq<Class>, className: string, day: Weekday, t: real, dayNumber: int)
    requires CanAttend(s, classes, className, day, t, dayNumber)
    requires var c := FirstClassFor(classes, className, day).value;
      GetClassKey(c, dayNumber) in s.checked ==> OccurrenceRecorded(s.records, c, dayNumber)
    ensures var c := FirstClassFor(classes, className, day).value;
      HasAttended(ManualMark(s, classes, className, day, t, dayNumber).records, c, dayNumber)
  {
    var c := FirstClassFor(classes, className, day).value;
    var key := GetClassKey(c, dayNumber);
    if key !in s.checked {
      var recs := s.records + [AttendanceRecord(c.className, day, dayNumber, t, false)];
      assert SameOccurrence(recs[|recs| - 1], c, dayNumber);
      assert LastAbsent(recs, c, dayNumber).Some?;
    } else {
      var i :| 0 <= i < |s.records| && SameOccurrence(s.records[i], c, dayNumber);
      assert !s.records[i].attended;
      assert LastAbsent(s.records, c, dayNumber).Some?;
    }
  }

  /** A tracked occurrence whose records were cleared cannot be marked any more. */
  lemma ManualMarkWithoutRecord(s: TrackState, classes: seq<Class>, className: string, day: Weekday, t: real, dayNumber: int)
    requires FirstClassFor(classes, className, day).Some?
    requires var c := FirstClassFor(classes, className, day).value;
      GetClassKey(c, dayNumber) in s.checked && !OccurrenceRecorded(s.records, c, dayNumber)
    ensures ManualMark(s, classes, className, day, t, dayNumber) == s
  {
  }

  /** Already-attended or out-of-window classes are left alone. */
  lemma ManualMarkNoop(s: TrackState, classes: seq<Class>, className: string, day: Weekday, t: real, dayNumber: int)
    requires !CanAttend(s, classes, className, day, t, dayNumber)
    ensures ManualMark(s, classes, className, day, t, dayNumber) == s
  {
  }

  // ---------------------------------------------------------------------
  // The tracker object
  // ---------------------------------------------------------------------

  class AutomaticAttendanceTracker {
    var classAttendanceChecked: map<string, bool>
    var classStartTimes: map<string, real>
    var attendanceWindowMinutes: real

    /** The tracker's dictionaries together with the records it writes to. */
    function State(data: AttendanceData): TrackState
      reads this, data
    {
      TrackState(classAttendanceChecked, classStartTimes, data.records)
    }

    constructor ()
      ensures classAttendanceChecked == map[] && classStartTimes == map[]
      ensures attendanceWindowMinutes == 15.0
    {
      classAttendanceChecked := map[];
      classStartTimes := map[];
      attendanceWindowMinutes := 15.0;
    }

    method SetAttendanceWindow(minutes: real)
      modifies this`attendanceWindowMinutes
      ensures attendanceWindowMinutes == minutes
    {
      attendanceWindowMinutes := minutes;
    }

    /** `HasAttendedClass`: scans the class's records for an attended one of this occurrence. */
    method HasAttendedClass(manager: TimetableManager, c: Class, dayNumber: int) returns (attended: bool)
      ensures attended == HasAttended(manager.attendanceData.records, c, dayNumber)
    {
      var all := manager.attendanceData.records;
      var records := manager.attendanceData.GetRecordsForClass(c.className);
      var i := 0;
      while i < |records|
        invariant 0 <= i <= |records|
        invariant forall j :: 0 <= j < i ==>
          !(records[j].dayNumber == dayNumber && records[j].dayOfWeek == c.dayOfWeek && records[j].attended)
      {
        var record := records[i];
        if record.dayNumber == dayNumber && record.dayOfWeek == c.dayOfWeek && record.attended {
          RecordsForMembers(all, c.className, record);
          var k :| 0 <= k < |all| && all[k] == record;
          return true;
        }
        i := i + 1;
      }
      if HasAttended(all, c, dayNumber) {
        var k :| 0 <= k < |all| && SameOccurrence(all[k], c, dayNumber) && all[k].attended;
        RecordsForMembers(all, c.className, all[k]);
        assert false;
      }
      return false;
    }

    /** `UpdateAttendanceToPresent`: a backward search for the latest absent record of the occurrence. */
    method UpdateAttendanceToPresent(manager: TimetableManager, clock: DayTime, c: Class, dayNumber: int)
      modifies manager.attendanceData
      ensures manager.attendanceData.records ==
              ToPresent(old(manager.attendanceData.records), c, dayNumber, clock.Hours())
    {
      var records := manager.attendanceData.records;
      var i := |records| - 1;
      while i >= 0
        invariant -1 <= i < |records|
        invariant LastAbsent(records, c, dayNumber) == LastAbsent(records[..i + 1], c, dayNumber)
      {
        var record := records[i];
        if record.className == c.className && record.dayNumber == dayNumber &&
           record.dayOfWeek == c.dayOfWeek && !record.attended {
          manager.attendanceData.records := records[i := record.(attended := true, attendanceTime := clock.Hours())];
          return;
        }
        assert records[..i + 1][..i] == records[..i];
        i := i - 1;
      }
    }

    /** `CleanupOldEntries`: collect the stale keys, then remove them from both dictionaries. */
    method CleanupOldEntries(currentDayNumber: int)
      modifies this`classAttendanceChecked, this`classStartTimes
      ensures classAttendanceChecked ==
              map k | k in old(classAttendanceChecked) && !IsStaleKey(k, currentDayNumber) :: old(classAttendanceChecked)[k]
      ensures classStartTimes ==
              map k | k in old(classStartTimes) && !(k in old(classAttendanceChecked) && IsStaleKey(k, currentDayNumber))
                :: old(classStartTimes)[k]
    {
      var keysToRemove: set<string> := {};
      var unvisited := classAttendanceChecked.Keys;
      while unvisited != {}
        invariant unvisited <= classAttendanceChecked.Keys
        invariant forall k :: k in keysToRemove <==>
          (k in classAttendanceChecked.Keys - unvisited && IsStaleKey(k, currentDayNumber))
        decreases unvisited
      {
        var key :| key in unvisited;
        if IsStaleKey(key, currentDayNumber) {
          keysToRemove := keysToRemove + {key};
        }
        unvisited := unvisited - {key};
      }
      var checked0, starts0 := classAttendanceChecked, classStartTimes;
      var pending := keysToRemove;
      while pending != {}
        invariant pending <= keysToRemove
        invariant classAttendanceChecked == checked0 - (keysToRemove - pending)
        invariant classStartTimes == starts0 - (keysToRemove - pending)
        decreases pending
      {
        var key :| key in pending;
        assert keysToRemove - (pending - {key}) == (keysToRemove - pending) + {key};
        RemoveOneMore(checked0, keysToRemove - pending, key);
        RemoveOneMore(starts0, keysToRemove - pending, key);
        classAttendanceChecked := classAttendanceChecked - {key};
        classStartTimes := classStartTimes - {key};
        pending := pending - {key};
      }
      assert keysToRemove - pending == keysToRemove;
      StaleKeysRemoved(checked0, starts0, keysToRemove, currentDayNumber);
    }

    /** The loop of `CheckAndUpdateAttendance` over the weekly classes, without the cleanup. */
    method CheckClasses(manager: TimetableManager, clock: DayTime)
      modifies this`classAttendanceChecked, this`classStartTimes, manager.attendanceData
      ensures State(manager.attendanceData) ==
              Sweep(old(State(manager.attendanceData)), manager.weeklyClasses, clock.dayOfWeek, clock.Hours(), clock.days)
    {
      var day, t, dayNumber := clock.dayOfWeek, clock.Hours(), clock.days;
      var classes := manager.weeklyClasses;
      var s0 := State(manager.attendanceData);
      var i := 0;
      while i < |classes|
        invariant 0 <= i <= |classes|
        invariant State(manager.attendanceData) == Sweep(s0, classes[..i], day, t, dayNumber)
        invariant manager.weeklyClasses == classes
      {
        assert classes[..i + 1][..i] == classes[..i];
        CheckClass(manager, clock, classes[i]);
        i := i + 1;
      }
      assert classes[..i] == classes;
    }

    /** One pass of that loop: a class of today that has started is recorded once, as absent. */
    method CheckClass(manager: TimetableManager, clock: DayTime, c: Class)
      modifies this`classAttendanceChecked, this`classStartTimes, manager.attendanceData
      ensures State(manager.attendanceData) ==
              SweepStep(old(State(manager.attendanceData)), c, clock.dayOfWeek, clock.Hours(), clock.days)
    {
      var day, t, dayNumber := clock.dayOfWeek, clock.Hours(), clock.days;
      if c.dayOfWeek == day {
        var key := GetClassKey(c, dayNumber);
        if t >= c.startTime && key !in classAttendanceChecked {
          classAttendanceChecked := classAttendanceChecked[key := true];
          classStartTimes := classStartTimes[key := t];
          manager.RecordAttendance(clock, c.className, false);
        }
        if key in classAttendanceChecked && t >= c.startTime && t <= c.startTime + attendanceWindowMinutes / 60.0 {
          var attended := HasAttendedClass(manager, c, dayNumber);
          if !attended && IsStudentPresent(c) {
            assert false;
          }
        }
      }
    }

    /** `CheckAndUpdateAttendance`: the sweep, then the cleanup of earlier days' keys. */
    method CheckAndUpdateAttendance(manager: TimetableManager, clock: DayTime)
      modifies this`classAttendanceChecked, this`classStartTimes, manager.attendanceData
      ensures State(manager.attendanceData) ==
              Cleanup(Sweep(old(State(manager.attendanceData)), manager.weeklyClasses,
                            clock.dayOfWeek, clock.Hours(), clock.days), clock.days)
    {
      CheckClasses(manager, clock);
      CleanupOldEntries(clock.days);
    }

    /** `MarkAttendanceManually`: acts on the first class of that name today, if any. */
    method MarkAttendanceManually(manager: TimetableManager, clock: DayTime?, className: string)
      modifies this`classAttendanceChecked, manager.attendanceData
      ensures clock == null ==> State(manager.attendanceData) == old(State(manager.attendanceData))
      ensures clock != null ==>
              State(manager.attendanceData) == ManualMark(old(State(manager.attendanceData)), manager.weeklyClasses, className,
                                                           clock.dayOfWeek, clock.Hours(), clock.days)
    {
      if clock == null {
        return;
      }
      var day, t, dayNumber := clock.dayOfWeek, clock.Hours(), clock.days;
      var classes := manager.weeklyClasses;
      var i := 0;
      while i < |classes|
        invariant 0 <= i <= |classes|
        invariant FirstClassFor(classes, className, day) == FirstClassFor(classes[i..], className, day)
      {
        var c := classes[i];
        if c.className == className && c.dayOfWeek == day {
          var attendanceEndTime := c.startTime + (c.endTime - c.startTime) * 0.5;
          var withinWindow := t >= c.startTime && t <= attendanceEndTime;
          if withinWindow {
            var key := GetClassKey(c, dayNumber);
            var alreadyAttended := HasAttendedClass(manager, c, dayNumber);
            if alreadyAttended {
              return;
            }
            if key !in classAttendanceChecked {
              classAttendanceChecked := classAttendanceChecked[key := true];
              manager.RecordAttendance(clock, c.className, false);
            }
            UpdateAttendanceToPresent(manager, clock, c, dayNumber);
            return;
          } else {
            return;
          }
        }
        assert classes[i..][1..] == classes[i + 1..];
        i := i + 1;
      }
    }

    /** `CanAttendClass`: inside the first class's window and not yet attended. */
    method CanAttendClass(manager: TimetableManager, clock: DayTime?, className: string) returns (canAttend: bool)
      ensures clock == null ==> !canAttend
      ensures clock != null ==>
        canAttend == CanAttend(State(manager.attendanceData), manager.weeklyClasses, className,
                               clock.dayOfWeek, clock.Hours(), clock.days)
    {
      if clock == null {
        return false;
      }
      var day, t, dayNumber := clock.dayOfWeek, clock.Hours(), clock.days;
      var classes := manager.weeklyClasses;
      var i := 0;
      while i < |classes|
        invariant 0 <= i <= |classes|
        invariant FirstClassFor(classes, className, day) == FirstClassFor(classes[i..], className, day)
      {
        var c := classes[i];
        if c.className == className && c.dayOfWeek == day {
          var attendanceEndTime := c.startTime + (c.endTime - c.startTime) * 0.5;
          var withinWindow := t >= c.startTime && t <= attendanceEndTime;
          var alreadyAttended := HasAttendedClass(manager, c, dayNumber);
          return withinWindow && !alreadyAttended;
        }
        assert classes[i..][1..] == classes[i + 1..];
        i := i + 1;
      }
      return false;
    }
  }

  /**
   * `RecordAttendanceWithEffects` without the screen tint and the waits: pause the clock,
   * record attendance (through the tracker when there is one), jump to the class's end,
   * and restore the original time scale.
   */
  method RecordAttendanceWithEffects(manager: TimetableManager, tracker: AutomaticAttendanceTracker?,
                                     clock: DayTime, c: Class)
    modifies clock`timeScale, clock`time, manager.attendanceData
    modifies if tracker != null then {tracker} else {}
    ensures clock.timeScale == old(clock.timeScale)
    ensures var jump := c.endTime - old(clock.Hours());
      clock.time == if jump > 0.0 then old(clock.time) + jump * 3600.0 else old(clock.time)
    ensures c.endTime - old(clock.Hours()) > 0.0 ==> clock.Hours() == c.endTime
    ensures tracker == null ==>
      manager.attendanceData.records == old(manager.attendanceData.records) +
        [AttendanceRecord(c.className, clock.dayOfWeek, clock.days, old(clock.Hours()), true)]
    ensures tracker != null ==>
      tracker.State(manager.attendanceData) ==
        ManualMark(old(tracker.State(manager.attendanceData)), manager.weeklyClasses, c.className,
                   clock.dayOfWeek, old(clock.Hours()), clock.days)
    ensures tracker != null ==> tracker.classStartTimes == old(tracker.classStartTimes)
  {
    var originalTimeScale := clock.timeScale;
    clock.SetTimeScale(0.0);
    if tracker != null {
      var canAttend := tracker.CanAttendClass(manager, clock, c.className);
      if canAttend {
        tracker.MarkAttendanceManually(manager, clock, c.className);
      } else {
        // The check before marking changes nothing: marking is a no-op exactly when it fails.
        ManualMarkNoop(tracker.State(manager.attendanceData), manager.weeklyClasses, c.className,
                       clock.dayOfWeek, clock.Hours(), clock.days);
      }
    } else {
      manager.RecordAttendance(clock, c.className, true);
    }
    var timeToJump := c.endTime - clock.Hours();
    if timeToJump > 0.0 {
      JumpLandsOnEnd(clock.time, c.endTime);
      clock.SkipTime(hours := timeToJump);
    }
    clock.SetTimeScale(originalTimeScale);
  }
}
