// A tutor shown on one day of the term during a time window (TutorController.cs).
module Tutor {
  import opened Clock

  /** The schedule rule: the 1-based day is `targetDay` and the hour lies in [start, end). */
  predicate ScheduledAt(days: int, hours: real, targetDay: int, startTime: real, endTime: real)
  {
    days + 1 == targetDay && hours >= startTime && hours < endTime
  }

  /** With the default settings the tutor appears only on day 45 (`days == 44`), 08:00 up to 10:00. */
  lemma DefaultSchedule(days: int, hours: real)
    ensures ScheduledAt(days, hours, 45, 8.0, 10.0) <==> days == 44 && 8.0 <= hours < 10.0
  {
  }

  /** The end hour itself is outside the window. */
  lemma EndHourExcluded(days: int, targetDay: int, startTime: real, endTime: real)
    ensures !ScheduledAt(days, endTime, targetDay, startTime, endTime)
  {
  }

  /** What `CheckTutorSchedule` decides: the flag and the object's visibility. */
  datatype TutorState = TutorState(hasTutorObject: bool, tutorVisible: bool, tutorCurrentlyActive: bool)

  /** `CheckTutorSchedule`: switch only when the flag disagrees with the schedule, and only with an object. */
  function Checked(s: TutorState, shouldBeActive: bool): (r: TutorState)
    ensures r.hasTutorObject == s.hasTutorObject
    ensures s.hasTutorObject ==> r.tutorCurrentlyActive == shouldBeActive
    ensures !s.hasTutorObject ==> r == s
    ensures s.tutorCurrentlyActive == shouldBeActive ==> r == s
  {
    if shouldBeActive && !s.tutorCurrentlyActive then
      (if s.hasTutorObject then s.(tutorVisible := true, tutorCurrentlyActive := true) else s)
    else if !shouldBeActive && s.tutorCurrentlyActive then
      (if s.hasTutorObject then s.(tutorVisible := false, tutorCurrentlyActive := false) else s)
    else s
  }

  /** A second check at an unchanged time changes nothing. */
  lemma CheckIdempotent(s: TutorState, shouldBeActive: bool)
    ensures Checked(Checked(s, shouldBeActive), shouldBeActive) == Checked(s, shouldBeActive)
  {
  }

  class TutorController {
    var targetDay: int
    var startTime: real
    var endTime: real
    var timeController: DayTime?
    var hasTutorObject: bool
    var tutorVisible: bool
    var tutorCurrentlyActive: bool

    function State(): TutorState reads this
    {
      TutorState(hasTutorObject, tutorVisible, tutorCurrentlyActive)
    }

    constructor ()
      ensures targetDay == 45 && startTime == 8.0 && endTime == 10.0
      ensures timeController == null && !hasTutorObject && !tutorCurrentlyActive
    {
      targetDay := 45;
      startTime := 8.0;
      endTime := 10.0;
      timeController := null;
      hasTutorObject := false;
      tutorVisible := false;
      tutorCurrentlyActive := false;
    }

    /** `IsTutorScheduledActive`: false without a clock. */
    predicate IsTutorScheduledActive()
      reads this, timeController
    {
      timeController != null && ScheduledAt(timeController.days, timeController.Hours(), targetDay, startTime, endTime)
    }

    method ActivateTutor()
      modifies this`tutorVisible, this`tutorCurrentlyActive
      ensures hasTutorObject ==> tutorVisible && tutorCurrentlyActive
      ensures !hasTutorObject ==> State() == old(State())
    {
      if hasTutorObject {
        tutorVisible := true;
        tutorCurrentlyActive := true;
      }
    }

    method DeactivateTutor()
      modifies this`tutorVisible, this`tutorCurrentlyActive
      ensures hasTutorObject ==> !tutorVisible && !tutorCurrentlyActive
      ensures !hasTutorObject ==> State() == old(State())
    {
      if hasTutorObject {
        tutorVisible := false;
        tutorCurrentlyActive := false;
      }
    }

    method CheckTutorSchedule()
      modifies this`tutorVisible, this`tutorCurrentlyActive
      ensures State() == Checked(old(State()), IsTutorScheduledActive())
      ensures hasTutorObject ==> tutorCurrentlyActive == IsTutorScheduledActive()
    {
      var shouldBeActive := IsTutorScheduledActive();
      if shouldBeActive && !tutorCurrentlyActive {
        ActivateTutor();
      } else if !shouldBeActive && tutorCurrentlyActive {
        DeactivateTutor();
      }
    }

    /** `CheckAndSetInitialTutorState`: with a clock and an object, match the schedule outright. */
    method CheckAndSetInitialTutorState()
      modifies this`tutorVisible, this`tutorCurrentlyActive
      ensures timeController != null && hasTutorObject ==>
        tutorVisible == IsTutorScheduledActive() && tutorCurrentlyActive == IsTutorScheduledActive()
      ensures timeController == null || !hasTutorObject ==> State() == old(State())
    {
      if timeController == null || !hasTutorObject {
        return;
      }
      var shouldBeActive := IsTutorScheduledActive();
      tutorVisible := shouldBeActive;
      tutorCurrentlyActive := shouldBeActive;
    }
  }
}
