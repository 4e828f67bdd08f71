// The game clock (DayTime) and its subscribers (TimeAgent).
// Both classes live in one module because each refers to the other.
module Clock {
  import opened Common

  const SecondsInDay: real := 86400.0
  /** Length of one phase, the 15-minute unit in which agents are ticked. */
  const PhaseLength: real := 900.0
  const PhasesInDay: real := 96.0

  /** `CalculatePhase`: complete phases elapsed since day 0. */
  function PhaseOf(time: real, days: int): int
  {
    Trunc(time / PhaseLength) + Trunc(days as real * PhasesInDay)
  }

  /** `Hours`: the clock's seconds-of-day as fractional hours. */
  function HoursOf(time: real): real { time / 3600.0 }

  /** C#'s float remainder `x % 3600f`: the sign follows the dividend. */
  function HourRemainder(x: real): (r: real)
    ensures x >= 0.0 ==> 0.0 <= r < 3600.0
  {
    x - 3600.0 * Trunc(x / 3600.0) as real
  }

  /** `Minutes`: minutes into the current hour, with fraction. */
  function MinutesOf(time: real): real { HourRemainder(time) / 60.0 }

  /** `GetTimeString`: truncated hour and minute, each as two digits. */
  function TimeString(time: real): string
  {
    Pad2(Trunc(HoursOf(time))) + ":" + Pad2(Trunc(MinutesOf(time)))
  }

  /** The weekday following d, Saturday wrapping to Sunday (`NextDay`). */
  function NextWeekday(d: Weekday): Weekday
  {
    var n := WeekdayIndex(d) + 1;
    WeekdayFromIndex(if n >= 7 then 0 else n)
  }

  /** The call trace of `n` catch-up phases: every agent, in list order, n times. */
  function Repeat<T>(agents: seq<T>, n: nat): (trace: seq<T>)
  {
    if n == 0 then [] else Repeat(agents, n - 1) + agents
  }

  /** The handlers of some agents, agent by agent, each agent's in the order they were attached. */
  function HandlersOf(agents: seq<TimeAgent>): seq<nat> reads agents
  {
    if |agents| == 0 then [] else HandlersOf(agents[..|agents| - 1]) + agents[|agents| - 1].onTimeTick
  }

  /** One more agent adds its handlers at the end. */
  lemma HandlersStep(agents: seq<TimeAgent>, i: int)
    requires 0 <= i < |agents|
    ensures HandlersOf(agents[..i + 1]) == HandlersOf(agents[..i]) + agents[i].onTimeTick
  {
    assert agents[..i + 1][..i] == agents[..i];
  }

  /** How many phases `TimeAgents` replays, given the remembered phase and the current one. */
  function PendingPhases(oldPhase: int, current: int): nat
  {
    if oldPhase == -1 || current <= oldPhase then 0 else current - oldPhase
  }

  /** The phase `TimeAgents` remembers afterwards. */
  function NextOldPhase(oldPhase: int, current: int): int
  {
    if oldPhase == -1 then current else if current > oldPhase then current else oldPhase
  }

  // ---------------------------------------------------------------------
  // Properties of the clock arithmetic
  // ---------------------------------------------------------------------

  lemma DayPhases(days: int)
    ensures Trunc(days as real * PhasesInDay) == days * 96
  {
  }

  lemma FloorShift(x: real, k: int)
    ensures (x - k as real).Floor == x.Floor - k
  {
  }

  /** A day rollover (only ever made while time > 86400) keeps the phase index. */
  lemma NextDayKeepsPhase(time: real, days: int)
    requires time >= SecondsInDay
    ensures PhaseOf(time - SecondsInDay, days + 1) == PhaseOf(time, days)
  {
    DayPhases(days);
    DayPhases(days + 1);
    assert (time - SecondsInDay) / PhaseLength == time / PhaseLength - 96.0;
    FloorShift(time / PhaseLength, 96);
  }

  lemma NextWeekdayWraps(d: Weekday)
    ensures WeekdayIndex(NextWeekday(d)) == (WeekdayIndex(d) + 1) % 7
    ensures d == Saturday <==> NextWeekday(d) == Sunday
  {
  }

  /** `Repeat` lists every agent exactly n times, duplicates included. */
  lemma {:induction false} RepeatCounts<T>(agents: seq<T>, n: nat, a: T)
    ensures |Repeat(agents, n)| == n * |agents|
    ensures multiset(Repeat(agents, n))[a] == n * multiset(agents)[a]
  {
    if n > 0 {
      RepeatCounts(agents, n - 1, a);
      var prev := Repeat(agents, n - 1);
      assert Repeat(agents, n) == prev + agents;
      assert multiset(prev + agents) == multiset(prev) + multiset(agents);
      assert n * |agents| == (n - 1) * |agents| + |agents| by { MulSucc(n - 1, |agents|); }
      assert n * multiset(agents)[a] == (n - 1) * multiset(agents)[a] + multiset(agents)[a] by {
        MulSucc(n - 1, multiset(agents)[a]);
      }
    }
  }

  lemma MulSucc(n: nat, m: nat)
    ensures (n + 1) * m == n * m + m
  {
  }

  lemma MulMonotone(a: nat, b: nat, m: nat)
    requires a <= b
    ensures a * m <= b * m
  {
  }

  /** Round j of the trace lists the agents in subscription order. */
  lemma {:induction false} RepeatOrder<T>(agents: seq<T>, n: nat, j: nat, i: nat)
    requires j < n && i < |agents|
    ensures j * |agents| + i < |Repeat(agents, n)|
    ensures Repeat(agents, n)[j * |agents| + i] == agents[i]
  {
    var L := |agents|;
    var prev := Repeat(agents, n - 1);
    assert |prev| == (n - 1) * L by { RepeatLength(agents, n - 1); }
    assert Repeat(agents, n) == prev + agents;
    if j == n - 1 {
      assert (prev + agents)[j * L + i] == agents[i];
    } else {
      RepeatOrder(agents, n - 1, j, i);
      assert j * L + i < |prev| by {
        MulSucc(j, L);
        MulMonotone(j + 1, n - 1, L);
      }
      assert (prev + agents)[j * L + i] == prev[j * L + i];
    }
  }

  lemma {:induction false} RepeatLength<T>(agents: seq<T>, n: nat)
    ensures |Repeat(agents, n)| == n * |agents|
  {
    if n > 0 {
      RepeatLength(agents, n - 1);
      MulSucc(n - 1, |agents|);
    }
  }

  /** An hour-and-minute string for a non-negative clock reads the whole hours and minutes. */
  lemma TimeStringShowsClock(time: real)
    requires 0.0 <= time
    ensures var s := time.Floor;
      TimeString(time) == Pad2(s / 3600) + ":" + Pad2(s % 3600 / 60)
  {
    var s := time.Floor;
    var h := Trunc(time / 3600.0);
    assert h == s / 3600 by {
      assert h as real <= time / 3600.0 < h as real + 1.0;
      assert h * 3600 <= s < (h + 1) * 3600;
    }
    var rem := HourRemainder(time);
    assert rem == time - (h * 3600) as real;
    var m := Trunc(rem / 60.0);
    assert m == (s - h * 3600) / 60 by {
      assert m as real <= rem / 60.0 < m as real + 1.0;
      assert m * 60 + h * 3600 <= s < (m + 1) * 60 + h * 3600;
    }
    assert s % 3600 == s - h * 3600;
  }

  lemma TimeStringExample()
    ensures TimeString(3661.0) == "01:01"
  {
    TimeStringShowsClock(3661.0);
    Pad2TwoDigits(1);
  }

  // ---------------------------------------------------------------------
  // Subscribers
  // ---------------------------------------------------------------------

  /** A component ticked by the clock; `onTimeTick` is its handler list (empty = null). */
  class TimeAgent {
    var onTimeTick: seq<nat>

    constructor ()
      ensures onTimeTick == []
    {
      onTimeTick := [];
    }

    /** `onTimeTick += handler`. */
    method AddHandler(handler: nat)
      modifies this
      ensures onTimeTick == old(onTimeTick) + [handler]
    {
      onTimeTick := onTimeTick + [handler];
    }

    /** `Init`: subscribe to the clock; no duplicate check. */
    method Init(clock: DayTime)
      modifies clock
      ensures clock.agents == old(clock.agents) + [this]
      ensures clock.time == old(clock.time) && clock.days == old(clock.days)
      ensures clock.oldPhase == old(clock.oldPhase) && clock.timeScale == old(clock.timeScale)
      ensures clock.dayOfWeek == old(clock.dayOfWeek) && clock.morningTime == old(clock.morningTime)
    {
      clock.Subscribe(this);
    }

    /** `Invoke`: runs the attached handlers, in order, with the given clock; none when null. */
    method Invoke(clock: DayTime) returns (called: seq<nat>)
      ensures called == onTimeTick
      ensures onTimeTick == [] ==> called == []
    {
      called := onTimeTick;
    }

    /** `OnDestroy`: unsubscribe one occurrence of this agent. */
    method OnDestroy(clock: DayTime)
      modifies clock
      ensures clock.agents == RemoveFirst(old(clock.agents), this)
      ensures clock.time == old(clock.time) && clock.days == old(clock.days)
      ensures clock.oldPhase == old(clock.oldPhase) && clock.timeScale == old(clock.timeScale)
      ensures clock.dayOfWeek == old(clock.dayOfWeek) && clock.morningTime == old(clock.morningTime)
    {
      clock.Unsubsribe(this);
    }
  }

  // ---------------------------------------------------------------------
  // The clock
  // ---------------------------------------------------------------------

  class DayTime {
    var time: real
    var timeScale: real
    var startAtTime: real
    var morningTime: real
    var dayOfWeek: Weekday
    var days: int
    var agents: seq<TimeAgent>
    /** Last phase whose agents were ticked; -1 before the first tick. */
    var oldPhase: int

    /** `Awake` then `Start`, with the inspector defaults. */
    constructor ()
      ensures time == 28800.0 && startAtTime == 28800.0 && morningTime == 28800.0
      ensures timeScale == 60.0 && dayOfWeek == Sunday && days == 0
      ensures agents == [] && oldPhase == -1
    {
      timeScale := 60.0;
      startAtTime := 28800.0;
      morningTime := 28800.0;
      dayOfWeek := Sunday;
      days := 0;
      agents := [];
      oldPhase := -1;
      time := 28800.0;
    }

    function Hours(): real reads this { HoursOf(time) }
    function Minutes(): real reads this { MinutesOf(time) }
    function Phase(): int reads this { PhaseOf(time, days) }

    function GetTimeString(): string reads this { TimeString(time) }

    method Subscribe(agent: TimeAgent)
      modifies this`agents
      ensures agents == old(agents) + [agent]
    {
      agents := agents + [agent];
    }

    method Unsubsribe(agent: TimeAgent)
      modifies this`agents
      ensures agents == RemoveFirst(old(agents), agent)
    {
      agents := RemoveFirst(agents, agent);
    }

    /**
     * `TimeAgents`: catches up with every phase boundary crossed since the last
     * call, ticking every subscribed agent once per boundary. Returns the ticks
     * in the order they happen.
     */
    method TimeAgents() returns (trace: seq<TimeAgent>, handled: seq<nat>)
      modifies this`oldPhase
      ensures oldPhase == NextOldPhase(old(oldPhase), Phase())
      ensures trace == Repeat(agents, PendingPhases(old(oldPhase), Phase()))
      ensures handled == Repeat(HandlersOf(agents), PendingPhases(old(oldPhase), Phase()))
    {
      if oldPhase == -1 {
        oldPhase := Phase();
      }
      var currentPhase := Phase();
      var list := agents;
      ghost var start := oldPhase;
      ghost var handlers := HandlersOf(list);
      trace := [];
      handled := [];
      while oldPhase < currentPhase
        invariant start <= oldPhase
        invariant start < currentPhase ==> oldPhase <= currentPhase
        invariant start >= currentPhase ==> oldPhase == start
        invariant trace == Repeat(list, oldPhase - start)
        invariant handled == Repeat(handlers, oldPhase - start)
        decreases currentPhase - oldPhase
      {
        oldPhase := oldPhase + 1;
        var ticked, called := TickAgents(list);
        trace := trace + ticked;
        handled := handled + called;
      }
    }

    /** One phase of `TimeAgents`: every agent of the list is invoked once, in order. */
    method TickAgents(list: seq<TimeAgent>) returns (ticked: seq<TimeAgent>, handled: seq<nat>)
      ensures ticked == list
      ensures handled == HandlersOf(list)
    {
      ticked, handled := [], [];
      var i := 0;
      while i < |list|
        invariant 0 <= i <= |list|
        invariant ticked == list[..i]
        invariant handled == HandlersOf(list[..i])
      {
        var called := list[i].Invoke(this);
        HandlersStep(list, i);
        assert list[..i + 1] == list[..i] + [list[i]];
        ticked := ticked + [list[i]];
        handled := handled + called;
        i := i + 1;
      }
      assert list[..i] == list;
    }

    /** `NextDay`: one day later, the same time of day. */
    method NextDay()
      modifies this`time, this`days, this`dayOfWeek
      ensures time == old(time) - SecondsInDay
      ensures days == old(days) + 1
      ensures dayOfWeek == NextWeekday(old(dayOfWeek))
    {
      time := time - SecondsInDay;
      days := days + 1;
      var dayNum := WeekdayIndex(dayOfWeek);
      dayNum := dayNum + 1;
      if dayNum >= 7 {
        dayNum := 0;
      }
      dayOfWeek := WeekdayFromIndex(dayNum);
    }

    /**
     * `Update` for one frame lasting `deltaTime` seconds: advance by the scaled
     * time, roll over at most once when strictly past midnight, then tick agents.
     */
    method Update(deltaTime: real) returns (trace: seq<TimeAgent>, handled: seq<nat>)
      modifies this`time, this`days, this`dayOfWeek, this`oldPhase
      ensures var t := old(time) + deltaTime * old(timeScale);
        if t > SecondsInDay then
          time == t - SecondsInDay && days == old(days) + 1 && dayOfWeek == NextWeekday(old(dayOfWeek))
        else
          time == t && days == old(days) && dayOfWeek == old(dayOfWeek)
      ensures oldPhase == NextOldPhase(old(oldPhase), Phase())
      ensures trace == Repeat(agents, PendingPhases(old(oldPhase), Phase()))
      ensures handled == Repeat(HandlersOf(agents), PendingPhases(old(oldPhase), Phase()))
    {
      time := time + deltaTime * timeScale;
      if time > SecondsInDay {
        NextDay();
      }
      trace, handled := TimeAgents();
    }

    /** `SkipTime`: jump forward, unscaled; agents catch up on the next frame. */
    method SkipTime(seconds: real := 0.0, minute: real := 0.0, hours: real := 0.0)
      modifies this`time
      ensures time == old(time) + seconds + minute * 60.0 + hours * 3600.0
    {
      var timeToSkip := seconds;
      timeToSkip := timeToSkip + minute * 60.0;
      timeToSkip := timeToSkip + hours * 3600.0;
      time := time + timeToSkip;
    }

    /** `SkipToMorning`: forward to the next morning time (today's if not yet passed). */
    method SkipToMorning()
      modifies this`time
      ensures old(time) > morningTime ==> time == SecondsInDay + morningTime
      ensures old(time) <= morningTime ==> time == morningTime
    {
      var secondsToSkip := 0.0;
      if time > morningTime {
        secondsToSkip := secondsToSkip + SecondsInDay - time + morningTime;
      } else {
        secondsToSkip := secondsToSkip + morningTime - time;
      }
      SkipTime(secondsToSkip);
    }

    method SetTimeScale(scale: real)
      modifies this`timeScale
      ensures timeScale == scale
    {
      timeScale := scale;
    }

    method PauseTime()
      modifies this`timeScale
      ensures timeScale == 0.0
    {
      timeScale := 0.0;
    }

    method ResumeTime(scale: real := 100.0)
      modifies this`timeScale
      ensures timeScale == scale
    {
      timeScale := scale;
    }
  }

  /** A frame that rolls over midnight ticks no extra phases for the new day. */
  lemma RolloverFramePhase(t: real, days: int)
    requires t > SecondsInDay
    ensures PhaseOf(t - SecondsInDay, days + 1) == PhaseOf(t, days)
  {
    NextDayKeepsPhase(t, days);
  }
}
