// NPCCharacter: a clock subscriber whose relationship can grow once per day.
module Npc {
  import opened Clock

  /** The part of an NPC's state that its two operations touch. */
  datatype TalkState = TalkState(relationship: int, talkedToday: bool, talkedOnTheDayNumber: int)

  /** `IncreaseRelationship(v)`: only the first talk of the day counts. */
  function Increase(s: TalkState, v: int): (r: TalkState)
    ensures !s.talkedToday ==> r.relationship == s.relationship + v && r.talkedToday
    ensures s.talkedToday ==> r == s
    ensures r.talkedOnTheDayNumber == s.talkedOnTheDayNumber
  {
    if !s.talkedToday then s.(relationship := s.relationship + v, talkedToday := true) else s
  }

  /** `ResetTalkState` on a tick of a clock at day `days`. */
  function Reset(s: TalkState, days: int): (r: TalkState)
    ensures days != s.talkedOnTheDayNumber ==> !r.talkedToday && r.talkedOnTheDayNumber == days
    ensures days == s.talkedOnTheDayNumber ==> r == s
    ensures r.relationship == s.relationship
  {
    if days != s.talkedOnTheDayNumber then s.(talkedToday := false, talkedOnTheDayNumber := days) else s
  }

  /** A second talk on the same day changes nothing. */
  lemma IncreaseOncePerDay(s: TalkState, v: int, w: int)
    ensures Increase(Increase(s, v), w) == Increase(s, v)
  {
  }

  /** Ticks within one day reset the latch at most once. */
  lemma ResetIdempotent(s: TalkState, days: int)
    ensures Reset(Reset(s, days), days) == Reset(s, days)
  {
  }

  /** The initial day number -1 makes the first tick on any real day reset the latch. */
  lemma FirstTickResets(relationship: int, talked: bool, days: int)
    requires days >= 0
    ensures !Reset(TalkState(relationship, talked, -1), days).talkedToday
  {
  }

  /** After a new day's reset the NPC accepts one more relationship increase. */
  lemma NewDayAllowsTalk(s: TalkState, days: int, v: int)
    requires days != s.talkedOnTheDayNumber
    ensures Increase(Reset(s, days), v).relationship == s.relationship + v
  {
  }

  /** Handler id under which `ResetTalkState` is attached to the agent's tick. */
  const ResetTalkStateHandler: nat := 0

  class NPCCharacter {
    const agent: TimeAgent
    var relationship: int
    var talkedToday: bool
    var talkedOnTheDayNumber: int

    function State(): TalkState reads this
    {
      TalkState(relationship, talkedToday, talkedOnTheDayNumber)
    }

    constructor (agent: TimeAgent)
      ensures this.agent == agent
      ensures relationship == 0 && !talkedToday && talkedOnTheDayNumber == -1
    {
      this.agent := agent;
      relationship := 0;
      talkedToday := false;
      talkedOnTheDayNumber := -1;
    }

    /** `Start`: subscribe to the clock and attach `ResetTalkState` to the tick. */
    method Start(clock: DayTime)
      modifies clock, agent
      ensures clock.agents == old(clock.agents) + [agent]
      ensures agent.onTimeTick == old(agent.onTimeTick) + [ResetTalkStateHandler]
      ensures clock.time == old(clock.time) && clock.days == old(clock.days)
      ensures clock.oldPhase == old(clock.oldPhase)
    {
      agent.Init(clock);
      agent.AddHandler(ResetTalkStateHandler);
    }

    method IncreaseRelationship(v: int)
      modifies this
      ensures State() == Increase(old(State()), v)
    {
      if talkedToday == false {
        relationship := relationship + v;
        talkedToday := true;
      }
    }

    method ResetTalkState(dayTime: DayTime)
      modifies this
      ensures State() == Reset(old(State()), dayTime.days)
    {
      if dayTime.days != talkedOnTheDayNumber {
        talkedToday := false;
        talkedOnTheDayNumber := dayTime.days;
      }
    }
  }
}
