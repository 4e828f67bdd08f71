// Skills that gain experience and level up (CharacterLevel.cs).
module CharacterLevels {
  datatype SkillType = Charisma | Intelligence | MarketAnalysis | Entrepreneurship | Famous | Study

  /** `NextLevel`: the experience a skill at this level needs to level up. */
  function NextLevelOf(level: int): int
  {
    level * 1000
  }

  /**
   * (level, experience) after `AddExperience(gain)`: the gain is added, and once the threshold is
   * reached it is paid out of the experience and the level goes up by one, at most once per call.
   */
  function Gained(level: int, experience: int, gain: int): (int, int)
  {
    var e := experience + gain;
    if e >= NextLevelOf(level) then (level + 1, e - NextLevelOf(level)) else (level, e)
  }

  /** A skill as play keeps it: level at least 1 and experience below the threshold. */
  predicate Normal(level: int, experience: int)
  {
    level >= 1 && 0 <= experience < NextLevelOf(level)
  }

  /** All experience ever earned: the thresholds of levels 1 .. level-1 already paid, plus the rest. */
  function TotalExperience(level: int, experience: int): int
  {
    500 * level * (level - 1) + experience
  }

  /**
   * One call raises the level by one exactly when the new experience reaches the threshold; with
   * non-negative experience and gain the level never falls and the experience stays non-negative.
   */
  lemma LevelsUpOnceAtThreshold(level: int, experience: int, gain: int)
    ensures var (l, e) := Gained(level, experience, gain);
      (l == level + 1 <==> experience + gain >= NextLevelOf(level)) &&
      (l == level <==> experience + gain < NextLevelOf(level))
    ensures var (l, e) := Gained(level, experience, gain);
      experience >= 0 && gain >= 0 ==> l >= level && e >= 0
  {
  }

  /** No experience is lost: paying a threshold is exactly what the higher level stands for. */
  lemma GainIsKept(level: int, experience: int, gain: int)
    ensures var (l, e) := Gained(level, experience, gain);
      TotalExperience(l, e) == TotalExperience(level, experience) + gain
  {
    var (l, e) := Gained(level, experience, gain);
    if l == level + 1 {
      calc {
        TotalExperience(l, e);
        500 * (level + 1) * level + experience + gain - level * 1000;
        { assert 500 * (level + 1) * level == 500 * level * (level - 1) + 1000 * level; }
        TotalExperience(level, experience) + gain;
      }
    }
  }

  /** A gain of at most the next level's threshold keeps a skill normal, with the level never falling. */
  lemma SmallGainStaysNormal(level: int, experience: int, gain: int)
    requires Normal(level, experience)
    requires 0 <= gain <= NextLevelOf(level + 1)
    ensures var (l, e) := Gained(level, experience, gain);
      Normal(l, e) && level <= l
  {
    var (l, e) := Gained(level, experience, gain);
    if l == level + 1 {
      assert e < gain;
      assert NextLevelOf(level + 1) == NextLevelOf(level) + 1000;
    }
  }

  /**
   * A normal skill stays normal after a gain exactly when the gain does not reach past the next
   * level's threshold as well: a call levels up at most once and banks the rest.
   */
  lemma NormalAfterGain(level: int, experience: int, gain: int)
    requires Normal(level, experience) && gain >= 0
    ensures var (l, e) := Gained(level, experience, gain);
      Normal(l, e) <==> experience + gain < NextLevelOf(level) + NextLevelOf(level + 1)
  {
  }

  /** A large gain is only partly converted: 5000 experience for a new skill leaves 4000 past level 2's threshold. */
  lemma LargeGainBanked()
    ensures Gained(1, 0, 5000) == (2, 4000)
    ensures !Normal(2, 4000)
  {
  }

  /** The skill type a field is given by `Start` as written: every field gets `Charisma`. */
  function StartTypeAsWritten(field: SkillType): SkillType
  {
    Charisma
  }

  /** As written, five of the six skills are labelled `Charisma`: only that field gets its own type. */
  lemma StartMislabels()
    ensures forall f :: StartTypeAsWritten(f) == f <==> f == Charisma
  {
  }

  class Skill {
    var level: int
    var experience: int
    var skillType: SkillType

    constructor (skillType: SkillType)
      ensures level == 1 && experience == 0 && this.skillType == skillType
      ensures Normal(level, experience)
    {
      level := 1;
      experience := 0;
      this.skillType := skillType;
    }

    function NextLevel(): int reads this
    {
      NextLevelOf(level)
    }

    /** `AddExperience`, through `CheckLevelUp` and `LevelUp`. */
    method AddExperience(gain: int)
      modifies this`level, this`experience
      ensures (level, experience) == Gained(old(level), old(experience), gain)
    {
      experience := experience + gain;
      CheckLevelUp();
    }

    method CheckLevelUp()
      modifies this`level, this`experience
      ensures old(experience) >= old(NextLevel()) ==>
        level == old(level) + 1 && experience == old(experience) - old(NextLevel())
      ensures old(experience) < old(NextLevel()) ==> level == old(level) && experience == old(experience)
    {
      if experience >= NextLevel() {
        LevelUp();
      }
    }

    method LevelUp()
      modifies this`level, this`experience
      ensures level == old(level) + 1 && experience == old(experience) - old(NextLevel())
    {
      experience := experience - NextLevel();
      level := level + 1;
    }
  }

  class CharacterLevel {
    var charisma: Skill?
    var intelligence: Skill?
    var marketAnalysis: Skill?
    var entrepreneurship: Skill?
    var famous: Skill?
    var study: Skill?

    constructor ()
      ensures charisma == null && intelligence == null && marketAnalysis == null
      ensures entrepreneurship == null && famous == null && study == null
    {
      charisma, intelligence, marketAnalysis := null, null, null;
      entrepreneurship, famous, study := null, null, null;
    }

    /** `GetSkill`: the field of the skill type. */
    function GetSkill(t: SkillType): Skill? reads this
    {
      match t
        case Charisma => charisma
        case Intelligence => intelligence
        case MarketAnalysis => marketAnalysis
        case Entrepreneurship => entrepreneurship
        case Famous => famous
        case Study => study
    }

    /** `GetLevel`: the skill's level, or -1 for a skill that is not there. */
    function GetLevel(t: SkillType): (r: int) reads this, GetSkill(t)
      ensures GetSkill(t) == null ==> r == -1
      ensures GetSkill(t) != null ==> r == GetSkill(t).level
    {
      var s := GetSkill(t);
      if s == null then -1 else s.level
    }

    /** The six skills are there, distinct, new and at level 1 with no experience. */
    predicate Fresh() reads this, GetSkill(Charisma), GetSkill(Intelligence), GetSkill(MarketAnalysis),
      GetSkill(Entrepreneurship), GetSkill(Famous), GetSkill(Study)
    {
      (forall t :: GetSkill(t) != null) &&
      (forall t, u :: t != u ==> GetSkill(t) != GetSkill(u)) &&
      (forall t :: GetSkill(t) != null ==> GetSkill(t).level == 1 && GetSkill(t).experience == 0)
    }

    /** Six distinct new skills in the six fields make the character fresh. */
    lemma FreshFromFields()
      requires charisma != null && intelligence != null && marketAnalysis != null
      requires entrepreneurship != null && famous != null && study != null
      requires charisma.level == 1 && charisma.experience == 0 && intelligence.level == 1 && intelligence.experience == 0
      requires marketAnalysis.level == 1 && marketAnalysis.experience == 0
      requires entrepreneurship.level == 1 && entrepreneurship.experience == 0
      requires famous.level == 1 && famous.experience == 0 && study.level == 1 && study.experience == 0
      requires charisma != intelligence && charisma != marketAnalysis && charisma != entrepreneurship
      requires charisma != famous && charisma != study
      requires intelligence != marketAnalysis && intelligence != entrepreneurship && intelligence != famous
      requires intelligence != study
      requires marketAnalysis != entrepreneurship && marketAnalysis != famous && marketAnalysis != study
      requires entrepreneurship != famous && entrepreneurship != study && famous != study
      ensures Fresh()
    {
    }

    /** Six new skills of the given types, each at level 1 with no experience. */
    static method NewSkills(tc: SkillType, ti: SkillType, tm: SkillType, te: SkillType, tf: SkillType, ts: SkillType)
      returns (c: Skill, i: Skill, m: Skill, e: Skill, f: Skill, s: Skill)
      ensures fresh(c) && fresh(i) && fresh(m) && fresh(e) && fresh(f) && fresh(s)
      ensures c.skillType == tc && i.skillType == ti && m.skillType == tm
      ensures e.skillType == te && f.skillType == tf && s.skillType == ts
      ensures c.level == 1 && c.experience == 0 && i.level == 1 && i.experience == 0
      ensures m.level == 1 && m.experience == 0 && e.level == 1 && e.experience == 0
      ensures f.level == 1 && f.experience == 0 && s.level == 1 && s.experience == 0
      ensures c != i && c != m && c != e && c != f && c != s && i != m && i != e && i != f && i != s
      ensures m != e && m != f && m != s && e != f && e != s && f != s
    {
      c := new Skill(tc);
      i := new Skill(ti);
      m := new Skill(tm);
      e := new Skill(te);
      f := new Skill(tf);
      s := new Skill(ts);
    }

    /** `Start` as written: every skill is created with `SkillType.Charisma`. */
    method Start()
      modifies this
      ensures forall t :: GetSkill(t) != null && fresh(GetSkill(t)) && GetSkill(t).skillType == StartTypeAsWritten(t)
      ensures Fresh()
      ensures forall t :: GetLevel(t) == 1
    {
      var c, i, m, e, f, s := NewSkills(Charisma, Charisma, Charisma, Charisma, Charisma, Charisma);
      charisma, intelligence, marketAnalysis, entrepreneurship, famous, study := c, i, m, e, f, s;
      FreshFromFields();
    }

    /** `Start` as evidently intended: every skill is created with its own type. */
    method StartWithOwnTypes()
      modifies this
      ensures forall t :: GetSkill(t) != null && fresh(GetSkill(t)) && GetSkill(t).skillType == t
      ensures Fresh()
      ensures forall t :: GetLevel(t) == 1
    {
      var c, i, m, e, f, s := NewSkills(Charisma, Intelligence, MarketAnalysis, Entrepreneurship, Famous, Study);
      charisma, intelligence, marketAnalysis, entrepreneurship, famous, study := c, i, m, e, f, s;
      FreshFromFields();
    }

    /** `AddExperience`: the skill of that type gains; a missing skill would throw, so one must be there. */
    method AddExperience(t: SkillType, gain: int)
      requires GetSkill(t) != null
      modifies GetSkill(t)`level, GetSkill(t)`experience
      ensures (GetSkill(t).level, GetSkill(t).experience) == Gained(old(GetSkill(t).level), old(GetSkill(t).experience), gain)
      ensures forall u :: GetSkill(u) != GetSkill(t) && GetSkill(u) != null ==>
        GetSkill(u).level == old(GetSkill(u).level) && GetSkill(u).experience == old(GetSkill(u).experience)
      ensures GetLevel(t) == Gained(old(GetLevel(t)), old(GetSkill(t).experience), gain).0
      ensures forall u :: GetSkill(u) != GetSkill(t) ==> GetLevel(u) == old(GetLevel(u))
    {
      var s := GetSkill(t);
      s.AddExperience(gain);
    }
  }
}
