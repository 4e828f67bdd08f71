// Game endings: deadlines, grade ranking, the 90-day choice and the one-shot trigger (EndingManager.cs).
module Endings {
  import opened Common
  import opened Prefs
  import opened QuizUtility
  import opened Quiz
  import opened Clock
  import opened Money
  import opened Bills
  import opened CharacterStats

  datatype EndingType = StarvingDeath | MentalIllnessDeath | SleepOnStreet | FastFoodWorker | NormalOfficer | SuccessfulPerson

  /** `EndingData` without its sprite and colour. */
  datatype EndingData = EndingData(endingType: EndingType, endingTitle: string, dialogueLines: seq<string>)

  /** `EndingConditions`, the thresholds the endings are decided by. */
  datatype EndingConditions = EndingConditions(
    checkStarvingDeath: bool, checkMentalIllnessDeath: bool, checkExpiredBills: bool, checkMissedExaminations: bool,
    midtermDeadlineDay: int, midtermDeadlineHour: int, finalDeadlineDay: int, finalDeadlineHour: int,
    normalOfficerMaxCurrentMoney: real, normalOfficerMinTotalEarnings: real, normalOfficerMinGrade: string,
    successfulPersonMinCurrentMoney: real, successfulPersonMinTotalEarnings: real, successfulPersonRequiredGrade: string)

  /** The inspector defaults of `EndingConditions`. */
  const DefaultConditions := EndingConditions(true, true, true, true, 45, 10, 90, 15,
                                              10000.0, 20000.0, "C", 10000.0, 20000.0, "A")

  /** `GradeToNumeric`: A..D and F score 4..0 regardless of case; anything else scores 0. */
  function GradeToNumeric(grade: string): (v: int)
    ensures 0 <= v <= 4
  {
    var upper := ToUpper(grade);
    if upper == "A" then 4
    else if upper == "B" then 3
    else if upper == "C" then 2
    else if upper == "D" then 1
    else 0
  }

  predicate IsGradeAtLeast(actualGrade: string, minimumGrade: string)
  {
    GradeToNumeric(actualGrade) >= GradeToNumeric(minimumGrade)
  }

  /** The grade values, in both cases, and an unknown letter. */
  lemma GradeValues()
    ensures GradeToNumeric("A") == 4 && GradeToNumeric("a") == 4
    ensures GradeToNumeric("B") == 3 && GradeToNumeric("c") == 2 && GradeToNumeric("D") == 1
    ensures GradeToNumeric("F") == 0 && GradeToNumeric("E") == 0 && GradeToNumeric("") == 0
  {
    assert ToUpper("a") == "A" by { assert UpperChar('a') == 'A'; }
    assert ToUpper("c") == "C" by { assert UpperChar('c') == 'C'; }
    assert ToUpper("A") == "A" && ToUpper("B") == "B" && ToUpper("D") == "D";
    assert ToUpper("F") == "F" && ToUpper("E") == "E" && ToUpper("") == "";
  }

  /** The rank agrees with the letters of `GetLetterGrade`: a higher percentage is never a lower grade. */
  lemma GradeRankFollowsPercentage(p: real, q: real)
    requires p >= q
    ensures IsGradeAtLeast(GetLetterGrade(p), GetLetterGrade(q))
    ensures GradeToNumeric(GetLetterGrade(p)) == LetterRank(GetLetterGrade(p))
  {
    GradeValues();
    LetterGradeMonotone(q, p);
    assert GradeToNumeric(GetLetterGrade(q)) == LetterRank(GetLetterGrade(q));
  }

  /** The exam has not been completed: no key, or a stored 0. */
  predicate NotCompleted(entries: map<string, PrefValue>, key: string)
  {
    key !in entries || IntOf(entries, key, 0) == 0
  }

  /** `CheckMidtermDeadline`. */
  predicate MidtermMissed(conditions: EndingConditions, entries: map<string, PrefValue>, currentDay: int, currentHour: real)
  {
    if currentDay > conditions.midtermDeadlineDay then NotCompleted(entries, MidtermCompletedPrefKey)
    else if currentDay == conditions.midtermDeadlineDay && currentHour >= conditions.midtermDeadlineHour as real then
      NotCompleted(entries, MidtermCompletedPrefKey)
    else false
  }

  /** `CheckFinalDeadline`. */
  predicate FinalMissed(conditions: EndingConditions, entries: map<string, PrefValue>, currentDay: int, currentHour: real)
  {
    if currentDay > conditions.finalDeadlineDay then NotCompleted(entries, FinalCompletedPrefKey)
    else if currentDay == conditions.finalDeadlineDay && currentHour >= conditions.finalDeadlineHour as real then
      NotCompleted(entries, FinalCompletedPrefKey)
    else false
  }

  /** A deadline is missed exactly when the exam is not done and its day and hour have been reached. */
  lemma DeadlineRule(conditions: EndingConditions, entries: map<string, PrefValue>, currentDay: int, currentHour: real)
    ensures MidtermMissed(conditions, entries, currentDay, currentHour) <==>
      NotCompleted(entries, MidtermCompletedPrefKey) &&
      (currentDay > conditions.midtermDeadlineDay ||
       (currentDay == conditions.midtermDeadlineDay && currentHour >= conditions.midtermDeadlineHour as real))
    ensures FinalMissed(conditions, entries, currentDay, currentHour) <==>
      NotCompleted(entries, FinalCompletedPrefKey) &&
      (currentDay > conditions.finalDeadlineDay ||
       (currentDay == conditions.finalDeadlineDay && currentHour >= conditions.finalDeadlineHour as real))
  {
  }

  /** Once missed, a deadline stays missed at every later day and hour while the exam stays undone. */
  lemma DeadlineStaysMissed(conditions: EndingConditions, entries: map<string, PrefValue>,
                            day: int, hour: real, laterDay: int, laterHour: real)
    requires laterDay > day || (laterDay == day && laterHour >= hour)
    ensures MidtermMissed(conditions, entries, day, hour) ==> MidtermMissed(conditions, entries, laterDay, laterHour)
    ensures FinalMissed(conditions, entries, day, hour) ==> FinalMissed(conditions, entries, laterDay, laterHour)
  {
    DeadlineRule(conditions, entries, day, hour);
    DeadlineRule(conditions, entries, laterDay, laterHour);
  }

  /** With the defaults: a midterm done by day 45 is never missed; undone, it is missed at 10:00 on day 45. */
  lemma DefaultDeadlines(entries: map<string, PrefValue>, score: int, questions: seq<Question>, hour: real)
    ensures !MidtermMissed(DefaultConditions, CompletedPrefs(entries, Midterm, score, questions), 45, hour)
    ensures MidtermMissed(DefaultConditions, map[], 45, 10.0) && !MidtermMissed(DefaultConditions, map[], 45, 9.5)
    ensures FinalMissed(DefaultConditions, map[], 91, 0.0) && !FinalMissed(DefaultConditions, map[], 90, 14.0)
  {
    CompletionRecorded(entries, Midterm, score, questions);
  }

  /** `Check90DayEndings`: the successful ending first, then the officer, else fast food. */
  function NinetyDayEnding(conditions: EndingConditions, currentMoney: real, totalEarnings: real, finalGrade: string): EndingType
  {
    if currentMoney >= conditions.successfulPersonMinCurrentMoney &&
       totalEarnings >= conditions.successfulPersonMinTotalEarnings &&
       finalGrade == conditions.successfulPersonRequiredGrade
    then SuccessfulPerson
    else if currentMoney < conditions.normalOfficerMaxCurrentMoney &&
            totalEarnings >= conditions.normalOfficerMinTotalEarnings &&
            IsGradeAtLeast(finalGrade, conditions.normalOfficerMinGrade)
    then NormalOfficer
    else FastFoodWorker
  }

  /** With the default thresholds the choice is one of three endings, each on its own condition. */
  lemma NinetyDayEndingDefaults(money: real, earnings: real, grade: string)
    ensures var e := NinetyDayEnding(DefaultConditions, money, earnings, grade);
      e in {SuccessfulPerson, NormalOfficer, FastFoodWorker} &&
      (e == SuccessfulPerson <==> money >= 10000.0 && earnings >= 20000.0 && grade == "A") &&
      (e == NormalOfficer <==> money < 10000.0 && earnings >= 20000.0 && GradeToNumeric(grade) >= 2)
  {
    GradeValues();
  }

  /** Without enough earnings every 90-day run ends in fast food, whatever the grade. */
  lemma LowEarningsFastFood(money: real, earnings: real, grade: string)
    requires earnings < 20000.0
    ensures NinetyDayEnding(DefaultConditions, money, earnings, grade) == FastFoodWorker
  {
  }

  /** The fallback grade of `GetFinalGrade`: both scores read as floats and weighed out of 100. */
  function FallbackGrade(entries: map<string, PrefValue>): real
  {
    CalculateFinalGrade(FloatOf(entries, MidtermScorePrefKey, 0.0), FloatOf(entries, FinalScorePrefKey, 0.0), 100.0, 100.0)
  }

  /** The letter `GetFinalGrade` reports for these preferences. */
  function FinalLetter(entries: map<string, PrefValue>): string
  {
    if IntOf(entries, MidtermCompletedPrefKey, 0) != 1 || IntOf(entries, FinalCompletedPrefKey, 0) != 1 then "F"
    else if TotalGradePrefKey in entries then GetLetterGrade(FloatOf(entries, TotalGradePrefKey, 0.0))
    else GetLetterGrade(FallbackGrade(entries))
  }

  /** Without both exams the grade is F; after both, the quiz's stored grade decides the letter. */
  lemma FinalLetterFromExams(entries: map<string, PrefValue>, score: int, questions: seq<Question>)
    ensures IntOf(entries, MidtermCompletedPrefKey, 0) != 1 ==> FinalLetter(entries) == "F"
    ensures IntOf(entries, MidtermCompletedPrefKey, 0) == 1 &&
            SumScores(Filtered(questions, Midterm)) != 0 && SumScores(Filtered(questions, Final)) != 0 ==>
      FinalLetter(CompletedPrefs(entries, Final, score, questions)) ==
      GetExamResults(CompletedPrefs(entries, Final, score, questions)).letterGrade
  {
    if IntOf(entries, MidtermCompletedPrefKey, 0) == 1 &&
       SumScores(Filtered(questions, Midterm)) != 0 && SumScores(Filtered(questions, Final)) != 0 {
      FinalAfterMidtermGivesGrade(entries, score, questions);
    }
  }

  /**
   * The exam stores its scores as ints, and a float read of an int entry yields the default, so
   * when the stored total is missing the fallback weighs two zeros.
   */
  lemma FallbackReadsNoIntScores(entries: map<string, PrefValue>, m: int, f: int)
    ensures FallbackGrade(entries[MidtermScorePrefKey := IntValue(m)][FinalScorePrefKey := IntValue(f)]) == 0.0
  {
  }

  /** The death ending for a dead character: health is looked at before happiness. */
  function DeathEnding(healthEmpty: bool, happinessEmpty: bool): Option<EndingType>
  {
    if healthEmpty then Some(StarvingDeath) else if happinessEmpty then Some(MentalIllnessDeath) else None
  }

  /**
   * What `GetFinalGrade` leaves in the preferences: the fallback grade is stored once both exams
   * are completed and no total grade was saved; otherwise nothing changes.
   */
  function GradeStored(entries: map<string, PrefValue>): map<string, PrefValue>
  {
    if IntOf(entries, MidtermCompletedPrefKey, 0) == 1 && IntOf(entries, FinalCompletedPrefKey, 0) == 1 &&
       TotalGradePrefKey !in entries
    then entries[TotalGradePrefKey := FloatValue(FallbackGrade(entries))]
    else entries
  }

  /** Storing the fallback grade does not change the letter reported, and a second call stores nothing more. */
  lemma GradeStoredKeepsLetter(entries: map<string, PrefValue>)
    ensures FinalLetter(GradeStored(entries)) == FinalLetter(entries)
    ensures GradeStored(GradeStored(entries)) == GradeStored(entries)
  {
    ExamKeysDistinct();
  }

  /** The ending `CheckForEndings` requests: a death ending for a dead character, else the street ending for a lapsed bill. */
  function EndingsRequest(isDead: bool, healthEmpty: bool, happinessEmpty: bool, billLapsed: bool): Option<EndingType>
  {
    if isDead then DeathEnding(healthEmpty, happinessEmpty) else if billLapsed then Some(SleepOnStreet) else None
  }

  /** The ending one `Update` frame requests: the one `CheckForEndings` requests, else fast food for a missed deadline. */
  function FrameRequest(checked: Option<EndingType>, missed: bool): Option<EndingType>
  {
    if checked.Some? then checked else if missed then Some(FastFoodWorker) else None
  }

  /**
   * Death outranks everything in a frame, a lapsed bill outranks a missed deadline, and a living
   * character without lapsed bills gets the fast-food ending exactly when a deadline is missed.
   */
  lemma FrameRequestPriority(healthEmpty: bool, happinessEmpty: bool, billLapsed: bool, missed: bool)
    ensures healthEmpty ==> FrameRequest(EndingsRequest(true, healthEmpty, happinessEmpty, billLapsed), missed) == Some(StarvingDeath)
    ensures FrameRequest(EndingsRequest(false, healthEmpty, happinessEmpty, true), missed) == Some(SleepOnStreet)
    ensures FrameRequest(EndingsRequest(false, healthEmpty, happinessEmpty, false), missed).Some? <==> missed
    ensures missed ==> FrameRequest(EndingsRequest(false, healthEmpty, happinessEmpty, false), missed) == Some(FastFoodWorker)
  {
  }

  /**
   * A healthy character losing all happiness: as written it stays alive, so no death ending is
   * chosen; with the happiness test it dies and the mental-illness ending follows.
   */
  lemma HappinessLossEnding(health: int, happiness: int, amount: int)
    requires health > 0 && happiness - amount <= 0
    ensures !DeadAfterHappinessLossAsWritten(false, health, happiness - amount)
    ensures DeadAfterHappinessLoss(false, health, happiness - amount) &&
            DeathEnding(health <= 0, happiness - amount <= 0) == Some(MentalIllnessDeath)
  {
  }

  /** `Awake`'s lookup, built entry by entry: an entry is added only when its type is new. */
  function EndingLookup(list: seq<EndingData>): map<EndingType, EndingData>
  {
    if |list| == 0 then map[]
    else
      var m := EndingLookup(list[..|list| - 1]);
      var last := list[|list| - 1];
      if last.endingType in m then m else m[last.endingType := last]
  }

  /** The lookup knows exactly the types in the list. */
  lemma {:induction false} EndingLookupDomain(list: seq<EndingData>, t: EndingType)
    ensures t in EndingLookup(list) <==> exists i :: 0 <= i < |list| && list[i].endingType == t
  {
    if |list| > 0 {
      var init := list[..|list| - 1];
      EndingLookupDomain(init, t);
      assert forall i :: 0 <= i < |init| ==> init[i] == list[i];
      if t in EndingLookup(init) {
        var i :| 0 <= i < |init| && init[i].endingType == t;
        assert list[i].endingType == t;
      }
    }
  }

  /** The entry a type maps to is the first entry of that type. */
  lemma {:induction false} EndingLookupFirst(list: seq<EndingData>, i: int)
    requires 0 <= i < |list|
    requires forall j :: 0 <= j < i ==> list[j].endingType != list[i].endingType
    ensures list[i].endingType in EndingLookup(list) && EndingLookup(list)[list[i].endingType] == list[i]
  {
    var init := list[..|list| - 1];
    assert forall j :: 0 <= j < |init| ==> init[j] == list[j];
    if i < |list| - 1 {
      EndingLookupFirst(init, i);
    } else {
      EndingLookupDomain(init, list[i].endingType);
    }
  }

  /** With duplicated types, the first entry wins. */
  lemma FirstEntryWins(a: EndingData, b: EndingData)
    requires a.endingType == b.endingType
    ensures EndingLookup([a, b]) == map[a.endingType := a]
  {
    assert [a, b][..1] == [a];
    assert [a][..0] == [];
    assert EndingLookup([a]) == map[a.endingType := a];
  }

  class EndingManager {
    var currentDay: int
    var maxDays: int
    var endingTriggered: bool
    var endingDataDict: map<EndingType, EndingData>
    /** The ending whose sequence was started, if any. */
    var playingEnding: Option<EndingData>
    /** The type passed to the first `TriggerEnding` call. */
    ghost var requestedEnding: Option<EndingType>
    const conditions: EndingConditions
    const character: Character?
    const currency: Currency?
    const billPanel: BillPanel?
    const dayTimeSystem: DayTime?
    const prefs: PlayerPrefs

    constructor (prefs: PlayerPrefs, character: Character?, currency: Currency?, billPanel: BillPanel?, dayTimeSystem: DayTime?)
      ensures this.prefs == prefs && this.character == character && this.currency == currency
      ensures this.billPanel == billPanel && this.dayTimeSystem == dayTimeSystem
      ensures currentDay == 1 && maxDays == 90 && !endingTriggered && endingDataDict == map[]
      ensures playingEnding == None && requestedEnding == None && conditions == DefaultConditions
    {
      this.prefs := prefs;
      this.character := character;
      this.currency := currency;
      this.billPanel := billPanel;
      this.dayTimeSystem := dayTimeSystem;
      currentDay := 1;
      maxDays := 90;
      endingTriggered := false;
      endingDataDict := map[];
      playingEnding := None;
      requestedEnding := None;
      conditions := DefaultConditions;
    }

    /** `Awake`: the dictionary keeps the first entry of each type. */
    method Awake(endingDataList: seq<EndingData>)
      modifies this`endingDataDict
      ensures endingDataDict == EndingLookup(endingDataList)
    {
      endingDataDict := map[];
      var i := 0;
      while i < |endingDataList|
        invariant 0 <= i <= |endingDataList|
        invariant endingDataDict == EndingLookup(endingDataList[..i])
      {
        assert endingDataList[..i + 1][..i] == endingDataList[..i];
        var endingData := endingDataList[i];
        if endingData.endingType !in endingDataDict {
          endingDataDict := endingDataDict[endingData.endingType := endingData];
        }
        i := i + 1;
      }
      assert endingDataList[..i] == endingDataList;
    }

    /** The ending data `TriggerEnding` starts for a type: its entry, if known, else what was playing. */
    function PlayedFor(t: EndingType, previous: Option<EndingData>): Option<EndingData> reads this
    {
      if t in endingDataDict then Some(endingDataDict[t]) else previous
    }

    /** `TriggerEnding`: the first call latches; only a known type starts a sequence. */
    method TriggerEnding(endingType: EndingType)
      modifies this`endingTriggered, this`playingEnding, this`requestedEnding
      ensures endingTriggered
      ensures old(endingTriggered) ==> playingEnding == old(playingEnding) && requestedEnding == old(requestedEnding)
      ensures !old(endingTriggered) ==>
        requestedEnding == Some(endingType) &&
        playingEnding == PlayedFor(endingType, old(playingEnding))
    {
      if endingTriggered {
        return;
      }
      endingTriggered := true;
      requestedEnding := Some(endingType);
      if endingType !in endingDataDict {
        return;
      }
      playingEnding := Some(endingDataDict[endingType]);
    }

    /** `GetFinalGrade`, which stores the fallback grade when no total was saved. */
    method GetFinalGrade() returns (grade: string)
      modifies prefs
      ensures grade == FinalLetter(old(prefs.entries))
      ensures prefs.entries == GradeStored(old(prefs.entries))
    {
      var midtermCompleted := prefs.GetInt(MidtermCompletedPrefKey, 0) == 1;
      var finalCompleted := prefs.GetInt(FinalCompletedPrefKey, 0) == 1;
      if !midtermCompleted || !finalCompleted {
        return "F";
      }
      if prefs.HasKey(TotalGradePrefKey) {
        var totalGrade := prefs.GetFloat(TotalGradePrefKey, 0.0);
        return GetLetterGrade(totalGrade);
      }
      var midtermScore := prefs.GetFloat(MidtermScorePrefKey, 0.0);
      var finalScore := prefs.GetFloat(FinalScorePrefKey, 0.0);
      var totalGrade := CalculateFinalGrade(midtermScore, finalScore, 100.0, 100.0);
      prefs.SetFloat(TotalGradePrefKey, totalGrade);
      return GetLetterGrade(totalGrade);
    }

    /** `Check90DayEndings`; the total earnings come from the currency, which does not record them here. */
    method Check90DayEndings(totalEarnings: real)
      modifies this`endingTriggered, this`playingEnding, this`requestedEnding, prefs
      ensures endingTriggered
      ensures prefs.entries == GradeStored(old(prefs.entries))
      ensures !old(endingTriggered) ==>
        var ending := NinetyDayEnding(conditions,
                                      if currency != null then currency.amount else 0.0,
                                      if currency != null then totalEarnings else 0.0,
                                      FinalLetter(old(prefs.entries)));
        requestedEnding == Some(ending) && playingEnding == PlayedFor(ending, old(playingEnding))
      ensures old(endingTriggered) ==> requestedEnding == old(requestedEnding) && playingEnding == old(playingEnding)
    {
      var currentMoney := if currency != null then currency.GetAmount() else 0.0;
      var earnings := if currency != null then totalEarnings else 0.0;
      var finalGrade := GetFinalGrade();
      if currentMoney >= conditions.successfulPersonMinCurrentMoney &&
         earnings >= conditions.successfulPersonMinTotalEarnings &&
         finalGrade == conditions.successfulPersonRequiredGrade {
        TriggerEnding(SuccessfulPerson);
        return;
      }
      if currentMoney < conditions.normalOfficerMaxCurrentMoney &&
         earnings >= conditions.normalOfficerMinTotalEarnings &&
         IsGradeAtLeast(finalGrade, conditions.normalOfficerMinGrade) {
        TriggerEnding(NormalOfficer);
        return;
      }
      TriggerEnding(FastFoodWorker);
    }

    /** `IncrementDay`: one more day; from `maxDays` on, the 90-day ending unless one was triggered. */
    method IncrementDay(totalEarnings: real)
      modifies this`currentDay, this`endingTriggered, this`playingEnding, this`requestedEnding, prefs
      ensures currentDay == old(currentDay) + 1
      ensures currentDay < maxDays || old(endingTriggered) ==>
        endingTriggered == old(endingTriggered) && requestedEnding == old(requestedEnding) &&
        playingEnding == old(playingEnding) && prefs.entries == old(prefs.entries)
      ensures currentDay >= maxDays && !old(endingTriggered) ==>
        var ending := NinetyDayEnding(conditions,
                                      if currency != null then currency.amount else 0.0,
                                      if currency != null then totalEarnings else 0.0,
                                      FinalLetter(old(prefs.entries)));
        endingTriggered && requestedEnding == Some(ending) && playingEnding == PlayedFor(ending, old(playingEnding)) &&
        prefs.entries == GradeStored(old(prefs.entries))
    {
      currentDay := currentDay + 1;
      if currentDay >= maxDays && !endingTriggered {
        Check90DayEndings(totalEarnings);
      }
    }

    /**
     * `CheckForEndings`: a dead character gets a death ending (health first) and nothing else is
     * checked; a living one may get the street ending for expired bills.
     */
    method CheckForEndings()
      requires character != null
      modifies this`endingTriggered, this`playingEnding, this`requestedEnding
      ensures old(endingTriggered) ==> endingTriggered && requestedEnding == old(requestedEnding) && playingEnding == old(playingEnding)
      ensures !old(endingTriggered) ==>
        var request := CheckedEnding();
        (request.Some? ==>
           endingTriggered && requestedEnding == request && playingEnding == PlayedFor(request.value, old(playingEnding))) &&
        (request.None? ==>
           endingTriggered == old(endingTriggered) && requestedEnding == old(requestedEnding) && playingEnding == old(playingEnding))
    {
      if character.isDead {
        if character.Health.IsEmpty() {
          TriggerEnding(StarvingDeath);
        } else if character.Happiness.IsEmpty() {
          TriggerEnding(MentalIllnessDeath);
        }
        return;
      }
      if conditions.checkExpiredBills {
        CheckExpiredBillsCondition();
      }
    }

    /** What `CheckExpiredBillsCondition` looks for: a bill panel holding an expired, unpaid bill. */
    predicate BillLapsed() reads billPanel, dayTimeSystem, if billPanel != null then billPanel.activeBills else []
    {
      billPanel != null && exists i :: 0 <= i < |billPanel.activeBills| && Lapsed(billPanel.activeBills[i], dayTimeSystem)
    }

    /** The ending `CheckForEndings` requests: a death ending, else the street ending for lapsed bills. */
    function CheckedEnding(): Option<EndingType>
      reads character, if character != null then {character.Health, character.Happiness} else {}
      reads billPanel, dayTimeSystem, if billPanel != null then billPanel.activeBills else []
    {
      if character == null then None
      else EndingsRequest(character.isDead, character.Health.IsEmpty(), character.Happiness.IsEmpty(),
                          conditions.checkExpiredBills && BillLapsed())
    }

    method CheckExpiredBillsCondition()
      modifies this`endingTriggered, this`playingEnding, this`requestedEnding
      ensures var expired := BillLapsed();
        (expired ==> endingTriggered && (old(endingTriggered) ==> requestedEnding == old(requestedEnding)) &&
                     (!old(endingTriggered) ==> requestedEnding == Some(SleepOnStreet) &&
                                                playingEnding == PlayedFor(SleepOnStreet, old(playingEnding)))) &&
        (!expired ==> endingTriggered == old(endingTriggered) && requestedEnding == old(requestedEnding) &&
                      playingEnding == old(playingEnding))
      ensures old(endingTriggered) ==> requestedEnding == old(requestedEnding) && playingEnding == old(playingEnding)
    {
      if billPanel != null {
        var hasExpiredBills := billPanel.HasExpiredBills(dayTimeSystem);
        if hasExpiredBills {
          ghost var k :| 0 <= k < |billPanel.activeBills| && Lapsed(billPanel.activeBills[k], dayTimeSystem);
          TriggerEnding(SleepOnStreet);
          assert Lapsed(billPanel.activeBills[k], dayTimeSystem);
        }
      }
    }

    /** The day (1-based) and hour the deadline check uses: the clock's, else this manager's day at 00:00. */
    function DeadlineDay(): int reads this`currentDay, dayTimeSystem
    {
      if dayTimeSystem != null then dayTimeSystem.days + 1 else currentDay
    }

    function DeadlineHour(): real reads dayTimeSystem
    {
      if dayTimeSystem != null then dayTimeSystem.Hours() else 0.0
    }

    /** What `CheckExaminationDeadlines` looks for: deadline checks are on and an exam deadline is missed. */
    predicate DeadlineMissed() reads this`currentDay, prefs, dayTimeSystem
    {
      conditions.checkMissedExaminations &&
      (MidtermMissed(conditions, prefs.entries, DeadlineDay(), DeadlineHour()) ||
       FinalMissed(conditions, prefs.entries, DeadlineDay(), DeadlineHour()))
    }

    /** `CheckExaminationDeadlines`: a missed exam deadline triggers the fast-food ending. */
    method CheckExaminationDeadlines()
      modifies this`endingTriggered, this`playingEnding, this`requestedEnding
      ensures var missed := DeadlineMissed();
        (missed && !old(endingTriggered) ==>
          endingTriggered && requestedEnding == Some(FastFoodWorker) && playingEnding == PlayedFor(FastFoodWorker, old(playingEnding))) &&
        (!missed || old(endingTriggered) ==>
          endingTriggered == old(endingTriggered) && requestedEnding == old(requestedEnding) && playingEnding == old(playingEnding))
    {
      if !conditions.checkMissedExaminations {
        return;
      }
      var day := if dayTimeSystem != null then dayTimeSystem.days + 1 else currentDay;
      var hour := if dayTimeSystem != null then dayTimeSystem.Hours() else 0.0;
      var midtermMissed := MidtermMissed(conditions, prefs.entries, day, hour);
      var finalMissed := FinalMissed(conditions, prefs.entries, day, hour);
      if midtermMissed || finalMissed {
        TriggerEnding(FastFoodWorker);
      }
    }

    /**
     * `Update`: endings are checked only until one has been triggered; a frame requests the
     * ending `CheckForEndings` finds (with a character), else the fast-food ending for a missed
     * examination deadline.
     */
    method Update()
      modifies this`endingTriggered, this`playingEnding, this`requestedEnding
      ensures old(endingTriggered) ==>
        endingTriggered && requestedEnding == old(requestedEnding) && playingEnding == old(playingEnding)
      ensures !old(endingTriggered) ==>
        var request := FrameRequest(CheckedEnding(), DeadlineMissed());
        (request.Some? ==>
           endingTriggered && requestedEnding == request && playingEnding == PlayedFor(request.value, old(playingEnding))) &&
        (request.None? ==>
           !endingTriggered && requestedEnding == old(requestedEnding) && playingEnding == old(playingEnding))
    {
      if !endingTriggered && character != null {
        CheckForEndings();
      }
      if !endingTriggered {
        CheckExaminationDeadlines();
      }
    }
  }
}
