// The exam flow: question filtering, answer picking, scoring, completion and results (QuizManager.cs).
module Quiz {
  import opened Common
  import opened Prefs
  import opened QuizUtility

  datatype ExaminationType = Midterm | Final

  datatype AnswerType = Single | Multiple

  /**
   * A question as the exam uses it: its exam, its answer type, the indices of its correct
   * answers and the points it adds when answered correctly.
   */
  datatype Question = Question(examinationType: ExaminationType, answerType: AnswerType,
                               correctAnswers: seq<int>, addScore: int)

  /** `Where(q => q.ExaminationType == t)`: the questions of one exam, in order. */
  function Filtered(questions: seq<Question>, t: ExaminationType): (r: seq<Question>)
    ensures forall q :: q in r <==> q in questions && q.examinationType == t
    ensures |r| <= |questions|
  {
    if |questions| == 0 then []
    else
      var rest := Filtered(questions[..|questions| - 1], t);
      var last := questions[|questions| - 1];
      assert questions == questions[..|questions| - 1] + [last];
      if last.examinationType == t then rest + [last] else rest
  }

  /** The sum of `AddScore` over the questions. */
  function SumScores(questions: seq<Question>): int
  {
    if |questions| == 0 then 0 else SumScores(questions[..|questions| - 1]) + questions[|questions| - 1].addScore
  }

  /** With non-negative points, every score sum is non-negative. */
  lemma {:induction false} SumScoresNonNegative(questions: seq<Question>)
    requires forall i :: 0 <= i < |questions| ==> questions[i].addScore >= 0
    ensures SumScores(questions) >= 0
  {
    if |questions| > 0 {
      SumScoresNonNegative(questions[..|questions| - 1]);
    }
  }

  /** Every question belongs to one exam, so the two maxima add up to the whole bank. */
  lemma {:induction false} ExamMaximaPartition(questions: seq<Question>)
    ensures SumScores(Filtered(questions, Midterm)) + SumScores(Filtered(questions, Final)) == SumScores(questions)
    ensures |Filtered(questions, Midterm)| + |Filtered(questions, Final)| == |questions|
  {
    if |questions| > 0 {
      var init := questions[..|questions| - 1];
      ExamMaximaPartition(init);
      var last := questions[|questions| - 1];
      if last.examinationType == Midterm {
        assert (Filtered(init, Midterm) + [last])[..|Filtered(init, Midterm)|] == Filtered(init, Midterm);
      } else {
        assert (Filtered(init, Final) + [last])[..|Filtered(init, Final)|] == Filtered(init, Final);
      }
    }
  }

  /** `UpdateAnswers` on a multi-answer question: remove the answer if picked, else add it. */
  function Toggle(picked: seq<int>, answer: int): (r: seq<int>)
    ensures answer !in picked ==> r == picked + [answer]
    ensures answer in picked ==> multiset(r) == multiset(picked) - multiset{answer}
  {
    if answer in picked then RemoveFirst(picked, answer) else picked + [answer]
  }

  predicate NoDuplicates(s: seq<int>)
  {
    forall i, j :: 0 <= i < j < |s| ==> s[i] != s[j]
  }

  lemma NoDuplicatesCount(s: seq<int>, x: int)
    requires NoDuplicates(s)
    ensures multiset(s)[x] <= 1
  {
    if x in s {
      var i :| 0 <= i < |s| && s[i] == x;
      assert s == s[..i] + [x] + s[i + 1..];
      assert x !in s[..i] && x !in s[i + 1..];
      assert multiset(s[..i])[x] == 0 && multiset(s[i + 1..])[x] == 0;
    }
  }

  /** Without duplicates, toggling flips the membership of that answer and keeps the others. */
  lemma ToggleMembership(picked: seq<int>, answer: int, other: int)
    requires NoDuplicates(picked)
    ensures answer in Toggle(picked, answer) <==> answer !in picked
    ensures other != answer ==> (other in Toggle(picked, answer) <==> other in picked)
  {
    if answer in picked {
      NoDuplicatesCount(picked, answer);
      var r := Toggle(picked, answer);
      assert multiset(r)[answer] == 0;
      assert other != answer ==> multiset(r)[other] == multiset(picked)[other];
    }
  }

  /** Picking an unpicked answer twice restores the list exactly. */
  lemma ToggleTwice(picked: seq<int>, answer: int)
    requires answer !in picked
    ensures Toggle(Toggle(picked, answer), answer) == picked
  {
    RemoveFirstLast(picked, answer);
  }

  lemma {:induction false} RemoveFirstLast(s: seq<int>, x: int)
    requires x !in s
    ensures RemoveFirst(s + [x], x) == s
  {
    if |s| > 0 {
      assert (s + [x])[1..] == s[1..] + [x];
      RemoveFirstLast(s[1..], x);
    }
  }

  /** `Except`: the entries of a that are not in b. */
  function Except(a: seq<int>, b: seq<int>): (r: seq<int>)
    ensures forall x :: x in r <==> x in a && x !in b
  {
    if |a| == 0 then []
    else if a[0] in b then Except(a[1..], b)
    else [a[0]] + Except(a[1..], b)
  }

  /** The values a list holds. */
  function SetOf(s: seq<int>): (r: set<int>)
    ensures forall x :: x in r <==> x in s
  {
    set x | x in s
  }

  /** Both differences are empty exactly when the two lists hold the same set of values. */
  lemma ExceptBothEmpty(picked: seq<int>, correct: seq<int>)
    ensures SetOf(picked) == SetOf(correct) <==>
            |Except(correct, picked)| == 0 && |Except(picked, correct)| == 0
  {
    var missingCorrect := Except(correct, picked);
    var extraPicked := Except(picked, correct);
    if |missingCorrect| == 0 && |extraPicked| == 0 {
      assert missingCorrect == [] && extraPicked == [];
      assert SetOf(picked) == SetOf(correct);
    } else if |missingCorrect| != 0 {
      var y := missingCorrect[0];
      assert y in missingCorrect;
      assert y in SetOf(correct) && y !in SetOf(picked);
    } else {
      var y := extraPicked[0];
      assert y in extraPicked;
      assert y in SetOf(picked) && y !in SetOf(correct);
    }
  }

  /**
   * `CompareAnswers`: something is picked, no correct answer is missing and no picked answer
   * is extra, i.e. the picked set is the correct set.
   */
  function CompareAnswers(picked: seq<int>, correct: seq<int>): (r: bool)
    ensures r <==> |picked| > 0 && SetOf(picked) == SetOf(correct)
  {
    if |picked| > 0 then
      var missingCorrect := Except(correct, picked);
      var extraPicked := Except(picked, correct);
      ExceptBothEmpty(picked, correct);
      |missingCorrect| == 0 && |extraPicked| == 0
    else false
  }

  /** Order and repetition of the picks do not matter. */
  lemma CompareAnswersExamples()
    ensures CompareAnswers([2, 0], [0, 2])
    ensures CompareAnswers([1, 1], [1])
    ensures !CompareAnswers([], [])
    ensures !CompareAnswers([0], [0, 1])
  {
    assert (set x | x in [2, 0]) == {0, 2} == (set x | x in [0, 2]);
    assert (set x | x in [1, 1]) == {1} == (set x | x in [1]);
    assert 1 in (set x | x in [0, 1]) && 1 !in (set x | x in [0]);
  }

  function ScoreKey(t: ExaminationType): string
  {
    if t == Midterm then MidtermScorePrefKey else FinalScorePrefKey
  }

  function CompletedKey(t: ExaminationType): string
  {
    if t == Midterm then MidtermCompletedPrefKey else FinalCompletedPrefKey
  }

  /**
   * What `CompleteExam` writes: the score and the completed flag of the exam, and, once both exams
   * are completed, the weighted final grade computed from the stored scores and the question bank.
   */
  function CompletedPrefs(entries: map<string, PrefValue>, t: ExaminationType, score: int,
                          questions: seq<Question>): map<string, PrefValue>
  {
    var e := entries[ScoreKey(t) := IntValue(score)][CompletedKey(t) := IntValue(1)];
    if IntOf(e, MidtermCompletedPrefKey, 0) == 1 && IntOf(e, FinalCompletedPrefKey, 0) == 1 then
      var midtermMaxScore := SumScores(Filtered(questions, Midterm));
      var finalMaxScore := SumScores(Filtered(questions, Final));
      if midtermMaxScore != 0 && finalMaxScore != 0 then
        var finalGrade := CalculateFinalGrade(IntOf(e, MidtermScorePrefKey, 0) as real, IntOf(e, FinalScorePrefKey, 0) as real,
                                              midtermMaxScore as real, finalMaxScore as real);
        e[TotalGradePrefKey := FloatValue(finalGrade)]
      else e
    else e
  }

  /** `EndGameGradeHelper.ExamResults`; an unset letter grade is "". */
  datatype ExamResults = ExamResults(midtermCompleted: bool, finalCompleted: bool, bothExamsCompleted: bool,
                                     midtermScore: int, finalScore: int, finalGrade: real, letterGrade: string)

  /** `GetExamResults`: scores only for completed exams, the grade only when both are completed. */
  function GetExamResults(entries: map<string, PrefValue>): (r: ExamResults)
    ensures r.midtermCompleted <==> IntOf(entries, MidtermCompletedPrefKey, 0) == 1
    ensures r.finalCompleted <==> IntOf(entries, FinalCompletedPrefKey, 0) == 1
    ensures r.bothExamsCompleted <==> r.midtermCompleted && r.finalCompleted
    ensures r.midtermScore == if r.midtermCompleted then IntOf(entries, MidtermScorePrefKey, 0) else 0
    ensures r.finalScore == if r.finalCompleted then IntOf(entries, FinalScorePrefKey, 0) else 0
    ensures !r.bothExamsCompleted ==> r.finalGrade == 0.0 && r.letterGrade == ""
    ensures r.bothExamsCompleted ==>
      r.finalGrade == FloatOf(entries, TotalGradePrefKey, 0.0) && r.letterGrade == GetLetterGrade(r.finalGrade)
  {
    var midtermCompleted := IntOf(entries, MidtermCompletedPrefKey, 0) == 1;
    var finalCompleted := IntOf(entries, FinalCompletedPrefKey, 0) == 1;
    var midtermScore := if midtermCompleted then IntOf(entries, MidtermScorePrefKey, 0) else 0;
    var finalScore := if finalCompleted then IntOf(entries, FinalScorePrefKey, 0) else 0;
    if midtermCompleted && finalCompleted then
      var finalGrade := FloatOf(entries, TotalGradePrefKey, 0.0);
      ExamResults(true, true, true, midtermScore, finalScore, finalGrade, GetLetterGrade(finalGrade))
    else
      ExamResults(midtermCompleted, finalCompleted, false, midtermScore, finalScore, 0.0, "")
  }

  /** Completing an exam stores its score and marks it completed; the other exam's flag is untouched. */
  lemma CompletionRecorded(entries: map<string, PrefValue>, t: ExaminationType, score: int, questions: seq<Question>)
    ensures var e := CompletedPrefs(entries, t, score, questions);
      IntOf(e, CompletedKey(t), 0) == 1 && IntOf(e, ScoreKey(t), 0) == score
    ensures var other := if t == Midterm then Final else Midterm;
      IntOf(CompletedPrefs(entries, t, score, questions), CompletedKey(other), 0) == IntOf(entries, CompletedKey(other), 0)
  {
    ExamKeysDistinct();
    var other := if t == Midterm then Final else Midterm;
    var e := entries[ScoreKey(t) := IntValue(score)][CompletedKey(t) := IntValue(1)];
    var g := if IntOf(e, MidtermCompletedPrefKey, 0) == 1 && IntOf(e, FinalCompletedPrefKey, 0) == 1 &&
                SumScores(Filtered(questions, Midterm)) != 0 && SumScores(Filtered(questions, Final)) != 0
             then CalculateFinalGrade(IntOf(e, MidtermScorePrefKey, 0) as real, IntOf(e, FinalScorePrefKey, 0) as real,
                                      SumScores(Filtered(questions, Midterm)) as real, SumScores(Filtered(questions, Final)) as real)
             else 0.0;
    TwoIntsThenFloat(entries, ScoreKey(t), CompletedKey(t), TotalGradePrefKey, score, 1, g,
                     CompletedKey(other), ScoreKey(other));
  }

  /**
   * Completing the final after the midterm stores the weighted grade of the two stored
   * scores, which is what the results then report, with its letter.
   */
  lemma FinalAfterMidtermGivesGrade(entries: map<string, PrefValue>, score: int, questions: seq<Question>)
    requires IntOf(entries, MidtermCompletedPrefKey, 0) == 1
    requires SumScores(Filtered(questions, Midterm)) != 0 && SumScores(Filtered(questions, Final)) != 0
    ensures var r := GetExamResults(CompletedPrefs(entries, Final, score, questions));
      var grade := CalculateFinalGrade(IntOf(entries, MidtermScorePrefKey, 0) as real, score as real,
                                       SumScores(Filtered(questions, Midterm)) as real,
                                       SumScores(Filtered(questions, Final)) as real);
      r.bothExamsCompleted && r.finalScore == score && r.finalGrade == grade &&
      r.letterGrade == GetLetterGrade(grade)
  {
    ExamKeysDistinct();
    var e := entries[FinalScorePrefKey := IntValue(score)][FinalCompletedPrefKey := IntValue(1)];
    var grade := CalculateFinalGrade(IntOf(entries, MidtermScorePrefKey, 0) as real, score as real,
                                     SumScores(Filtered(questions, Midterm)) as real,
                                     SumScores(Filtered(questions, Final)) as real);
    TwoIntsThenFloat(entries, FinalScorePrefKey, FinalCompletedPrefKey, TotalGradePrefKey, score, 1, grade,
                     MidtermScorePrefKey, MidtermCompletedPrefKey);
    assert CompletedPrefs(entries, Final, score, questions) == e[TotalGradePrefKey := FloatValue(grade)];
  }

  /** Two ints and then a float written under three distinct keys: each reads back, other keys are kept. */
  lemma TwoIntsThenFloat(entries: map<string, PrefValue>, k1: string, k2: string, k3: string, v1: int, v2: int, x: real,
                         o1: string, o2: string)
    requires k1 != k2 && k1 != k3 && k2 != k3
    requires o1 != k1 && o1 != k2 && o1 != k3 && o2 != k1 && o2 != k2 && o2 != k3
    ensures var e := entries[k1 := IntValue(v1)][k2 := IntValue(v2)];
      IntOf(e, k1, 0) == v1 && IntOf(e, k2, 0) == v2 &&
      IntOf(e, o1, 0) == IntOf(entries, o1, 0) && IntOf(e, o2, 0) == IntOf(entries, o2, 0)
    ensures var e := entries[k1 := IntValue(v1)][k2 := IntValue(v2)][k3 := FloatValue(x)];
      IntOf(e, k1, 0) == v1 && IntOf(e, k2, 0) == v2 && FloatOf(e, k3, 0.0) == x &&
      IntOf(e, o1, 0) == IntOf(entries, o1, 0) && IntOf(e, o2, 0) == IntOf(entries, o2, 0)
  {
  }

  /** Completing the midterm alone never produces the final grade. */
  lemma MidtermAloneNoGrade(entries: map<string, PrefValue>, score: int, questions: seq<Question>)
    requires IntOf(entries, FinalCompletedPrefKey, 0) != 1
    ensures !GetExamResults(CompletedPrefs(entries, Midterm, score, questions)).bothExamsCompleted
    ensures CompletedPrefs(entries, Midterm, score, questions) ==
            entries[MidtermScorePrefKey := IntValue(score)][MidtermCompletedPrefKey := IntValue(1)]
  {
  }

  const ExamKeys: set<string> :=
    {MidtermScorePrefKey, FinalScorePrefKey, MidtermCompletedPrefKey, FinalCompletedPrefKey, TotalGradePrefKey}

  /** After `ResetAllExams` nothing is completed, and either exam may be taken again. */
  lemma ResetClearsResults(entries: map<string, PrefValue>)
    ensures GetExamResults(entries - ExamKeys) == ExamResults(false, false, false, 0, 0, 0.0, "")
  {
    var e := entries - ExamKeys;
    assert MidtermCompletedPrefKey !in e && FinalCompletedPrefKey !in e;
  }

  /** `StartMidtermExam` proceeds unless the midterm's flag is 1. */
  predicate MidtermMayStart(entries: map<string, PrefValue>)
  {
    IntOf(entries, MidtermCompletedPrefKey, 0) != 1
  }

  /** `StartFinalExam` needs a midterm flag other than 0 and a final flag other than 1. */
  predicate FinalMayStart(entries: map<string, PrefValue>)
  {
    IntOf(entries, MidtermCompletedPrefKey, 0) != 0 && IntOf(entries, FinalCompletedPrefKey, 0) != 1
  }

  /** The final cannot start before the midterm is completed, and no exam starts again once completed. */
  lemma ExamGating(entries: map<string, PrefValue>, score: int, questions: seq<Question>)
    ensures !FinalMayStart(map[])
    ensures !MidtermMayStart(CompletedPrefs(entries, Midterm, score, questions))
    ensures !FinalMayStart(CompletedPrefs(entries, Final, score, questions))
    ensures IntOf(entries, FinalCompletedPrefKey, 0) != 1 ==> FinalMayStart(CompletedPrefs(entries, Midterm, score, questions))
  {
    CompletionRecorded(entries, Midterm, score, questions);
    CompletionRecorded(entries, Final, score, questions);
  }

  /** While fewer questions are finished than exist, some index is unused. */
  lemma {:induction false} SomeIndexUnused(finished: seq<int>, n: nat)
    requires |finished| < n
    ensures exists k :: 0 <= k < n && k !in finished
    decreases n
  {
    if n - 1 in finished {
      var rest := RemoveFirst(finished, n - 1);
      SomeIndexUnused(rest, n - 1);
      var k :| 0 <= k < n - 1 && k !in rest;
      assert multiset(rest)[k] == multiset(finished)[k];
      assert k !in finished;
    } else {
      assert 0 <= n - 1 < n;
    }
  }

  class QuizManager {
    var questions: seq<Question>
    var filteredQuestions: seq<Question>
    var currentExaminationType: ExaminationType
    var pickedAnswers: seq<int>
    var finishedQuestions: seq<int>
    var currentQuestion: int
    var maxPossibleScore: int
    var quizStarted: bool
    /** The score of the running exam, held by the shared quiz events in the game. */
    var currentFinalScore: int
    const prefs: PlayerPrefs

    /** `Awake` then `Start`: the questions are loaded, filtered for the midterm and summed. */
    constructor (loaded: seq<Question>, prefs: PlayerPrefs)
      ensures this.prefs == prefs && questions == loaded && currentExaminationType == Midterm
      ensures filteredQuestions == (if |loaded| == 0 then [] else Filtered(loaded, Midterm))
      ensures maxPossibleScore == SumScores(filteredQuestions)
      ensures !quizStarted && currentFinalScore == 0 && pickedAnswers == [] && finishedQuestions == []
      ensures currentQuestion == 0
    {
      this.prefs := prefs;
      questions := loaded;
      currentExaminationType := Midterm;
      pickedAnswers := [];
      finishedQuestions := [];
      currentQuestion := 0;
      quizStarted := false;
      currentFinalScore := 0;
      var filtered := if |loaded| == 0 then [] else Filtered(loaded, Midterm);
      var maxScore := AddUpScores(filtered);
      filteredQuestions := filtered;
      maxPossibleScore := maxScore;
    }

    /** `IsFinished`: at least as many finished questions as questions in the exam. */
    predicate IsFinished() reads this
    {
      |finishedQuestions| >= |filteredQuestions|
    }

    predicate IsMidtermCompleted() reads prefs { IntOf(prefs.entries, MidtermCompletedPrefKey, 0) == 1 }

    predicate IsFinalCompleted() reads prefs { IntOf(prefs.entries, FinalCompletedPrefKey, 0) == 1 }

    function GetFinalGrade(): real reads prefs { FloatOf(prefs.entries, TotalGradePrefKey, 0.0) }

    /** `FilterQuestionsByExamType`: an empty bank leaves the previous selection in place. */
    method FilterQuestionsByExamType()
      modifies this`filteredQuestions
      ensures |questions| == 0 ==> filteredQuestions == old(filteredQuestions)
      ensures |questions| > 0 ==> filteredQuestions == Filtered(questions, currentExaminationType)
    {
      if |questions| == 0 {
        return;
      }
      filteredQuestions := Filtered(questions, currentExaminationType);
    }

    /** `CalculateMaxScore`: the points of the exam's questions added up. */
    method CalculateMaxScore()
      modifies this`maxPossibleScore
      ensures maxPossibleScore == SumScores(filteredQuestions)
    {
      maxPossibleScore := AddUpScores(filteredQuestions);
    }

    /** The loop of `CalculateMaxScore`: each question's points added in turn. */
    static method AddUpScores(questions: seq<Question>) returns (total: int)
      ensures total == SumScores(questions)
    {
      total := 0;
      var i := 0;
      while i < |questions|
        invariant 0 <= i <= |questions|
        invariant total == SumScores(questions[..i])
      {
        assert questions[..i + 1][..i] == questions[..i];
        total := total + questions[i].addScore;
        i := i + 1;
      }
      assert questions[..i] == questions;
    }

    /**
     * `UpdateAnswers`: ignored outside an exam; a single-answer question keeps only the new
     * answer, a multi-answer question toggles it.
     */
    method UpdateAnswers(newAnswer: int)
      requires quizStarted ==> 0 <= currentQuestion < |filteredQuestions|
      modifies this`pickedAnswers
      ensures !quizStarted ==> pickedAnswers == old(pickedAnswers)
      ensures quizStarted && filteredQuestions[currentQuestion].answerType == Single ==> pickedAnswers == [newAnswer]
      ensures quizStarted && filteredQuestions[currentQuestion].answerType == Multiple ==>
        pickedAnswers == Toggle(old(pickedAnswers), newAnswer)
    {
      if !quizStarted {
        return;
      }
      if filteredQuestions[currentQuestion].answerType == Single {
        pickedAnswers := [newAnswer];
      } else {
        var alreadyPicked := newAnswer in pickedAnswers;
        if alreadyPicked {
          pickedAnswers := RemoveFirst(pickedAnswers, newAnswer);
        } else {
          pickedAnswers := pickedAnswers + [newAnswer];
        }
      }
    }

    method EraseAnswers()
      modifies this`pickedAnswers
      ensures pickedAnswers == []
    {
      pickedAnswers := [];
    }

    /** `GetRandomQuestionIndex`: some unfinished index while questions remain, else 0. */
    method GetRandomQuestionIndex() returns (index: int)
      ensures |finishedQuestions| < |filteredQuestions| ==>
        0 <= index < |filteredQuestions| && index !in finishedQuestions
      ensures |finishedQuestions| >= |filteredQuestions| ==> index == 0
    {
      index := 0;
      if |finishedQuestions| < |filteredQuestions| {
        SomeIndexUnused(finishedQuestions, |filteredQuestions|);
        index :| 0 <= index < |filteredQuestions| && index !in finishedQuestions;
      }
    }

    /** `Display`: during an exam, clear the picks and move to an unfinished question if any is left. */
    method Display()
      modifies this`pickedAnswers, this`currentQuestion
      ensures !quizStarted ==> pickedAnswers == old(pickedAnswers) && currentQuestion == old(currentQuestion)
      ensures quizStarted ==> pickedAnswers == []
      ensures quizStarted && !IsFinished() ==>
        0 <= currentQuestion < |filteredQuestions| && currentQuestion !in finishedQuestions
      ensures IsFinished() ==> currentQuestion == old(currentQuestion)
    {
      if !quizStarted {
        return;
      }
      EraseAnswers();
      if IsFinished() {
        return;
      }
      currentQuestion := GetRandomQuestionIndex();
    }

    /**
     * The state a fresh run of the current exam type starts in: no score, nothing finished or
     * picked, the exam's questions selected and summed (an empty bank keeps `previous`) and a
     * valid current question when there is one.
     */
    predicate FreshRun(previous: seq<Question>) reads this
    {
      quizStarted && currentFinalScore == 0 && finishedQuestions == [] && pickedAnswers == [] &&
      (|questions| > 0 ==> filteredQuestions == Filtered(questions, currentExaminationType)) &&
      (|questions| == 0 ==> filteredQuestions == previous) &&
      maxPossibleScore == SumScores(filteredQuestions) &&
      (|filteredQuestions| > 0 ==> 0 <= currentQuestion < |filteredQuestions|) &&
      (|filteredQuestions| == 0 ==> currentQuestion == 0)
    }

    /** `StartExam`: a fresh run of the current exam type, unless one is already running. */
    method StartExam()
      modifies this`quizStarted, this`currentFinalScore, this`finishedQuestions, this`pickedAnswers,
               this`currentQuestion, this`filteredQuestions, this`maxPossibleScore
      ensures old(quizStarted) ==> unchanged(this)
      ensures !old(quizStarted) ==> FreshRun(old(filteredQuestions))
    {
      if quizStarted {
        return;
      }
      BeginExam();
    }

    /** The body of `StartExam` once no exam is running. */
    method BeginExam()
      modifies this`quizStarted, this`currentFinalScore, this`finishedQuestions, this`pickedAnswers,
               this`currentQuestion, this`filteredQuestions, this`maxPossibleScore
      ensures FreshRun(old(filteredQuestions))
    {
      quizStarted := true;
      currentFinalScore := 0;
      finishedQuestions := [];
      EraseAnswers();
      currentQuestion := 0;
      FilterQuestionsByExamType();
      CalculateMaxScore();
      ghost var filtered, maxScore := filteredQuestions, maxPossibleScore;
      assert IsFinished() <==> |filtered| == 0;
      Display();
      assert filteredQuestions == filtered && maxPossibleScore == maxScore;
    }

    /**
     * `StartMidtermExam`: refused, changing nothing, once the midterm is completed; otherwise the
     * midterm becomes the current exam and starts fresh unless an exam is already running.
     */
    method StartMidtermExam()
      modifies this`currentExaminationType, this`quizStarted, this`currentFinalScore, this`finishedQuestions,
               this`pickedAnswers, this`currentQuestion, this`filteredQuestions, this`maxPossibleScore
      ensures !MidtermMayStart(prefs.entries) ==> unchanged(this)
      ensures MidtermMayStart(prefs.entries) ==> currentExaminationType == Midterm
      ensures MidtermMayStart(prefs.entries) && old(quizStarted) ==>
        quizStarted && currentFinalScore == old(currentFinalScore) && finishedQuestions == old(finishedQuestions) &&
        pickedAnswers == old(pickedAnswers) && currentQuestion == old(currentQuestion) &&
        filteredQuestions == old(filteredQuestions) && maxPossibleScore == old(maxPossibleScore)
      ensures MidtermMayStart(prefs.entries) && !old(quizStarted) ==> FreshRun(old(filteredQuestions))
    {
      if IntOf(prefs.entries, MidtermCompletedPrefKey, 0) == 1 {
        return;
      }
      currentExaminationType := Midterm;
      StartExam();
    }

    /**
     * `StartFinalExam`: refused, changing nothing, before the midterm is completed or once the
     * final is; otherwise the final becomes the current exam and starts fresh unless an exam is
     * already running.
     */
    method StartFinalExam()
      modifies this`currentExaminationType, this`quizStarted, this`currentFinalScore, this`finishedQuestions,
               this`pickedAnswers, this`currentQuestion, this`filteredQuestions, this`maxPossibleScore
      ensures !FinalMayStart(prefs.entries) ==> unchanged(this)
      ensures FinalMayStart(prefs.entries) ==> currentExaminationType == Final
      ensures FinalMayStart(prefs.entries) && old(quizStarted) ==>
        quizStarted && currentFinalScore == old(currentFinalScore) && finishedQuestions == old(finishedQuestions) &&
        pickedAnswers == old(pickedAnswers) && currentQuestion == old(currentQuestion) &&
        filteredQuestions == old(filteredQuestions) && maxPossibleScore == old(maxPossibleScore)
      ensures FinalMayStart(prefs.entries) && !old(quizStarted) ==> FreshRun(old(filteredQuestions))
    {
      if IntOf(prefs.entries, MidtermCompletedPrefKey, 0) == 0 {
        return;
      }
      if IntOf(prefs.entries, FinalCompletedPrefKey, 0) == 1 {
        return;
      }
      currentExaminationType := Final;
      StartExam();
    }

    /** `CompleteExam` with `CalculateAndSaveFinalGrade`. */
    method CompleteExam()
      modifies prefs
      ensures prefs.entries == CompletedPrefs(old(prefs.entries), currentExaminationType, currentFinalScore, questions)
    {
      var scoreKey := ScoreKey(currentExaminationType);
      var completedKey := CompletedKey(currentExaminationType);
      prefs.SetInt(scoreKey, currentFinalScore);
      prefs.SetInt(completedKey, 1);
      if prefs.GetInt(MidtermCompletedPrefKey, 0) == 1 && prefs.GetInt(FinalCompletedPrefKey, 0) == 1 {
        CalculateAndSaveFinalGrade();
      }
    }

    method CalculateAndSaveFinalGrade()
      modifies prefs
      ensures var midtermMaxScore := SumScores(Filtered(questions, Midterm));
        var finalMaxScore := SumScores(Filtered(questions, Final));
        if midtermMaxScore != 0 && finalMaxScore != 0 then
          prefs.entries == old(prefs.entries)[TotalGradePrefKey := FloatValue(
            CalculateFinalGrade(old(prefs.GetInt(MidtermScorePrefKey, 0)) as real, old(prefs.GetInt(FinalScorePrefKey, 0)) as real,
                                midtermMaxScore as real, finalMaxScore as real))]
        else prefs.entries == old(prefs.entries)
    {
      var midtermScore := prefs.GetInt(MidtermScorePrefKey, 0);
      var finalScore := prefs.GetInt(FinalScorePrefKey, 0);
      var midtermMaxScore := SumScores(Filtered(questions, Midterm));
      var finalMaxScore := SumScores(Filtered(questions, Final));
      if midtermMaxScore != 0 && finalMaxScore != 0 {
        var finalGrade := CalculateFinalGrade(midtermScore as real, finalScore as real, midtermMaxScore as real, finalMaxScore as real);
        prefs.SetFloat(TotalGradePrefKey, finalGrade);
      }
    }

    /**
     * `Accept`: record the current question as finished, add its points when the picks are
     * correct, and complete the exam once every question is finished.
     */
    method Accept()
      requires quizStarted ==> 0 <= currentQuestion < |filteredQuestions|
      modifies this`finishedQuestions, this`currentFinalScore, this`quizStarted, prefs
      ensures !old(quizStarted) ==>
        finishedQuestions == old(finishedQuestions) && currentFinalScore == old(currentFinalScore) &&
        prefs.entries == old(prefs.entries) && !quizStarted
      ensures old(quizStarted) ==> finishedQuestions == old(finishedQuestions) + [currentQuestion]
      ensures old(quizStarted) ==>
        currentFinalScore == old(currentFinalScore) +
          (if CompareAnswers(pickedAnswers, filteredQuestions[currentQuestion].correctAnswers)
           then filteredQuestions[currentQuestion].addScore else 0)
      ensures old(quizStarted) && IsFinished() ==>
        !quizStarted && prefs.entries == CompletedPrefs(old(prefs.entries), currentExaminationType, currentFinalScore, questions)
      ensures old(quizStarted) && !IsFinished() ==> quizStarted && prefs.entries == old(prefs.entries)
    {
      if !quizStarted {
        return;
      }
      var isCorrect := CompareAnswers(pickedAnswers, filteredQuestions[currentQuestion].correctAnswers);
      finishedQuestions := finishedQuestions + [currentQuestion];
      if isCorrect {
        currentFinalScore := currentFinalScore + filteredQuestions[currentQuestion].addScore;
      }
      if IsFinished() {
        CompleteExam();
        quizStarted := false;
      }
    }

    /** `ResetAllExams`: every exam key is deleted. */
    method ResetAllExams()
      modifies prefs
      ensures prefs.entries == old(prefs.entries) - ExamKeys
    {
      prefs.DeleteKey(MidtermScorePrefKey);
      prefs.DeleteKey(FinalScorePrefKey);
      prefs.DeleteKey(MidtermCompletedPrefKey);
      prefs.DeleteKey(FinalCompletedPrefKey);
      prefs.DeleteKey(TotalGradePrefKey);
    }
  }
}
