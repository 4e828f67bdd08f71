// Exam constants, the letter grade and the weighted final grade (QuizUtility.cs).
module QuizUtility {
  const MidtermScorePrefKey := "Exam_Midterm_Score"
  const FinalScorePrefKey := "Exam_Final_Score"
  const MidtermCompletedPrefKey := "Exam_Midterm_Completed"
  const FinalCompletedPrefKey := "Exam_Final_Completed"
  const TotalGradePrefKey := "Exam_Total_Grade"

  /** The five exam keys are pairwise different. */
  lemma ExamKeysDistinct()
    ensures MidtermScorePrefKey != FinalScorePrefKey && MidtermScorePrefKey != MidtermCompletedPrefKey
    ensures MidtermScorePrefKey != FinalCompletedPrefKey && MidtermScorePrefKey != TotalGradePrefKey
    ensures FinalScorePrefKey != MidtermCompletedPrefKey && FinalScorePrefKey != FinalCompletedPrefKey
    ensures FinalScorePrefKey != TotalGradePrefKey && MidtermCompletedPrefKey != FinalCompletedPrefKey
    ensures MidtermCompletedPrefKey != TotalGradePrefKey && FinalCompletedPrefKey != TotalGradePrefKey
  {
    assert FinalScorePrefKey[5] != TotalGradePrefKey[5];
  }

  const MidtermWeight: real := 0.3
  const FinalWeight: real := 0.7

  const GradeA: real := 90.0
  const GradeB: real := 80.0
  const GradeC: real := 70.0
  const GradeD: real := 60.0

  /** The letter for a percentage: A from 90, B from 80, C from 70, D from 60, else F. */
  function GetLetterGrade(percentage: real): (g: string)
    ensures g == "A" <==> percentage >= 90.0
    ensures g == "B" <==> 80.0 <= percentage < 90.0
    ensures g == "C" <==> 70.0 <= percentage < 80.0
    ensures g == "D" <==> 60.0 <= percentage < 70.0
    ensures g == "F" <==> percentage < 60.0
  {
    if percentage >= GradeA then "A"
    else if percentage >= GradeB then "B"
    else if percentage >= GradeC then "C"
    else if percentage >= GradeD then "D"
    else "F"
  }

  /** The rank of a letter produced by `GetLetterGrade`: F is 0 up to A at 4. */
  function LetterRank(g: string): int
  {
    if g == "A" then 4 else if g == "B" then 3 else if g == "C" then 2 else if g == "D" then 1 else 0
  }

  /** A higher percentage never yields a worse letter. */
  lemma LetterGradeMonotone(p: real, q: real)
    requires p <= q
    ensures LetterRank(GetLetterGrade(p)) <= LetterRank(GetLetterGrade(q))
  {
  }

  /** 30% of the midterm percentage plus 70% of the final percentage. */
  function CalculateFinalGrade(midtermScore: real, finalScore: real, midtermMax: real, finalMax: real): real
    requires midtermMax != 0.0 && finalMax != 0.0
  {
    var midtermPercentage := (midtermScore / midtermMax) * 100.0;
    var finalPercentage := (finalScore / finalMax) * 100.0;
    midtermPercentage * MidtermWeight + finalPercentage * FinalWeight
  }

  lemma RatioInUnit(score: real, max: real)
    requires 0.0 <= score <= max && max > 0.0
    ensures 0.0 <= score / max <= 1.0
  {
    assert score / max * max == score;
  }

  /** Scores within their maxima give a final grade within [0, 100]. */
  lemma FinalGradeBounds(midtermScore: real, finalScore: real, midtermMax: real, finalMax: real)
    requires 0.0 <= midtermScore <= midtermMax && midtermMax > 0.0
    requires 0.0 <= finalScore <= finalMax && finalMax > 0.0
    ensures 0.0 <= CalculateFinalGrade(midtermScore, finalScore, midtermMax, finalMax) <= 100.0
  {
    RatioInUnit(midtermScore, midtermMax);
    RatioInUnit(finalScore, finalMax);
  }

  /** Full marks on both exams give exactly 100, an A. */
  lemma FullMarksGiveA(midtermMax: real, finalMax: real)
    requires midtermMax > 0.0 && finalMax > 0.0
    ensures CalculateFinalGrade(midtermMax, finalMax, midtermMax, finalMax) == 100.0
    ensures GetLetterGrade(CalculateFinalGrade(midtermMax, finalMax, midtermMax, finalMax)) == "A"
  {
    assert midtermMax / midtermMax == 1.0;
    assert finalMax / finalMax == 1.0;
  }

  /** The final exam weighs more: the same percentage lost on it costs more than on the midterm. */
  lemma FinalWeighsMore(m: real, f: real, d: real)
    requires d > 0.0
    ensures CalculateFinalGrade(m - d, f, 100.0, 100.0) > CalculateFinalGrade(m, f - d, 100.0, 100.0)
  {
  }
}
