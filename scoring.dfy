/**
 * Answer grading (src/logic/scoring.ts): an answer is correct when it equals
 * the expected answer after trimming both; a correct answer scores 10, plus a
 * 3-point speed bonus when answered within the threshold for its mode and
 * difficulty; a wrong answer scores -5.
 */
module Scoring {
  import opened Quiz
  import opened Text

  const CorrectPoints: int := 10
  const WrongPoints: int := -5
  const SpeedBonus: int := 3

  /** `getSpeedThresholdMs`: the time within which a correct answer earns the bonus. */
  function SpeedThresholdMs(mode: Mode, difficulty: Difficulty): (t: int)
    ensures 8000 <= t <= 22000
  {
    match mode
    case Arithmetic =>
      (match difficulty
       case Easy => 8000
       case Medium => 12000
       case Hard => 15000)
    case Equation =>
      (match difficulty
       case Easy => 12000
       case Medium => 18000
       case Hard => 22000)
  }

  /** The rank of a difficulty, for comparing them. */
  function Level(d: Difficulty): nat
  {
    match d
    case Easy => 0
    case Medium => 1
    case Hard => 2
  }

  /**
   * Harder questions leave more time for the bonus, and an equation leaves at
   * least as much time as an arithmetic question of the same difficulty.
   */
  lemma ThresholdsMonotone(mode: Mode, d1: Difficulty, d2: Difficulty)
    ensures Level(d1) < Level(d2) ==> SpeedThresholdMs(mode, d1) < SpeedThresholdMs(mode, d2)
    ensures SpeedThresholdMs(Arithmetic, d1) <= SpeedThresholdMs(Equation, d1)
  {
  }

  /** `correctAnswer: number | string` (the generators produce integers). */
  datatype AnswerValue = NumberAnswer(n: int) | TextAnswer(s: string)

  /** `String(correctAnswer)`. */
  function AnswerText(a: AnswerValue): string
  {
    match a
    case NumberAnswer(n) => IntToString(n)
    case TextAnswer(s) => s
  }

  datatype ScoringResult = ScoringResult(isCorrect: bool, correctAnswer: string, scoreDelta: int)

  /** `gradeAnswer`. */
  function GradeAnswer(mode: Mode, difficulty: Difficulty, correctAnswer: AnswerValue,
                       userAnswer: string, elapsedMs: int): (r: ScoringResult)
    ensures r.correctAnswer == Trim(AnswerText(correctAnswer))
    ensures r.isCorrect <==> Trim(userAnswer) == Trim(AnswerText(correctAnswer))
    ensures !r.isCorrect ==> r.scoreDelta == WrongPoints
    ensures r.isCorrect ==>
              r.scoreDelta == (if 0 < elapsedMs <= SpeedThresholdMs(mode, difficulty)
                               then CorrectPoints + SpeedBonus else CorrectPoints)
  {
    var canonicalCorrect := Trim(AnswerText(correctAnswer));
    var canonicalUser := Trim(userAnswer);
    var isCorrect := canonicalUser == canonicalCorrect;
    var base := if isCorrect then CorrectPoints else WrongPoints;
    var scoreDelta :=
      if isCorrect && elapsedMs > 0 && elapsedMs <= SpeedThresholdMs(mode, difficulty)
      then base + SpeedBonus else base;
    ScoringResult(isCorrect, canonicalCorrect, scoreDelta)
  }

  /** Every grade is -5, 10 or 13, and 13 only for a correct answer. */
  lemma ScoreValues(mode: Mode, difficulty: Difficulty, correct: AnswerValue, user: string, elapsedMs: int)
    ensures var r := GradeAnswer(mode, difficulty, correct, user, elapsedMs);
            r.scoreDelta in {-5, 10, 13} && (r.scoreDelta == -5 <==> !r.isCorrect)
  {
  }

  /** Answering faster never scores less; an elapsed time of 0 never earns the bonus. */
  lemma FasterNeverWorse(mode: Mode, difficulty: Difficulty, correct: AnswerValue, user: string,
                         fast: int, slow: int)
    requires 0 < fast <= slow
    ensures GradeAnswer(mode, difficulty, correct, user, fast).scoreDelta >=
            GradeAnswer(mode, difficulty, correct, user, slow).scoreDelta
    ensures GradeAnswer(mode, difficulty, correct, user, 0).scoreDelta <= CorrectPoints
  {
  }

  /** Surrounding whitespace in the player's answer does not change the grade. */
  lemma PaddingIgnored(mode: Mode, difficulty: Difficulty, correct: AnswerValue, user: string, elapsedMs: int)
    ensures GradeAnswer(mode, difficulty, correct, user, elapsedMs) ==
            GradeAnswer(mode, difficulty, correct, Trim(user), elapsedMs)
  {
    TrimIdempotent(user);
  }

  /**
   * For a numeric answer the canonical form is its decimal numeral, and an
   * answer is accepted exactly when its trim is that numeral; so one answer
   * text is never accepted for two different numbers.
   */
  lemma NumericAnswers(mode: Mode, difficulty: Difficulty, n: int, m: int, user: string, elapsedMs: int)
    ensures GradeAnswer(mode, difficulty, NumberAnswer(n), user, elapsedMs).correctAnswer == IntToString(n)
    ensures (GradeAnswer(mode, difficulty, NumberAnswer(n), user, elapsedMs).isCorrect &&
             GradeAnswer(mode, difficulty, NumberAnswer(m), user, elapsedMs).isCorrect) ==> n == m
  {
    NumeralIsTrimmed(n);
    NumeralIsTrimmed(m);
    if Trim(user) == IntToString(n) && Trim(user) == IntToString(m) {
      IntToStringInjective(n, m);
    }
  }

  lemma NumeralIsTrimmed(n: int)
    ensures Trim(IntToString(n)) == IntToString(n)
  {
    var s := IntToString(n);
    IntToStringChars(n);
    assert !IsJsWhitespace(s[0]);
    assert !IsJsWhitespace(s[|s| - 1]);
    TrimOfTrimmed(s);
  }
}
