/**
 * Linear-equation questions (src/logic/equation-generator.ts): draw a
 * coefficient `a` until it is neither 0 nor 1, then `b` and the solution `x`,
 * and ask for `x` in `a·x + b = c`. The `Math.random()` results are given as
 * a finite sequence of draws; the source keeps drawing forever, the model
 * reports `None` when the draws run out.
 */
module EquationGenerator {
  import opened Wrappers
  import opened Quiz
  import opened Text

  /** `EquationQuestionPayload`. */
  datatype EquationPayload = EquationPayload(a: int, b: int, c: int)

  /** An inclusive range `[lo, hi]`. */
  datatype Range = Range(lo: int, hi: int)
  {
    predicate Contains(n: int)
    {
      lo <= n <= hi
    }
  }

  const EquationMaxTimeMs: int := 25000

  function CoefficientRange(difficulty: Difficulty): (r: Range)
    ensures r.lo <= r.hi
  {
    match difficulty
    case Easy => Range(2, 8)
    case Medium => Range(2, 12)
    case Hard => Range(-12, 12)
  }

  function ConstantRange(difficulty: Difficulty): (r: Range)
    ensures r.lo <= r.hi
  {
    match difficulty
    case Easy => Range(0, 40)
    case Medium => Range(-40, 50)
    case Hard => Range(-60, 60)
  }

  function SolutionRange(difficulty: Difficulty): (r: Range)
    ensures r.lo <= r.hi
  {
    match difficulty
    case Easy => Range(0, 20)
    case Medium => Range(-20, 20)
    case Hard => Range(-30, 30)
  }

  /** `randInt` over a range, given the draw. */
  function Pick(r: Unit, range: Range): (n: int)
    requires range.lo <= range.hi
    ensures range.Contains(n)
  {
    RandInt(r, range.lo, range.hi)
  }

  /** The coefficient loop stops at a draw giving neither 0 nor 1. */
  predicate Accepts(difficulty: Difficulty, r: Unit)
  {
    var a := Pick(r, CoefficientRange(difficulty));
    a != 0 && a != 1
  }

  /** The index of the first accepted coefficient draw at or after `i`. */
  function FirstAccepted(difficulty: Difficulty, draws: seq<Unit>, i: nat): (k: Option<nat>)
    requires i <= |draws|
    ensures k.Some? ==> i <= k.value < |draws| && Accepts(difficulty, draws[k.value])
    ensures k.Some? ==> forall j :: i <= j < k.value ==> !Accepts(difficulty, draws[j])
    ensures k.None? ==> forall j :: i <= j < |draws| ==> !Accepts(difficulty, draws[j])
    decreases |draws| - i
  {
    if i == |draws| then None
    else if Accepts(difficulty, draws[i]) then Some(i)
    else FirstAccepted(difficulty, draws, i + 1)
  }

  /** The question built from an accepted `a` and the drawn `b` and `x`. */
  function EquationQuestion(a: int, b: int, x: int): (q: GeneratedQuestion<EquationPayload>)
    ensures q.payload.a * q.answer + q.payload.b == q.payload.c
    ensures q.payload.a == a && q.payload.b == b && q.answer == x
    ensures q.maxTimeMs == EquationMaxTimeMs
  {
    var c := a * x + b;
    GeneratedQuestion(EquationText(a, b, c), EquationPayload(a, b, c), x, EquationMaxTimeMs)
  }

  /**
   * `${a}x + ${b} = ${c}. Tìm x?` as the source file spells it: its bytes are
   * the UTF-8 encoding of "Tìm" read once more as Latin-1, so the JavaScript
   * string holds U+00C3 U+00AC where "ì" was meant.
   */
  function EquationText(a: int, b: int, c: int): string
  {
    IntToString(a) + "x + " + IntToString(b) + " = " + IntToString(c) + ". T\U{00C3}\U{00AC}m x?"
  }

  /** What `generateEquationQuestion(difficulty)` returns for the given draws. */
  function EquationFromDraws(difficulty: Difficulty, draws: seq<Unit>): (q: Option<GeneratedQuestion<EquationPayload>>)
    ensures q.Some? ==> q.value.payload.a != 0 && q.value.payload.a != 1
    ensures q.Some? ==> q.value.payload.a * q.value.answer + q.value.payload.b == q.value.payload.c
    ensures q.Some? ==> CoefficientRange(difficulty).Contains(q.value.payload.a)
    ensures q.Some? ==> ConstantRange(difficulty).Contains(q.value.payload.b)
    ensures q.Some? ==> SolutionRange(difficulty).Contains(q.value.answer)
    ensures q.Some? ==> q.value.maxTimeMs == EquationMaxTimeMs
  {
    match FirstAccepted(difficulty, draws, 0)
    case None => None
    case Some(k) => QuestionFrom(difficulty, draws, k)
  }

  /** The question whose coefficient comes from draw `k`, and `b` and `x` from the two after it. */
  function QuestionFrom(difficulty: Difficulty, draws: seq<Unit>, k: nat): (q: Option<GeneratedQuestion<EquationPayload>>)
    requires k < |draws| && Accepts(difficulty, draws[k])
    ensures q.Some? <==> k + 2 < |draws|
    ensures q.Some? ==> q.value.payload.a != 0 && q.value.payload.a != 1
    ensures q.Some? ==> CoefficientRange(difficulty).Contains(q.value.payload.a)
    ensures q.Some? ==> ConstantRange(difficulty).Contains(q.value.payload.b)
    ensures q.Some? ==> SolutionRange(difficulty).Contains(q.value.answer)
  {
    if k + 2 < |draws| then
      var a := Pick(draws[k], CoefficientRange(difficulty));
      var b := Pick(draws[k + 1], ConstantRange(difficulty));
      var x := Pick(draws[k + 2], SolutionRange(difficulty));
      Some(EquationQuestion(a, b, x))
    else None
  }

  /** `generateEquationQuestion(difficulty)`: the coefficient loop, then `b`, `x` and `c`. */
  method GenerateEquation(difficulty: Difficulty, draws: seq<Unit>) returns (q: Option<GeneratedQuestion<EquationPayload>>)
    ensures q == EquationFromDraws(difficulty, draws)
  {
    var aRange, bRange, xRange := CoefficientRange(difficulty), ConstantRange(difficulty), SolutionRange(difficulty);
    var a := 0;
    var i := 0;
    while a == 0 || a == 1
      invariant 0 <= i <= |draws|
      invariant (a == 0 || a == 1) ==> FirstAccepted(difficulty, draws, i) == FirstAccepted(difficulty, draws, 0)
      invariant a != 0 && a != 1 ==>
                  0 < i && FirstAccepted(difficulty, draws, 0) == Some(i - 1) && a == Pick(draws[i - 1], aRange)
      decreases |draws| - i
    {
      if i == |draws| {
        return None;
      }
      a := Pick(draws[i], aRange);
      i := i + 1;
    }
    assert EquationFromDraws(difficulty, draws) == QuestionFrom(difficulty, draws, i - 1);
    if i + 1 >= |draws| {
      return None;
    }
    var b := Pick(draws[i], bRange);
    var x := Pick(draws[i + 1], xRange);
    q := Some(EquationQuestion(a, b, x));
  }

  /** The answer is the only solution of the equation asked. */
  lemma SolutionIsUnique(difficulty: Difficulty, draws: seq<Unit>, y: int)
    requires EquationFromDraws(difficulty, draws).Some?
    ensures var p := EquationFromDraws(difficulty, draws).value.payload;
            p.a * y + p.b == p.c <==> y == EquationFromDraws(difficulty, draws).value.answer
  {
    var q := EquationFromDraws(difficulty, draws).value;
    var p := q.payload;
    if p.a * y + p.b == p.c {
      assert p.a * y == p.a * q.answer;
      CancelFactor(p.a, y, q.answer);
    }
  }

  lemma CancelFactor(a: int, y: int, x: int)
    requires a != 0 && a * y == a * x
    ensures y == x
  {
  }

  /**
   * Easy and medium coefficient ranges start at 2, so the loop never repeats
   * and three draws suffice.
   */
  lemma NoRetryBelowHard(difficulty: Difficulty, draws: seq<Unit>)
    requires difficulty != Hard && |draws| >= 3
    ensures FirstAccepted(difficulty, draws, 0) == Some(0)
    ensures EquationFromDraws(difficulty, draws).Some?
  {
  }

  /** A hard question can need retries: some draws give the coefficient 0. */
  lemma HardRetries() returns (r: Unit)
    ensures Pick(r, CoefficientRange(Hard)) == 0 && !Accepts(Hard, r)
  {
    r := RandIntCovers(-12, 12, 0);
  }

  /** Every equation in range, with `a` neither 0 nor 1, is produced by some draws. */
  lemma EquationCovers(difficulty: Difficulty, a: int, b: int, x: int) returns (draws: seq<Unit>)
    requires CoefficientRange(difficulty).Contains(a) && a != 0 && a != 1
    requires ConstantRange(difficulty).Contains(b) && SolutionRange(difficulty).Contains(x)
    ensures EquationFromDraws(difficulty, draws) == Some(EquationQuestion(a, b, x))
  {
    var aRange, bRange, xRange := CoefficientRange(difficulty), ConstantRange(difficulty), SolutionRange(difficulty);
    var ra := RandIntCovers(aRange.lo, aRange.hi, a);
    var rb := RandIntCovers(bRange.lo, bRange.hi, b);
    var rx := RandIntCovers(xRange.lo, xRange.hi, x);
    draws := [ra, rb, rx];
    assert FirstAccepted(difficulty, draws, 0) == Some(0);
  }
}
