/**
 * Vocabulary shared by the question generators, the scoring rules and the
 * GenAI client: difficulty levels, question modes, the generated-question
 * record, and the random draws that stand in for `Math.random()`.
 */
module Quiz {

  /** `Difficulty` of src/logic/arithmetic-generator.ts. */
  datatype Difficulty = Easy | Medium | Hard

  /** The question mode: `"arithmetic" | "equation"`. */
  datatype Mode = Arithmetic | Equation

  /** `GeneratedQuestion<TPayload>`. */
  datatype GeneratedQuestion<P> = GeneratedQuestion(
    questionText: string,
    payload: P,
    answer: int,
    maxTimeMs: int)

  /** One result of `Math.random()`: a number in [0, 1). */
  type Unit = r: real | 0.0 <= r < 1.0

  /** `Math.floor(r * (max - min + 1)) + min`: the `randInt` helper, given the draw `r`. */
  function RandInt(r: Unit, lo: int, hi: int): (n: int)
    requires lo <= hi
    ensures lo <= n <= hi
  {
    var width := (hi - lo + 1) as real;
    assert 0.0 <= r * width < width;
    (r * width).Floor + lo
  }

  /** Every value in range is produced by some draw. */
  lemma RandIntCovers(lo: int, hi: int, n: int) returns (r: Unit)
    requires lo <= n <= hi
    ensures RandInt(r, lo, hi) == n
  {
    var width := (hi - lo + 1) as real;
    r := (n - lo) as real / width;
    assert r * width == (n - lo) as real;
  }

  /** `Math.random() < 0.5 ? "+" : "-"`, and the other fair coin flips. */
  predicate Heads(r: Unit)
  {
    r < 0.5
  }
}
