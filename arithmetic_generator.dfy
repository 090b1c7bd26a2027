/**
 * Arithmetic questions (src/logic/arithmetic-generator.ts): two operands and
 * one operator for easy questions, three operands and two operators for
 * medium and hard ones, with a random grouping for hard questions. The
 * `Math.random()` results the generator consumes are given as `draws`, in
 * the order the source draws them.
 */
module ArithmeticGenerator {
  import opened Quiz
  import opened Text

  datatype Op = Plus | Minus

  /** `"+"` or `"-"`, as written in the question text. */
  function Symbol(op: Op): string
  {
    match op
    case Plus => "+"
    case Minus => "-"
  }

  function Apply(x: int, op: Op, y: int): int
  {
    match op
    case Plus => x + y
    case Minus => x - y
  }

  /** `Math.random() < 0.5 ? "+" : "-"`. */
  function OpOf(r: Unit): Op
  {
    if Heads(r) then Plus else Minus
  }

  /** `ArithmeticQuestionPayload`. */
  datatype ArithmeticPayload = ArithmeticPayload(operands: seq<int>, operators: seq<Op>)

  /** How many random draws a question of each difficulty consumes. */
  function DrawsNeeded(difficulty: Difficulty): nat
  {
    match difficulty
    case Easy => 3
    case Medium => 5
    case Hard => 6
  }

  /** The answer time limit written into each question. */
  function ArithmeticMaxTimeMs(difficulty: Difficulty): int
  {
    match difficulty
    case Easy => 15000
    case Medium => 20000
    case Hard => 25000
  }

  /** The inclusive operand range of each difficulty. */
  function OperandRange(difficulty: Difficulty, position: nat): (bounds: (int, int))
    ensures bounds.0 <= bounds.1
  {
    match difficulty
    case Easy => (5, 50)
    case Medium => if position < 2 then (20, 80) else (10, 60)
    case Hard => (-100, 150)
  }

  /** A well-shaped payload: one operator between each pair of neighbouring operands. */
  predicate WellShaped(p: ArithmeticPayload)
  {
    |p.operands| >= 1 && |p.operators| == |p.operands| - 1
  }

  /** Reference evaluation from left to right: `((x0 op0 x1) op1 x2) ...`. */
  function EvalLeft(xs: seq<int>, ops: seq<Op>): int
    requires |xs| >= 1 && |ops| == |xs| - 1
    decreases |ops|
  {
    if |ops| == 0 then xs[0]
    else Apply(EvalLeft(xs[..|xs| - 1], ops[..|ops| - 1]), ops[|ops| - 1], xs[|xs| - 1])
  }

  /** Reference evaluation from right to left: `x0 op0 (x1 op1 (x2 ...))`. */
  function EvalRight(xs: seq<int>, ops: seq<Op>): int
    requires |xs| >= 1 && |ops| == |xs| - 1
    decreases |ops|
  {
    if |ops| == 0 then xs[0]
    else Apply(xs[0], ops[0], EvalRight(xs[1..], ops[1..]))
  }

  /** `generateArithmeticQuestion(difficulty)`, given the random draws. */
  function GenerateArithmetic(difficulty: Difficulty, draws: seq<Unit>): (q: GeneratedQuestion<ArithmeticPayload>)
    requires |draws| >= DrawsNeeded(difficulty)
    ensures WellShaped(q.payload)
    ensures |q.payload.operands| == (if difficulty == Easy then 2 else 3)
    ensures forall i :: 0 <= i < |q.payload.operands| ==>
              OperandRange(difficulty, i).0 <= q.payload.operands[i] <= OperandRange(difficulty, i).1
    ensures q.maxTimeMs == ArithmeticMaxTimeMs(difficulty)
    ensures difficulty != Hard || Heads(draws[5]) ==>
              q.answer == EvalLeft(q.payload.operands, q.payload.operators)
    ensures difficulty == Hard && !Heads(draws[5]) ==>
              q.answer == EvalRight(q.payload.operands, q.payload.operators)
  {
    match difficulty
    case Easy => EasyQuestion(draws[0], draws[1], draws[2])
    case Medium => MediumQuestion(draws[0], draws[1], draws[2], draws[3], draws[4])
    case Hard => HardQuestion(draws[0], draws[1], draws[2], draws[3], draws[4], draws[5])
  }

  /** The easy branch: `a op b = ?` with operands in [5, 50]. */
  function EasyQuestion(ra: Unit, rb: Unit, rop: Unit): (q: GeneratedQuestion<ArithmeticPayload>)
    ensures |q.payload.operands| == 2 && |q.payload.operators| == 1
    ensures forall i :: 0 <= i < 2 ==> 5 <= q.payload.operands[i] <= 50
    ensures q.maxTimeMs == 15000
    ensures q.answer == EvalLeft(q.payload.operands, q.payload.operators)
  {
    var a := RandInt(ra, 5, 50);
    var b := RandInt(rb, 5, 50);
    var op := OpOf(rop);
    TwoLeft(a, b, op);
    GeneratedQuestion(
      Numeral(a) + " " + Symbol(op) + " " + Numeral(b) + " = ?",
      ArithmeticPayload([a, b], [op]),
      Apply(a, op, b),
      15000)
  }

  /** The medium branch: `a op1 b op2 c = ?`, evaluated from the left. */
  function MediumQuestion(ra: Unit, rb: Unit, rc: Unit, rop1: Unit, rop2: Unit): (q: GeneratedQuestion<ArithmeticPayload>)
    ensures |q.payload.operands| == 3 && |q.payload.operators| == 2
    ensures forall i :: 0 <= i < 2 ==> 20 <= q.payload.operands[i] <= 80
    ensures 10 <= q.payload.operands[2] <= 60
    ensures q.maxTimeMs == 20000
    ensures q.answer == EvalLeft(q.payload.operands, q.payload.operators)
  {
    var a := RandInt(ra, 20, 80);
    var b := RandInt(rb, 20, 80);
    var c := RandInt(rc, 10, 60);
    var op1 := OpOf(rop1);
    var op2 := OpOf(rop2);
    var first := Apply(a, op1, b);
    ThreeLeft(a, b, c, op1, op2);
    GeneratedQuestion(
      Numeral(a) + " " + Symbol(op1) + " " + Numeral(b) + " " + Symbol(op2) + " " + Numeral(c) + " = ?",
      ArithmeticPayload([a, b, c], [op1, op2]),
      Apply(first, op2, c),
      20000)
  }

  /** The hard branch: operands in [-100, 150] and parentheses around the first or the last two. */
  function HardQuestion(ra: Unit, rb: Unit, rc: Unit, rop1: Unit, rop2: Unit, rgroup: Unit): (q: GeneratedQuestion<ArithmeticPayload>)
    ensures |q.payload.operands| == 3 && |q.payload.operators| == 2
    ensures forall i :: 0 <= i < 3 ==> -100 <= q.payload.operands[i] <= 150
    ensures q.maxTimeMs == 25000
    ensures Heads(rgroup) ==> q.answer == EvalLeft(q.payload.operands, q.payload.operators)
    ensures !Heads(rgroup) ==> q.answer == EvalRight(q.payload.operands, q.payload.operators)
  {
    var a := RandInt(ra, -100, 150);
    var b := RandInt(rb, -100, 150);
    var c := RandInt(rc, -100, 150);
    var op1 := OpOf(rop1);
    var op2 := OpOf(rop2);
    var groupFirstTwo := Heads(rgroup);
    ThreeLeft(a, b, c, op1, op2);
    ThreeRight(a, b, c, op1, op2);
    var answer :=
      if groupFirstTwo then Apply(Apply(a, op1, b), op2, c)
      else Apply(a, op1, Apply(b, op2, c));
    var questionText :=
      if groupFirstTwo
      then "(" + Numeral(a) + " " + Symbol(op1) + " " + Numeral(b) + ") " + Symbol(op2) + " " + Numeral(c) + " = ?"
      else Numeral(a) + " " + Symbol(op1) + " (" + Numeral(b) + " " + Symbol(op2) + " " + Numeral(c) + ") = ?";
    GeneratedQuestion(questionText, ArithmeticPayload([a, b, c], [op1, op2]), answer, 25000)
  }

  /** The numeral a template literal writes for an integer. */
  function Numeral(n: int): string
  {
    IntToString(n)
  }

  lemma TwoLeft(a: int, b: int, op: Op)
    ensures EvalLeft([a, b], [op]) == Apply(a, op, b)
  {
    assert [a, b][..1] == [a];
    assert [op][..0] == [];
  }

  lemma ThreeLeft(a: int, b: int, c: int, op1: Op, op2: Op)
    ensures EvalLeft([a, b, c], [op1, op2]) == Apply(Apply(a, op1, b), op2, c)
  {
    assert [a, b, c][..2] == [a, b];
    assert [op1, op2][..1] == [op1];
    TwoLeft(a, b, op1);
  }

  lemma TwoRight(b: int, c: int, op: Op)
    ensures EvalRight([b, c], [op]) == Apply(b, op, c)
  {
    assert [b, c][1..] == [c];
    assert [op][1..] == [];
  }

  lemma ThreeRight(a: int, b: int, c: int, op1: Op, op2: Op)
    ensures EvalRight([a, b, c], [op1, op2]) == Apply(a, op1, Apply(b, op2, c))
  {
    assert [a, b, c][1..] == [b, c];
    assert [op1, op2][1..] == [op2];
    TwoRight(b, c, op2);
  }

  /**
   * The two groupings of a hard question give different answers exactly when
   * the first operator is a minus and the last operand is not zero.
   */
  lemma GroupingMatters(a: int, b: int, c: int, op1: Op, op2: Op)
    ensures EvalLeft([a, b, c], [op1, op2]) != EvalRight([a, b, c], [op1, op2]) <==>
            op1 == Minus && c != 0
  {
    ThreeLeft(a, b, c, op1, op2);
    ThreeRight(a, b, c, op1, op2);
  }

  /** The answers stay within the bounds the operand ranges allow. */
  lemma AnswerBounds(difficulty: Difficulty, draws: seq<Unit>)
    requires |draws| >= DrawsNeeded(difficulty)
    ensures var q := GenerateArithmetic(difficulty, draws);
            match difficulty
            case Easy => -45 <= q.answer <= 100
            case Medium => -120 <= q.answer <= 220
            case Hard => -400 <= q.answer <= 450
  {
    var q := GenerateArithmetic(difficulty, draws);
    var xs, ops := q.payload.operands, q.payload.operators;
    match difficulty
    case Easy =>
      assert xs == [xs[0], xs[1]] && ops == [ops[0]];
      TwoLeft(xs[0], xs[1], ops[0]);
    case Medium =>
      assert xs == [xs[0], xs[1], xs[2]] && ops == [ops[0], ops[1]];
      ThreeLeft(xs[0], xs[1], xs[2], ops[0], ops[1]);
    case Hard =>
      assert xs == [xs[0], xs[1], xs[2]] && ops == [ops[0], ops[1]];
      ThreeLeft(xs[0], xs[1], xs[2], ops[0], ops[1]);
      ThreeRight(xs[0], xs[1], xs[2], ops[0], ops[1]);
  }

  /** A draw that yields the given operator. */
  function DrawFor(op: Op): (r: Unit)
    ensures OpOf(r) == op
  {
    match op
    case Plus => 0.0
    case Minus => 0.5
  }

  /** Every easy payload in range is produced by some draws. */
  lemma EasyCovers(a: int, b: int, op: Op) returns (draws: seq<Unit>)
    requires 5 <= a <= 50 && 5 <= b <= 50
    ensures |draws| == DrawsNeeded(Easy)
    ensures GenerateArithmetic(Easy, draws).payload == ArithmeticPayload([a, b], [op])
  {
    var ra := RandIntCovers(5, 50, a);
    var rb := RandIntCovers(5, 50, b);
    draws := [ra, rb, DrawFor(op)];
  }

  /** Every medium payload with operands in range is produced by some draws. */
  lemma MediumCovers(a: int, b: int, c: int, op1: Op, op2: Op) returns (draws: seq<Unit>)
    requires 20 <= a <= 80 && 20 <= b <= 80 && 10 <= c <= 60
    ensures |draws| == DrawsNeeded(Medium)
    ensures GenerateArithmetic(Medium, draws).payload == ArithmeticPayload([a, b, c], [op1, op2])
  {
    var ra := RandIntCovers(20, 80, a);
    var rb := RandIntCovers(20, 80, b);
    var rc := RandIntCovers(10, 60, c);
    draws := [ra, rb, rc, DrawFor(op1), DrawFor(op2)];
  }

  /** Every hard payload in range, with either grouping, is produced by some draws. */
  lemma HardCovers(a: int, b: int, c: int, op1: Op, op2: Op, groupFirstTwo: bool) returns (draws: seq<Unit>)
    requires -100 <= a <= 150 && -100 <= b <= 150 && -100 <= c <= 150
    ensures |draws| == DrawsNeeded(Hard)
    ensures GenerateArithmetic(Hard, draws).payload == ArithmeticPayload([a, b, c], [op1, op2])
    ensures Heads(draws[5]) == groupFirstTwo
  {
    var ra := RandIntCovers(-100, 150, a);
    var rb := RandIntCovers(-100, 150, b);
    var rc := RandIntCovers(-100, 150, c);
    draws := [ra, rb, rc, DrawFor(op1), DrawFor(op2), if groupFirstTwo then 0.0 else 0.5];
  }
}
