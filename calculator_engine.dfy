/**
 * The four-function calculator: a display buffer, one pending operand and
 * operator, and a flag that makes the next digit start a fresh operand.
 * Buffers hold text, as in the source; arithmetic goes through `Parse` and
 * `ToText` of module Numerals.
 */
module CalculatorEngine {
  import opened Numerals

  /** What the display shows after a division by zero. */
  const ErrorMarker: string := "Error"

  /** The integer operation an arithmetic operator key stands for (division aside). */
  function IntOp(op: string, a: int, b: int): int
    requires op == "+" || op == "-" || op == "*"
  {
    if op == "+" then a + b else if op == "-" then a - b else a * b
  }

  /** `prev op curr` on parsed values; `NaN` spreads. */
  function Combine(op: string, a: Value, b: Value): (r: Value)
    requires op == "+" || op == "-" || op == "*" || (op == "/" && b != Num(0.0))
    ensures r == NaN <==> a == NaN || b == NaN
    ensures op == "/" && r.Num? ==> r.x * b.x == a.x
  {
    match (a, b)
    case (Num(x), Num(y)) =>
      if op == "+" then Num(x + y)
      else if op == "-" then Num(x - y)
      else if op == "*" then Num(x * y)
      else Num(x / y)
    case _ => NaN
  }

  /**
   * The `switch` of `calculate`: the new display text for operator `op`
   * applied to the pending operand `previous` and the displayed `current`.
   * An operator outside the four leaves the display as it is.
   */
  function Evaluate(op: string, previous: string, current: string): (r: string)
    ensures current != "" ==> r != ""
  {
    var a, b := Parse(previous), Parse(current);
    if op == "+" || op == "-" || op == "*" then ToText(Combine(op, a, b))
    else if op == "/" then (if b != Num(0.0) then ToText(Combine(op, a, b)) else ErrorMarker)
    else current
  }

  /** For the four operators, the error marker appears exactly on division by zero. */
  lemma EvaluateErrorIffDivisionByZero(op: string, previous: string, current: string)
    requires op == "+" || op == "-" || op == "*" || op == "/"
    ensures Evaluate(op, previous, current) == ErrorMarker <==> op == "/" && Parse(current) == Num(0.0)
  {
    var a, b := Parse(previous), Parse(current);
    if !(op == "/" && b == Num(0.0)) {
      var t := ToText(Combine(op, a, b));
      assert t == "NaN" || t[0] == '-' || IsDigit(t[0]);
      assert ErrorMarker[0] == 'E';
    }
  }

  /** `Evaluate` on two texts that read as numbers writes the combined value. */
  lemma EvaluateNumbers(op: string, previous: string, current: string, x: real, y: real)
    requires op == "+" || op == "-" || op == "*" || (op == "/" && y != 0.0)
    requires Parse(previous) == Num(x) && Parse(current) == Num(y)
    ensures Evaluate(op, previous, current) == ToText(Combine(op, Num(x), Num(y)))
  {
  }

  /** `+`, `-` and `*` on integral values stay integral. */
  lemma CombineIntegers(op: string, a: int, b: int)
    requires op == "+" || op == "-" || op == "*"
    ensures Combine(op, Num(a as real), Num(b as real)) == Num(IntOp(op, a, b) as real)
  {
    if op == "*" {
      assert (a as real) * (b as real) == (a * b) as real;
    }
  }

  /** On integer operands, `+`, `-` and `*` compute exactly. */
  lemma EvaluateIntegers(op: string, a: int, b: int)
    requires op == "+" || op == "-" || op == "*"
    ensures Evaluate(op, IntText(a), IntText(b)) == IntText(IntOp(op, a, b))
  {
    ParseIntText(a);
    ParseIntText(b);
    EvaluateNumbers(op, IntText(a), IntText(b), a as real, b as real);
    CombineIntegers(op, a, b);
    ToTextOfInt(IntOp(op, a, b));
  }

  /** An exact integer quotient is shown as that integer. */
  lemma EvaluateExactDivision(q: int, b: int)
    requires b != 0
    ensures Evaluate("/", IntText(b * q), IntText(b)) == IntText(q)
  {
    ParseIntText(b * q);
    ParseIntText(b);
    EvaluateNumbers("/", IntText(b * q), IntText(b), (b * q) as real, b as real);
    ExactQuotient(q, b);
    ToTextOfInt(q);
  }

  lemma ExactQuotient(q: int, b: int)
    requires b != 0
    ensures Combine("/", Num((b * q) as real), Num(b as real)) == Num(q as real)
  {
    assert (b * q) as real == (b as real) * (q as real);
  }

  class Calculator {
    var current: string
    var previous: string
    var operator: string
    var shouldResetDisplay: bool

    /** Exactly the state the constructor and `clear` leave. */
    predicate IsCleared()
      reads this
    {
      current == "0" && previous == "" && operator == "" && !shouldResetDisplay
    }

    /** An operation is waiting for its second operand (the guard of `calculate`). */
    predicate Pending()
      reads this
      ensures Valid() ==> (Pending() <==> operator != "")
    {
      operator != "" && previous != ""
    }

    /**
     * The display is never empty, and an operator is stored exactly when a
     * pending operand is: the machine holds at most one unresolved operation.
     */
    ghost predicate Valid()
      reads this
    {
      current != "" && (operator == "" <==> previous == "")
    }

    constructor ()
      ensures IsCleared() && Valid()
    {
      current, previous, operator, shouldResetDisplay := "0", "", "", false;
    }

    method Clear()
      modifies this
      ensures IsCleared() && Valid()
    {
      current, previous, operator, shouldResetDisplay := "0", "", "", false;
    }

    /**
     * A digit key: the token replaces the display when a fresh operand is due
     * or the display is exactly "0", and is appended to it otherwise.
     */
    method AppendNumber(number: string)
      modifies this
      ensures current == if old(shouldResetDisplay) || old(current) == "0" then number else old(current) + number
      ensures previous == old(previous) && operator == old(operator) && !shouldResetDisplay
      ensures old(Valid()) && number != "" ==> Valid()
    {
      if shouldResetDisplay {
        current := "";
        shouldResetDisplay := false;
      }
      if current == "0" {
        current := number;
      } else {
        current := current + number;
      }
    }

    /**
     * An operator key: a pending operation is evaluated first (so entry
     * chains left to right), then the displayed value becomes the pending
     * operand of `op` and the next digit starts a fresh operand.
     */
    method SetOperator(op: string)
      modifies this
      ensures var operand := if old(Pending()) then Evaluate(old(operator), old(previous), old(current)) else old(current);
              current == operand && previous == operand
      ensures operator == op && shouldResetDisplay
      ensures old(Valid()) && op != "" ==> Valid()
    {
      if operator != "" && previous != "" {
        Calculate();
      }
      operator := op;
      previous := current;
      shouldResetDisplay := true;
    }

    /**
     * The equals key: nothing happens unless an operation is pending;
     * otherwise the display shows its result (or the error marker), the
     * pending operation is dropped and the next digit starts afresh.
     */
    method Calculate()
      modifies this
      ensures !old(Pending()) ==>
                current == old(current) && previous == old(previous)
                && operator == old(operator) && shouldResetDisplay == old(shouldResetDisplay)
      ensures old(Pending()) ==>
                current == Evaluate(old(operator), old(previous), old(current))
                && previous == "" && operator == "" && shouldResetDisplay
      ensures old(Valid()) ==> Valid()
    {
      if operator == "" || previous == "" {
        return;
      }
      current := Evaluate(operator, previous, current);
      operator := "";
      previous := "";
      shouldResetDisplay := true;
    }

    /** The display text. */
    function GetResult(): (display: string)
      reads this
      ensures Valid() ==> display != ""
    {
      current
    }
  }

  /** `5 + 3 =` shows "8". */
  method AddFiveAndThree() returns (display: string)
    ensures display == "8"
  {
    var c := new Calculator();
    c.AppendNumber("5");
    c.SetOperator("+");
    c.AppendNumber("3");
    c.Calculate();
    assert "5" == IntText(5) && "3" == IntText(3) && "8" == IntText(8);
    EvaluateIntegers("+", 5, 3);
    display := c.GetResult();
  }

  /**
   * `a op1 b op2 c =`, each operand keyed in as one numeral from a cleared
   * calculator, shows `(a op1 b) op2 c`: evaluation is left to right.
   */
  method ChainedEntry(a: nat, b: nat, c: nat, op1: string, op2: string) returns (display: string)
    requires op1 == "+" || op1 == "-" || op1 == "*"
    requires op2 == "+" || op2 == "-" || op2 == "*"
    ensures display == IntText(IntOp(op2, IntOp(op1, a, b), c))
  {
    var machine := new Calculator();
    machine.AppendNumber(IntText(a));
    machine.SetOperator(op1);
    machine.AppendNumber(IntText(b));
    EvaluateIntegers(op1, a, b);
    machine.SetOperator(op2);
    machine.AppendNumber(IntText(c));
    EvaluateIntegers(op2, IntOp(op1, a, b), c);
    machine.Calculate();
    display := machine.GetResult();
  }

  /** `3 + 4 + 5 =` shows "12". */
  method ThreePlusFourPlusFive() returns (display: string)
    ensures display == "12"
  {
    display := ChainedEntry(3, 4, 5, "+", "+");
    assert Digits(12) == Digits(1) + [DigitChar(2)];
  }

  /**
   * `9 / 0 =` shows the error marker; a digit keyed next replaces it, and
   * `clear` brings back "0".
   */
  method DivideByZero() returns (error: string, next: string, cleared: string)
    ensures error == ErrorMarker && next == "7" && cleared == "0"
  {
    var c := new Calculator();
    c.AppendNumber("9");
    c.SetOperator("/");
    c.AppendNumber("0");
    assert "0" == IntText(0);
    ParseIntText(0);
    c.Calculate();
    error := c.GetResult();
    c.AppendNumber("7");
    next := c.GetResult();
    c.Clear();
    cleared := c.GetResult();
  }

  /** An operator keyed after the error marker carries it on as "NaN": `9 / 0 = + 1 =`. */
  method OperatorAfterError() returns (display: string)
    ensures display == "NaN"
  {
    var c := new Calculator();
    c.AppendNumber("9");
    c.SetOperator("/");
    c.AppendNumber("0");
    assert "0" == IntText(0);
    ParseIntText(0);
    c.Calculate();
    c.SetOperator("+");
    c.AppendNumber("1");
    assert Parse(ErrorMarker) == NaN;
    c.Calculate();
    display := c.GetResult();
  }

  /** An operator keyed twice evaluates the pending operation with the displayed operand: `a + +` shows `a + a`. */
  method RepeatedOperator(a: nat) returns (display: string)
    ensures display == IntText(a + a)
  {
    var c := new Calculator();
    c.AppendNumber(IntText(a));
    c.SetOperator("+");
    EvaluateIntegers("+", a, a);
    c.SetOperator("+");
    display := c.GetResult();
  }
}
