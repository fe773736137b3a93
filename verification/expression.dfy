/** The STIMPL abstract syntax (stimpl/expression.py): one datatype for
    every expression node, and the two fallible constructors the source
    uses to reject malformed nodes before anything is evaluated. */
module Expression {
  import opened Types
  import opened Values
  import opened Errors

  /** The binary operators, one per binary node class of the source. */
  datatype BinOp =
    | And | Or
    | Lt | Lte | Gt | Gte | Eq | Ne
    | Add | Subtract | Multiply | Divide
  {
    predicate IsLogical() {
      And? || Or?
    }

    predicate IsRelational() {
      Lt? || Lte? || Gt? || Gte? || Eq? || Ne?
    }

    predicate IsArithmetic() {
      Add? || Subtract? || Multiply? || Divide?
    }
  }

  /** An expression tree. `Ren` is the unit literal. `Assign` holds the
      NAME of its target `Variable`, so a non-variable target cannot be
      represented; `MkAssign` is where such a target is refused. The twelve
      binary node classes share one shape, `Binary(op, left, right)`. */
  datatype Expr =
    | Ren
    | IntLiteral(i: int)
    | FloatingPointLiteral(f: real)
    | StringLiteral(s: string)
    | BooleanLiteral(b: bool)
    | Variable(name: string)
    | Assign(target: string, value: Expr)
    | Print(toPrint: Expr)
    | Not(expr: Expr)
    | Binary(op: BinOp, left: Expr, right: Expr)
    | Program(exprs: seq<Expr>)
    | Sequence(exprs: seq<Expr>)
    | If(condition: Expr, whenTrue: Expr, whenFalse: Expr)
    | While(condition: Expr, body: Expr)

  // ---------------------------------------------------------------------
  // Fallible constructors. A literal's payload must be exactly the host
  // kind the literal names (Python's `type(x) != int` also refuses a bool).
  // ---------------------------------------------------------------------

  /** `IntLiteral(literal)`: TypeError unless the payload is an int. */
  function MkIntLiteral(literal: Value): (r: Result<Expr>)
    ensures r.Success? <==> Agrees(literal, Integer)
    ensures r.Failure? ==> r.error == TypeError
    ensures r.Success? ==> LiteralPayload(r.value) == Some(literal)
  {
    match literal
    case IntValue(i) => Success(IntLiteral(i))
    case _ => Failure(TypeError)
  }

  /** `FloatingPointLiteral(literal)`: TypeError unless the payload is a float. */
  function MkFloatingPointLiteral(literal: Value): (r: Result<Expr>)
    ensures r.Success? <==> Agrees(literal, FloatingPoint)
    ensures r.Failure? ==> r.error == TypeError
    ensures r.Success? ==> LiteralPayload(r.value) == Some(literal)
  {
    match literal
    case FloatValue(f) => Success(FloatingPointLiteral(f))
    case _ => Failure(TypeError)
  }

  /** `StringLiteral(literal)`: TypeError unless the payload is a str. */
  function MkStringLiteral(literal: Value): (r: Result<Expr>)
    ensures r.Success? <==> Agrees(literal, String)
    ensures r.Failure? ==> r.error == TypeError
    ensures r.Success? ==> LiteralPayload(r.value) == Some(literal)
  {
    match literal
    case StrValue(s) => Success(StringLiteral(s))
    case _ => Failure(TypeError)
  }

  /** `BooleanLiteral(literal)`: TypeError unless the payload is a bool. */
  function MkBooleanLiteral(literal: Value): (r: Result<Expr>)
    ensures r.Success? <==> Agrees(literal, Boolean)
    ensures r.Failure? ==> r.error == TypeError
    ensures r.Success? ==> LiteralPayload(r.value) == Some(literal)
  {
    match literal
    case BoolValue(b) => Success(BooleanLiteral(b))
    case _ => Failure(TypeError)
  }

  /** The payload a literal node carries; None for every other node. */
  function LiteralPayload(e: Expr): (r: Option<Value>) {
    match e
    case IntLiteral(i) => Some(IntValue(i))
    case FloatingPointLiteral(f) => Some(FloatValue(f))
    case StringLiteral(s) => Some(StrValue(s))
    case BooleanLiteral(b) => Some(BoolValue(b))
    case _ => None
  }

  /** `Assign(variable, value)`: SyntaxError unless the target is a
      `Variable`; the node keeps the variable's name and the value. */
  function MkAssign(variable: Expr, value: Expr): (r: Result<Expr>)
    ensures r.Success? <==> variable.Variable?
    ensures r.Failure? ==> r.error == SyntaxError
    ensures r.Success? ==> r.value.Assign? && Variable(r.value.target) == variable
                           && r.value.value == value
  {
    if variable.Variable? then Success(Assign(variable.name, value)) else Failure(SyntaxError)
  }

  // ---------------------------------------------------------------------
  // Syntactic summaries used by the properties of the evaluator.
  // ---------------------------------------------------------------------

  /** The names some `Assign` inside `e` may bind. */
  function Assigned(e: Expr): set<string>
    decreases e
  {
    match e
    case Assign(n, x) => {n} + Assigned(x)
    case Print(x) => Assigned(x)
    case Not(x) => Assigned(x)
    case Program(es) => AssignedAll(es)
    case Sequence(es) => AssignedAll(es)
    case If(c, t, f) => Assigned(c) + Assigned(t) + Assigned(f)
    case While(c, b) => Assigned(c) + Assigned(b)
    case Binary(_, l, r) => Assigned(l) + Assigned(r)
    case _ => {}
  }

  function AssignedAll(es: seq<Expr>): set<string>
    decreases es
  {
    if |es| == 0 then {} else Assigned(es[0]) + AssignedAll(es[1..])
  }

  /** Whether a `While` occurs inside `e`. */
  predicate HasLoop(e: Expr)
    decreases e
  {
    match e
    case While(_, _) => true
    case Assign(_, x) => HasLoop(x)
    case Print(x) => HasLoop(x)
    case Not(x) => HasLoop(x)
    case Program(es) => HasLoopIn(es)
    case Sequence(es) => HasLoopIn(es)
    case If(c, t, f) => HasLoop(c) || HasLoop(t) || HasLoop(f)
    case Binary(_, l, r) => HasLoop(l) || HasLoop(r)
    case _ => false
  }

  predicate HasLoopIn(es: seq<Expr>)
    decreases es
  {
    |es| > 0 && (HasLoop(es[0]) || HasLoopIn(es[1..]))
  }
}
