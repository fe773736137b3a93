/** The STIMPL evaluator (function `evaluate` and `run_stimpl` of
    stimpl/runtime.py): a big-step semantics that returns a (value, type,
    state') triple, threads the state left to right through every
    sub-expression, and stops at the first interpreter error.

    Cases marked "per tests, source is a stub" are `pass` in the source;
    they are modelled as the sanity tests in stimpl/test.py require. */
module Runtime {
  import opened Types
  import opened Values
  import opened Errors
  import opened Expression
  import opened Environment

  /** The end of one evaluation: the (value, type, state') triple, an
      interpreter error, or an exhausted loop budget. */
  datatype Outcome = Ok(value: Value, ty: Type, st: State) | Error(kind: ErrorKind) | OutOfFuel

  /** `evaluate(e, st)`. Only `While` consumes fuel: one unit per run of its
      body, so every loop-free program evaluates fully with any fuel. */
  function Eval(e: Expr, st: State, fuel: nat): Outcome
    decreases fuel, e
  {
    match e
    case Ren => Ok(NoneValue, Unit, st)
    case IntLiteral(i) => Ok(IntValue(i), Integer, st)
    case FloatingPointLiteral(f) => Ok(FloatValue(f), FloatingPoint, st)
    case StringLiteral(s) => Ok(StrValue(s), String, st)
    case BooleanLiteral(b) => Ok(BoolValue(b), Boolean, st)
    // Console output is not modelled: Print passes its operand's result on.
    case Print(x) => Eval(x, st, fuel)
    case Variable(name) =>
      (match Get(st, name)
       case None => Error(SyntaxError)
       case Some(b) => Ok(b.value, b.ty, st))
    case Assign(name, x) =>
      (match Eval(x, st, fuel)
       case Ok(v, t, st1) => Bind(name, v, t, st1)
       case failed => failed)
    // Per tests, source is a stub.
    case Program(es) => EvalAll(es, st, fuel)
    // Per tests, source is a stub.
    case Sequence(es) => EvalAll(es, st, fuel)
    // Per tests, source is a stub.
    case Not(x) =>
      (match Eval(x, st, fuel)
       case Ok(v, t, st1) =>
         if Equals(t, Boolean) && v.BoolValue? then Ok(BoolValue(!v.b), Boolean, st1)
         else Error(TypeError)
       case failed => failed)
    // Per tests, source is a stub.
    case If(c, whenTrue, whenFalse) =>
      (match Eval(c, st, fuel)
       case Ok(v, t, st1) =>
         if !Equals(t, Boolean) || !v.BoolValue? then Error(TypeError)
         else if v.b then Eval(whenTrue, st1, fuel)
         else Eval(whenFalse, st1, fuel)
       case failed => failed)
    // Per tests, source is a stub.
    case While(c, body) =>
      (match Eval(c, st, fuel)
       case Ok(v, t, st1) =>
         if !Equals(t, Boolean) || !v.BoolValue? then Error(TypeError)
         else if !v.b then Ok(NoneValue, Unit, st1)
         else if fuel == 0 then OutOfFuel
         else
           (match Eval(body, st1, fuel)
            case Ok(_, _, st2) => Eval(e, st2, fuel - 1)
            case failed => failed)
       case failed => failed)
    case Binary(op, l, r) =>
      (match Eval(l, st, fuel)
       case Ok(lv, lt, st1) =>
         (match Eval(r, st1, fuel)
          case Ok(rv, rt, st2) =>
            (match Apply(op, lv, lt, rv, rt)
             case Success((v, t)) => Ok(v, t, st2)
             case Failure(k) => Error(k))
          case failed => failed)
       case failed => failed)
  }

  /** Per tests, source is a stub. The elements of a `Sequence` or
      `Program` in order, each under the state the previous one left; the
      result is the last element's, and (None, Unit) for no elements. */
  function EvalAll(es: seq<Expr>, st: State, fuel: nat): Outcome
    decreases fuel, es
  {
    if |es| == 0 then Ok(NoneValue, Unit, st)
    else
      match Eval(es[0], st, fuel)
      case Ok(v, t, st1) => if |es| == 1 then Ok(v, t, st1) else EvalAll(es[1..], st1, fuel)
      case failed => failed
  }

  /** The binding step of `Assign`: the first assignment fixes a name's
      type; a later one with another type raises TypeError. */
  function Bind(name: string, v: Value, t: Type, st: State): (r: Outcome)
    ensures r.Ok? <==> Get(st, name).None? || Get(st, name).value.ty == t
    ensures r.Ok? ==> r == Ok(v, t, Set(st, name, v, t))
    ensures r.Error? ==> r.kind == TypeError
    ensures !r.Ok? ==> r == Error(TypeError)
  {
    match Get(st, name)
    case Some(prior) => if !Equals(t, prior.ty) then Error(TypeError) else Ok(v, t, Set(st, name, v, t))
    case None => Ok(v, t, Set(st, name, v, t))
  }

  /** A binary operator applied to the two evaluated operands. Operand
      tags must be equal; when both payloads agree with their tags, so does
      the result (`ApplyTyping`). */
  function Apply(op: BinOp, lv: Value, lt: Type, rv: Value, rt: Type): (r: Result<(Value, Type)>) {
    if !Equals(lt, rt) then Failure(TypeError)
    else if op.IsArithmetic() then Arithmetic(op, lv, rv, lt)
    else if op.IsLogical() then Logical(op, lv, rv, lt)
    else Relational(op, lv, rv, lt)
  }

  /** What every successful operator application keeps: the operand tags
      were equal, the result is tagged like them (arithmetic) or Boolean
      (logic and comparison), and payloads that agreed with their tags
      give a result payload that agrees with its tag. */
  lemma ApplyTyping(op: BinOp, lv: Value, lt: Type, rv: Value, rt: Type)
    requires Apply(op, lv, lt, rv, rt).Success?
    ensures lt == rt
    ensures Agrees(lv, lt) && Agrees(rv, rt) ==> Agrees(Apply(op, lv, lt, rv, rt).value.0, Apply(op, lv, lt, rv, rt).value.1)
    ensures !op.IsArithmetic() ==> Apply(op, lv, lt, rv, rt).value.1 == Boolean
    ensures op.IsArithmetic() ==> Apply(op, lv, lt, rv, rt).value.1 == lt
  {
  }

  /** `+` on Integer, FloatingPoint or String; `-`, `*` and `/` on Integer
      or FloatingPoint; any other tag raises TypeError. */
  function Arithmetic(op: BinOp, lv: Value, rv: Value, t: Type): (r: Result<(Value, Type)>)
    requires op.IsArithmetic()
  {
    match op
    case Add =>
      if t.Integer? || t.String? || t.FloatingPoint? then Host(HostPlus(lv, rv), t)
      else Failure(TypeError)
    // Per tests, source is a stub.
    case Subtract =>
      if t.Integer? || t.FloatingPoint? then Host(HostMinus(lv, rv), t) else Failure(TypeError)
    // Per tests, source is a stub.
    case Multiply =>
      if t.Integer? || t.FloatingPoint? then Host(HostTimes(lv, rv), t) else Failure(TypeError)
    // Per tests, source is a stub. The tag is checked before the divisor.
    case Divide =>
      if !(t.Integer? || t.FloatingPoint?) then Failure(TypeError)
      else
        match HostDivide(lv, rv)
        case Some(Success(v)) => Success((v, t))
        case Some(Failure(k)) => Failure(k)
        case None => Failure(TypeError)
  }

  /** A host operator's value paired with tag `t`; a payload that Python
      could not combine surfaces as TypeError. */
  function Host(r: Option<Value>, t: Type): (res: Result<(Value, Type)>) {
    match r
    case Some(v) => Success((v, t))
    case None => Failure(TypeError)
  }

  /** `And` (and, per tests, the stub `Or`) on two Booleans, without
      short-circuit: both operands were already evaluated. */
  function Logical(op: BinOp, lv: Value, rv: Value, t: Type): (r: Result<(Value, Type)>)
    requires op.IsLogical()
  {
    if !t.Boolean? || !lv.BoolValue? || !rv.BoolValue? then Failure(TypeError)
    else if op.And? then Success((BoolValue(lv.b && rv.b), t))
    else Success((BoolValue(lv.b || rv.b), t))
  }

  /** `Lt` (and, per tests, the stubs `Lte`, `Gt`, `Gte`, `Eq`, `Ne`). Two
      Units are equal and never ordered; other tags use the host order. */
  function Relational(op: BinOp, lv: Value, rv: Value, t: Type): (r: Result<(Value, Type)>)
    requires op.IsRelational()
  {
    if t.Unit? then Success((BoolValue(op.Lte? || op.Gte? || op.Eq?), Boolean))
    else
      var answer :=
        match op
        case Lt => HostLess(lv, rv)
        case Gt => HostLess(rv, lv)
        case Lte => HostLessEq(lv, rv)
        case Gte => HostLessEq(rv, lv)
        case Eq => Some(lv == rv)
        case Ne => Some(lv != rv);
      match answer
      case Some(b) => Success((BoolValue(b), Boolean))
      case None => Failure(TypeError)
  }

  /** `run_stimpl`: evaluate a program from the empty state. */
  function Run(program: Expr, fuel: nat): Outcome {
    Eval(program, Empty(), fuel)
  }
}
