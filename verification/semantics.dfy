/** What each construct of the evaluator means, stated against the
    evaluation of its parts: order of evaluation, typing rules, errors,
    and the laws that relate constructs to one another. */
module Semantics {
  import opened Types
  import opened Values
  import opened Errors
  import opened Expression
  import opened Environment
  import opened Runtime
  import opened Fuel
  import opened Invariants

  // ---------------------------------------------------------------------
  // Literals
  // ---------------------------------------------------------------------

  /** A literal accepted by its constructor evaluates to exactly the payload
      it was given, paired with the literal's tag, and leaves the state alone. */
  lemma LiteralRoundTrip(payload: Value, st: State, fuel: nat)
    ensures MkIntLiteral(payload).Success? ==>
              Eval(MkIntLiteral(payload).value, st, fuel) == Ok(payload, Integer, st)
    ensures MkFloatingPointLiteral(payload).Success? ==>
              Eval(MkFloatingPointLiteral(payload).value, st, fuel) == Ok(payload, FloatingPoint, st)
    ensures MkStringLiteral(payload).Success? ==>
              Eval(MkStringLiteral(payload).value, st, fuel) == Ok(payload, String, st)
    ensures MkBooleanLiteral(payload).Success? ==>
              Eval(MkBooleanLiteral(payload).value, st, fuel) == Ok(payload, Boolean, st)
  {
  }

  // ---------------------------------------------------------------------
  // Variables and assignment
  // ---------------------------------------------------------------------

  /** Reading a name fails with SyntaxError exactly when it is unbound; a
      bound name yields its stored pair and leaves the state alone. */
  lemma VariableRead(name: string, st: State, fuel: nat)
    ensures Eval(Variable(name), st, fuel).Error? <==> Get(st, name).None?
    ensures Eval(Variable(name), st, fuel).Error? ==> Eval(Variable(name), st, fuel).kind == SyntaxError
    ensures Get(st, name).Some? ==>
              Eval(Variable(name), st, fuel)
              == Ok(Get(st, name).value.value, Get(st, name).value.ty, st)
  {
  }

  /** `Assign` evaluates its value first and checks the binding found in the
      state that evaluation left: it raises TypeError exactly when the name
      is bound there with a different type. On success it yields the value's
      pair, binds the name to it and touches no other name. */
  lemma AssignRule(name: string, x: Expr, st: State, fuel: nat)
    ensures !Eval(x, st, fuel).Ok? ==> Eval(Assign(name, x), st, fuel) == Eval(x, st, fuel)
    ensures var rx := Eval(x, st, fuel);
            var r := Eval(Assign(name, x), st, fuel);
            rx.Ok? ==>
              && (r.Error? <==> Get(rx.st, name).Some? && Get(rx.st, name).value.ty != rx.ty)
              && (r.Error? ==> r.kind == TypeError)
              && (r.Ok? <==> !(Get(rx.st, name).Some? && Get(rx.st, name).value.ty != rx.ty))
              && (r.Ok? ==> r.value == rx.value && r.ty == rx.ty
                            && Get(r.st, name) == Some(Binding(rx.value, rx.ty))
                            && SameOutside(rx.st, r.st, {name}))
  {
  }

  /** After an assignment succeeds, reading the name back yields the
      assigned pair and changes nothing further. */
  lemma AssignThenRead(name: string, x: Expr, st: State, fuel: nat)
    requires Eval(Assign(name, x), st, fuel).Ok?
    ensures Eval(Sequence([Assign(name, x), Variable(name)]), st, fuel)
            == Eval(Assign(name, x), st, fuel)
  {
    var es := [Assign(name, x), Variable(name)];
    var r := Eval(Assign(name, x), st, fuel);
    assert es[1..] == [Variable(name)];
    assert EvalAll(es[1..], r.st, fuel) == Eval(Variable(name), r.st, fuel) == Ok(r.value, r.ty, r.st);
  }

  /** `i = j = x`: an assignment is an expression whose value is the
      assigned one, so both names end up bound to x's pair. */
  lemma ChainedAssign(i: string, j: string, x: Expr, st: State, fuel: nat)
    requires Eval(Assign(i, Assign(j, x)), st, fuel).Ok?
    ensures var r := Eval(Assign(i, Assign(j, x)), st, fuel);
            var rx := Eval(x, st, fuel);
            && rx.Ok? && r.value == rx.value && r.ty == rx.ty
            && Get(r.st, i) == Some(Binding(rx.value, rx.ty))
            && Get(r.st, j) == Some(Binding(rx.value, rx.ty))
  {
  }

  /** The first binding fixes a name's type for the rest of the evaluation:
      once bound, a name stays bound with the same type, whatever runs. */
  lemma TypeStaysFixed(e: Expr, st: State, fuel: nat, name: string)
    requires Get(st, name).Some?
    requires Eval(e, st, fuel).Ok?
    ensures Get(Eval(e, st, fuel).st, name).Some?
    ensures Get(Eval(e, st, fuel).st, name).value.ty == Get(st, name).value.ty
  {
    EvalExtends(e, st, fuel);
    assert name in st.bindings;
  }

  // ---------------------------------------------------------------------
  // Binary operators
  // ---------------------------------------------------------------------

  /** The operand tags a binary operator accepts. */
  ghost predicate Supports(op: BinOp, t: Type) {
    if op.Add? then t in {Integer, FloatingPoint, String}
    else if op.IsArithmetic() then t in {Integer, FloatingPoint}
    else if op.IsLogical() then t == Boolean
    else true
  }

  /** Operands are evaluated left then right, the right one under the state
      the left one left; the first failure is the result, so the right
      operand is never evaluated after the left one fails. */
  lemma BinaryOrder(op: BinOp, l: Expr, r: Expr, st: State, fuel: nat)
    ensures var rl := Eval(l, st, fuel);
            !rl.Ok? ==> Eval(Binary(op, l, r), st, fuel) == rl
    ensures var rl := Eval(l, st, fuel);
            rl.Ok? && !Eval(r, rl.st, fuel).Ok? ==>
              Eval(Binary(op, l, r), st, fuel) == Eval(r, rl.st, fuel)
  {
  }

  /** The typing rules of every binary operator, given both operands
      evaluated: mismatched or unsupported tags raise TypeError, and a zero
      divisor raises MathError only after the tags pass. Nothing else fails. */
  lemma BinaryErrors(op: BinOp, l: Expr, r: Expr, st: State, fuel: nat)
    requires WellTyped(st)
    requires Eval(l, st, fuel).Ok?
    requires Eval(r, Eval(l, st, fuel).st, fuel).Ok?
    ensures var rl := Eval(l, st, fuel);
            var rr := Eval(r, rl.st, fuel);
            var res := Eval(Binary(op, l, r), st, fuel);
            && (res == Error(TypeError) <==> rl.ty != rr.ty || !Supports(op, rl.ty))
            && (res == Error(MathError) <==>
                  op.Divide? && rl.ty == rr.ty && Supports(op, rl.ty) && IsZero(rr.value))
            && (res.Ok? <==> rl.ty == rr.ty && Supports(op, rl.ty) && !(op.Divide? && IsZero(rr.value)))
  {
    EvalWellTyped(l, st, fuel);
    var rl := Eval(l, st, fuel);
    EvalWellTyped(r, rl.st, fuel);
    var rr := Eval(r, rl.st, fuel);
    BinaryUnfold(op, l, r, st, fuel);
    ApplyErrors(op, rl.value, rl.ty, rr.value, rr.ty);
  }

  /** The error cases of `Apply` on payloads that agree with their tags. */
  lemma ApplyErrors(op: BinOp, lv: Value, lt: Type, rv: Value, rt: Type)
    requires Agrees(lv, lt) && Agrees(rv, rt)
    ensures var res := Apply(op, lv, lt, rv, rt);
            && (res == Failure(TypeError) <==> lt != rt || !Supports(op, lt))
            && (res == Failure(MathError) <==> op.Divide? && lt == rt && Supports(op, lt) && IsZero(rv))
            && (res.Success? <==> lt == rt && Supports(op, lt) && !(op.Divide? && IsZero(rv)))
  {
    if lt == rt {
      if op.IsArithmetic() {
        ArithmeticErrors(op, lv, rv, lt);
      } else if op.IsLogical() {
        assert Apply(op, lv, lt, rv, rt) == Logical(op, lv, rv, lt);
      } else {
        assert Apply(op, lv, lt, rv, rt) == Relational(op, lv, rv, lt);
        if lt != Unit {
          HostOrderTotal(lv, rv);
        }
      }
    }
  }

  /** The error cases of the arithmetic operators on one tag. */
  lemma ArithmeticErrors(op: BinOp, lv: Value, rv: Value, t: Type)
    requires op.IsArithmetic()
    requires Agrees(lv, t) && Agrees(rv, t)
    ensures var res := Arithmetic(op, lv, rv, t);
            && (res == Failure(TypeError) <==> !Supports(op, t))
            && (res == Failure(MathError) <==> op.Divide? && Supports(op, t) && IsZero(rv))
            && (res.Success? <==> Supports(op, t) && !(op.Divide? && IsZero(rv)))
  {
  }

  /** A successful binary node ends in the right operand's state, tagged
      like its operands (arithmetic) or Boolean (logic and comparison). */
  lemma BinaryResult(op: BinOp, l: Expr, r: Expr, st: State, fuel: nat)
    requires Eval(Binary(op, l, r), st, fuel).Ok?
    ensures var rl := Eval(l, st, fuel);
            var rr := Eval(r, rl.st, fuel);
            var res := Eval(Binary(op, l, r), st, fuel);
            && rl.Ok? && rr.Ok? && rl.ty == rr.ty
            && res.st == rr.st
            && (op.IsArithmetic() ==> res.ty == rl.ty)
            && (!op.IsArithmetic() ==> res.ty == Boolean)
  {
  }

  /** `+` adds integers and concatenates strings: the payload of a
      successful Add is the host sum of the operands' payloads. */
  lemma AddValue(l: Expr, r: Expr, st: State, fuel: nat)
    requires Eval(Binary(Add, l, r), st, fuel).Ok?
    ensures var rl := Eval(l, st, fuel);
            var rr := Eval(r, rl.st, fuel);
            var sum := Eval(Binary(Add, l, r), st, fuel).value;
            && Some(sum) == HostPlus(rl.value, rr.value)
            && (rl.value.IntValue? ==> sum == IntValue(rl.value.i + rr.value.i))
            && (rl.value.StrValue? ==> sum == StrValue(rl.value.s + rr.value.s))
  {
    BinaryOrder(Add, l, r, st, fuel);
    BinaryUnfold(Add, l, r, st, fuel);
  }

  /** Both logical operators always evaluate both operands; the result is
      the conjunction or disjunction of the two Booleans. */
  lemma LogicalValue(op: BinOp, l: Expr, r: Expr, st: State, fuel: nat)
    requires op.IsLogical()
    requires Eval(Binary(op, l, r), st, fuel).Ok?
    ensures var rl := Eval(l, st, fuel);
            var rr := Eval(r, rl.st, fuel);
            && rl.value.BoolValue? && rr.value.BoolValue?
            && Eval(Binary(op, l, r), st, fuel).value
               == BoolValue(if op.And? then rl.value.b && rr.value.b else rl.value.b || rr.value.b)
  {
  }

  /** A binary node whose operands both evaluate ends in its operator
      applied to their pairs, in the right operand's state. */
  lemma BinaryUnfold(op: BinOp, l: Expr, r: Expr, st: State, fuel: nat)
    requires Eval(l, st, fuel).Ok?
    requires Eval(r, Eval(l, st, fuel).st, fuel).Ok?
    ensures var rl := Eval(l, st, fuel);
            var rr := Eval(r, rl.st, fuel);
            Eval(Binary(op, l, r), st, fuel) == match Apply(op, rl.value, rl.ty, rr.value, rr.ty)
                                               case Success((v, t)) => Ok(v, t, rr.st)
                                               case Failure(k) => Error(k)
  {
  }

  /** On operands of one tag, whose payloads agree with it, the six
      comparison operators are consistent with one another. */
  lemma ComparisonsConsistent(lv: Value, rv: Value, t: Type)
    requires Agrees(lv, t) && Agrees(rv, t)
    ensures var lt := Relational(Lt, lv, rv, t);
            var lte := Relational(Lte, lv, rv, t);
            var eq := Relational(Eq, lv, rv, t);
            && lt.Success? && lte.Success? && eq.Success?
            && Relational(Gte, lv, rv, t) == Success((BoolValue(!lt.value.0.b), Boolean))
            && Relational(Gt, lv, rv, t) == Success((BoolValue(!lte.value.0.b), Boolean))
            && Relational(Ne, lv, rv, t) == Success((BoolValue(!eq.value.0.b), Boolean))
            && lte.value.0.b == (lt.value.0.b || eq.value.0.b)
  {
    if t != Unit {
      HostOrderTotal(lv, rv);
      HostOrderTotal(rv, lv);
    }
  }

  /** A comparison that succeeds had both operands evaluate, to pairs of
      one tag whose payloads agree with it (from a well-typed state). */
  lemma ComparedOperands(op: BinOp, l: Expr, r: Expr, st: State, fuel: nat)
    requires op.IsRelational()
    requires WellTyped(st)
    requires Eval(Binary(op, l, r), st, fuel).Ok?
    ensures var rl := Eval(l, st, fuel);
            && rl.Ok? && Eval(r, rl.st, fuel).Ok?
            && rl.ty == Eval(r, rl.st, fuel).ty
            && Agrees(rl.value, rl.ty) && Agrees(Eval(r, rl.st, fuel).value, rl.ty)
  {
    BinaryOrder(op, l, r, st, fuel);
    EvalWellTyped(l, st, fuel);
    EvalWellTyped(r, Eval(l, st, fuel).st, fuel);
  }

  /** The value of a successful `<`: False on two Units, and otherwise the
      host order of the operand payloads: numeric order, False before True,
      and lexicographic order on strings. */
  lemma LtValue(l: Expr, r: Expr, st: State, fuel: nat)
    requires WellTyped(st)
    requires Eval(Binary(Lt, l, r), st, fuel).Ok?
    ensures var rl := Eval(l, st, fuel);
            var rr := Eval(r, rl.st, fuel);
            var v := Eval(Binary(Lt, l, r), st, fuel).value;
            && rl.Ok? && rr.Ok? && rl.ty == rr.ty
            && Agrees(rl.value, rl.ty) && Agrees(rr.value, rr.ty)
            && (rl.ty == Unit ==> v == BoolValue(false))
            && (rl.ty == Integer ==> v == BoolValue(rl.value.i < rr.value.i))
            && (rl.ty == FloatingPoint ==> v == BoolValue(rl.value.f < rr.value.f))
            && (rl.ty == Boolean ==> v == BoolValue(!rl.value.b && rr.value.b))
            && (rl.ty == String ==> v == BoolValue(StrLess(rl.value.s, rr.value.s)))
  {
    ComparedOperands(Lt, l, r, st, fuel);
    BinaryUnfold(Lt, l, r, st, fuel);
  }

  /** `l >= r` is the negation of `l < r`, with the same effects. */
  lemma GteNegatesLt(l: Expr, r: Expr, st: State, fuel: nat)
    requires WellTyped(st)
    requires Eval(Binary(Lt, l, r), st, fuel).Ok?
    ensures var lt := Eval(Binary(Lt, l, r), st, fuel);
            Eval(Binary(Gte, l, r), st, fuel) == lt.(value := BoolValue(!lt.value.b))
  {
    ComparedOperands(Lt, l, r, st, fuel);
    var rl := Eval(l, st, fuel);
    var rr := Eval(r, rl.st, fuel);
    BinaryUnfold(Lt, l, r, st, fuel);
    BinaryUnfold(Gte, l, r, st, fuel);
    ComparisonsConsistent(rl.value, rr.value, rl.ty);
  }

  /** `l > r` is the negation of `l <= r`, with the same effects. */
  lemma GtNegatesLte(l: Expr, r: Expr, st: State, fuel: nat)
    requires WellTyped(st)
    requires Eval(Binary(Lte, l, r), st, fuel).Ok?
    ensures var le := Eval(Binary(Lte, l, r), st, fuel);
            Eval(Binary(Gt, l, r), st, fuel) == le.(value := BoolValue(!le.value.b))
  {
    ComparedOperands(Lte, l, r, st, fuel);
    var rl := Eval(l, st, fuel);
    var rr := Eval(r, rl.st, fuel);
    BinaryUnfold(Lte, l, r, st, fuel);
    BinaryUnfold(Gt, l, r, st, fuel);
    ComparisonsConsistent(rl.value, rr.value, rl.ty);
  }

  /** `l != r` is the negation of `l == r`, with the same effects. */
  lemma NeNegatesEq(l: Expr, r: Expr, st: State, fuel: nat)
    requires WellTyped(st)
    requires Eval(Binary(Eq, l, r), st, fuel).Ok?
    ensures var eq := Eval(Binary(Eq, l, r), st, fuel);
            Eval(Binary(Ne, l, r), st, fuel) == eq.(value := BoolValue(!eq.value.b))
  {
    ComparedOperands(Eq, l, r, st, fuel);
    var rl := Eval(l, st, fuel);
    var rr := Eval(r, rl.st, fuel);
    BinaryUnfold(Eq, l, r, st, fuel);
    BinaryUnfold(Ne, l, r, st, fuel);
    ComparisonsConsistent(rl.value, rr.value, rl.ty);
  }

  /** `l <= r` holds exactly when `l < r` or `l == r` does. */
  lemma LteIsLtOrEq(l: Expr, r: Expr, st: State, fuel: nat)
    requires WellTyped(st)
    requires Eval(Binary(Lt, l, r), st, fuel).Ok?
    ensures var lt := Eval(Binary(Lt, l, r), st, fuel);
            Eval(Binary(Lte, l, r), st, fuel)
            == lt.(value := BoolValue(lt.value.b || Eval(Binary(Eq, l, r), st, fuel).value.b))
  {
    ComparedOperands(Lt, l, r, st, fuel);
    var rl := Eval(l, st, fuel);
    var rr := Eval(r, rl.st, fuel);
    BinaryUnfold(Lt, l, r, st, fuel);
    BinaryUnfold(Lte, l, r, st, fuel);
    BinaryUnfold(Eq, l, r, st, fuel);
    ComparisonsConsistent(rl.value, rr.value, rl.ty);
  }

  // ---------------------------------------------------------------------
  // Sequences
  // ---------------------------------------------------------------------

  /** `Program` and `Sequence` mean the same; no elements give (None, Unit)
      and the state unchanged; one element gives that element's result. */
  lemma SequenceBasics(es: seq<Expr>, x: Expr, st: State, fuel: nat)
    ensures Eval(Program(es), st, fuel) == Eval(Sequence(es), st, fuel)
    ensures Eval(Sequence([]), st, fuel) == Ok(NoneValue, Unit, st)
    ensures Eval(Sequence([x]), st, fuel) == Eval(x, st, fuel)
  {
  }

  /** One step of threading: after a first element that succeeds, the
      rest runs under the state it left. */
  lemma SequenceStep(es: seq<Expr>, st: State, fuel: nat)
    requires |es| > 1
    requires Eval(es[0], st, fuel).Ok?
    ensures Eval(Program(es), st, fuel) == EvalAll(es[1..], Eval(es[0], st, fuel).st, fuel)
    ensures EvalAll(es, st, fuel) == EvalAll(es[1..], Eval(es[0], st, fuel).st, fuel)
  {
  }

  /** Threading: running `front + back` is running `front`, then `back`
      under the state `front` left; the result is `back`'s. */
  lemma {:induction false} SequenceAppend(front: seq<Expr>, back: seq<Expr>, st: State, fuel: nat)
    requires |back| > 0
    ensures |front| == 0 ==> EvalAll(front + back, st, fuel) == EvalAll(back, st, fuel)
    ensures |front| > 0 && !EvalAll(front, st, fuel).Ok? ==>
              EvalAll(front + back, st, fuel) == EvalAll(front, st, fuel)
    ensures |front| > 0 && EvalAll(front, st, fuel).Ok? ==>
              EvalAll(front + back, st, fuel) == EvalAll(back, EvalAll(front, st, fuel).st, fuel)
    decreases |front|
  {
    if |front| == 0 {
      assert front + back == back;
    } else {
      assert (front + back)[0] == front[0];
      assert (front + back)[1..] == front[1..] + back;
      var r0 := Eval(front[0], st, fuel);
      if r0.Ok? {
        if |front| == 1 {
          assert (front + back)[1..] == back;
        } else {
          SequenceAppend(front[1..], back, r0.st, fuel);
        }
      }
    }
  }

  // ---------------------------------------------------------------------
  // If and While
  // ---------------------------------------------------------------------

  /** A non-Boolean condition raises TypeError before either branch runs;
      a Boolean one selects exactly one branch, which runs under the state
      the condition left and whose result is the result of the `If`. */
  lemma IfRunsOneBranch(c: Expr, whenTrue: Expr, whenFalse: Expr, st: State, fuel: nat)
    requires WellTyped(st)
    requires Eval(c, st, fuel).Ok?
    ensures var rc := Eval(c, st, fuel);
            var r := Eval(If(c, whenTrue, whenFalse), st, fuel);
            && (rc.ty != Boolean ==> r == Error(TypeError))
            && (rc.ty == Boolean ==>
                  r == Eval(if rc.value == BoolValue(true) then whenTrue else whenFalse, rc.st, fuel))
  {
    EvalWellTyped(c, st, fuel);
  }

  /** A loop that ends yields (None, Unit). */
  lemma {:induction false} WhileYieldsUnit(c: Expr, body: Expr, st: State, fuel: nat)
    requires Eval(While(c, body), st, fuel).Ok?
    ensures Eval(While(c, body), st, fuel).value == NoneValue
    ensures Eval(While(c, body), st, fuel).ty == Unit
    decreases fuel
  {
    var rc := Eval(c, st, fuel);
    if rc.value.b && fuel > 0 {
      var rb := Eval(body, rc.st, fuel);
      WhileYieldsUnit(c, body, rb.st, fuel - 1);
    }
  }

  /** A finished loop is its own unfolding: test the condition, and when it
      holds run the body and then the loop again; otherwise yield Unit. */
  lemma WhileUnfolds(c: Expr, body: Expr, st: State, fuel: nat)
    requires !Eval(While(c, body), st, fuel).OutOfFuel?
    ensures Eval(While(c, body), st, fuel)
            == Eval(If(c, Sequence([body, While(c, body)]), Ren), st, fuel)
  {
    var w := While(c, body);
    var rc := Eval(c, st, fuel);
    if rc.Ok? && rc.ty == Boolean && rc.value.BoolValue? && rc.value.b {
      var es := [body, w];
      assert es[0] == body && es[1..] == [w];
      var rb := Eval(body, rc.st, fuel);
      assert Eval(If(c, Sequence(es), Ren), st, fuel) == EvalAll(es, rc.st, fuel);
      if rb.Ok? {
        assert Eval(w, st, fuel) == Eval(w, rb.st, fuel - 1);
        FuelMonotone(w, rb.st, fuel - 1, fuel);
        assert EvalAll(es, rc.st, fuel) == EvalAll(es[1..], rb.st, fuel) == Eval(w, rb.st, fuel);
      }
    }
  }
}
