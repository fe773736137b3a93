/** Fuel is only a bound on loop iterations: an evaluation that finishes
    with some fuel finishes the same way with more, and a loop-free
    expression never runs out. */
module Fuel {
  import opened Types
  import opened Values
  import opened Expression
  import opened Environment
  import opened Runtime

  /** More fuel never changes a finished evaluation. */
  lemma {:induction false} FuelMonotone(e: Expr, st: State, fuel: nat, more: nat)
    requires fuel <= more
    requires !Eval(e, st, fuel).OutOfFuel?
    ensures Eval(e, st, more) == Eval(e, st, fuel)
    decreases fuel, e
  {
    match e
    case Print(x) => FuelMonotone(x, st, fuel, more);
    case Assign(_, x) => FuelMonotone(x, st, fuel, more);
    case Not(x) => FuelMonotone(x, st, fuel, more);
    case Program(es) => FuelMonotoneAll(es, st, fuel, more);
    case Sequence(es) => FuelMonotoneAll(es, st, fuel, more);
    case If(c, whenTrue, whenFalse) =>
      FuelMonotone(c, st, fuel, more);
      var rc := Eval(c, st, fuel);
      if rc.Ok? && rc.ty == Boolean && rc.value.BoolValue? {
        if rc.value.b {
          FuelMonotone(whenTrue, rc.st, fuel, more);
        } else {
          FuelMonotone(whenFalse, rc.st, fuel, more);
        }
      }
    case While(c, body) =>
      FuelMonotone(c, st, fuel, more);
      var rc := Eval(c, st, fuel);
      if rc.Ok? && rc.ty == Boolean && rc.value.BoolValue? && rc.value.b && fuel > 0 {
        FuelMonotone(body, rc.st, fuel, more);
        var rb := Eval(body, rc.st, fuel);
        if rb.Ok? {
          FuelMonotone(e, rb.st, fuel - 1, more - 1);
        }
      }
    case Binary(_, l, r) =>
      FuelMonotone(l, st, fuel, more);
      var rl := Eval(l, st, fuel);
      if rl.Ok? {
        FuelMonotone(r, rl.st, fuel, more);
      }
    case _ =>
  }

  lemma {:induction false} FuelMonotoneAll(es: seq<Expr>, st: State, fuel: nat, more: nat)
    requires fuel <= more
    requires !EvalAll(es, st, fuel).OutOfFuel?
    ensures EvalAll(es, st, more) == EvalAll(es, st, fuel)
    decreases fuel, es
  {
    if |es| > 0 {
      FuelMonotone(es[0], st, fuel, more);
      var r0 := Eval(es[0], st, fuel);
      if r0.Ok? && |es| > 1 {
        FuelMonotoneAll(es[1..], r0.st, fuel, more);
      }
    }
  }

  /** Without a `While`, evaluation never runs out of fuel, even with none. */
  lemma {:induction false} LoopFreeNeverOutOfFuel(e: Expr, st: State, fuel: nat)
    requires !HasLoop(e)
    ensures !Eval(e, st, fuel).OutOfFuel?
    decreases e
  {
    match e
    case Print(x) => LoopFreeNeverOutOfFuel(x, st, fuel);
    case Assign(_, x) => LoopFreeNeverOutOfFuel(x, st, fuel);
    case Not(x) => LoopFreeNeverOutOfFuel(x, st, fuel);
    case Program(es) => LoopFreeNeverOutOfFuelAll(es, st, fuel);
    case Sequence(es) => LoopFreeNeverOutOfFuelAll(es, st, fuel);
    case If(c, whenTrue, whenFalse) =>
      LoopFreeNeverOutOfFuel(c, st, fuel);
      var rc := Eval(c, st, fuel);
      if rc.Ok? {
        LoopFreeNeverOutOfFuel(whenTrue, rc.st, fuel);
        LoopFreeNeverOutOfFuel(whenFalse, rc.st, fuel);
      }
    case Binary(_, l, r) =>
      LoopFreeNeverOutOfFuel(l, st, fuel);
      var rl := Eval(l, st, fuel);
      if rl.Ok? {
        LoopFreeNeverOutOfFuel(r, rl.st, fuel);
      }
    case _ =>
  }

  lemma {:induction false} LoopFreeNeverOutOfFuelAll(es: seq<Expr>, st: State, fuel: nat)
    requires !HasLoopIn(es)
    ensures !EvalAll(es, st, fuel).OutOfFuel?
    decreases es
  {
    if |es| > 0 {
      LoopFreeNeverOutOfFuel(es[0], st, fuel);
      var r0 := Eval(es[0], st, fuel);
      if r0.Ok? && |es| > 1 {
        LoopFreeNeverOutOfFuelAll(es[1..], r0.st, fuel);
      }
    }
  }
}
