/** Invariants every evaluation keeps: each (value, type) pair it produces
    or stores agrees with its tag, and only the names the expression
    assigns can change. */
module Invariants {
  import opened Types
  import opened Values
  import opened Expression
  import opened Environment
  import opened Runtime

  /** A successful evaluation keeps every binding and its type: names are
      only ever added or rebound at the type they already have. */
  lemma {:induction false} EvalExtends(e: Expr, st: State, fuel: nat)
    ensures var r := Eval(e, st, fuel);
            r.Ok? ==> Extends(st, r.st)
    decreases fuel, e
  {
    match e
    case Print(x) => EvalExtends(x, st, fuel);
    case Assign(n, x) => EvalExtends(x, st, fuel);
    case Not(x) => EvalExtends(x, st, fuel);
    case Program(es) => EvalAllExtends(es, st, fuel);
    case Sequence(es) => EvalAllExtends(es, st, fuel);
    case If(c, whenTrue, whenFalse) =>
      EvalExtends(c, st, fuel);
      var rc := Eval(c, st, fuel);
      if rc.Ok? {
        EvalExtends(whenTrue, rc.st, fuel);
        EvalExtends(whenFalse, rc.st, fuel);
      }
    case While(c, body) =>
      EvalExtends(c, st, fuel);
      var rc := Eval(c, st, fuel);
      if rc.Ok? && fuel > 0 {
        EvalExtends(body, rc.st, fuel);
        var rb := Eval(body, rc.st, fuel);
        if rb.Ok? {
          EvalExtends(e, rb.st, fuel - 1);
        }
      }
    case Binary(_, l, r) =>
      EvalExtends(l, st, fuel);
      var rl := Eval(l, st, fuel);
      if rl.Ok? {
        EvalExtends(r, rl.st, fuel);
      }
    case _ =>
  }

  lemma {:induction false} EvalAllExtends(es: seq<Expr>, st: State, fuel: nat)
    ensures var r := EvalAll(es, st, fuel);
            r.Ok? ==> Extends(st, r.st)
    decreases fuel, es
  {
    if |es| > 0 {
      EvalExtends(es[0], st, fuel);
      var r0 := Eval(es[0], st, fuel);
      if r0.Ok? && |es| > 1 {
        EvalAllExtends(es[1..], r0.st, fuel);
      }
    }
  }

  /** From a well-typed state, a successful evaluation yields a value that
      agrees with its type and a well-typed state. */
  lemma {:induction false} EvalWellTyped(e: Expr, st: State, fuel: nat)
    requires WellTyped(st)
    ensures var r := Eval(e, st, fuel);
            r.Ok? ==> WellTyped(r.st) && Agrees(r.value, r.ty)
    decreases fuel, e
  {
    match e
    case Print(x) => EvalWellTyped(x, st, fuel);
    case Assign(n, x) =>
      EvalWellTyped(x, st, fuel);
      var rx := Eval(x, st, fuel);
      if rx.Ok? {
        SetWellTyped(rx.st, n, rx.value, rx.ty);
      }
    case Not(x) => EvalWellTyped(x, st, fuel);
    case Program(es) => EvalAllWellTyped(es, st, fuel);
    case Sequence(es) => EvalAllWellTyped(es, st, fuel);
    case If(c, whenTrue, whenFalse) =>
      EvalWellTyped(c, st, fuel);
      var rc := Eval(c, st, fuel);
      if rc.Ok? {
        EvalWellTyped(whenTrue, rc.st, fuel);
        EvalWellTyped(whenFalse, rc.st, fuel);
      }
    case While(c, body) =>
      EvalWellTyped(c, st, fuel);
      var rc := Eval(c, st, fuel);
      if rc.Ok? && fuel > 0 {
        EvalWellTyped(body, rc.st, fuel);
        var rb := Eval(body, rc.st, fuel);
        if rb.Ok? {
          EvalWellTyped(e, rb.st, fuel - 1);
        }
      }
    case Binary(op, l, r) =>
      EvalWellTyped(l, st, fuel);
      var rl := Eval(l, st, fuel);
      if rl.Ok? {
        EvalWellTyped(r, rl.st, fuel);
        var rr := Eval(r, rl.st, fuel);
        if rr.Ok? && Apply(op, rl.value, rl.ty, rr.value, rr.ty).Success? {
          ApplyTyping(op, rl.value, rl.ty, rr.value, rr.ty);
        }
      }
    case _ =>
  }

  lemma {:induction false} EvalAllWellTyped(es: seq<Expr>, st: State, fuel: nat)
    requires WellTyped(st)
    ensures var r := EvalAll(es, st, fuel);
            r.Ok? ==> WellTyped(r.st) && Agrees(r.value, r.ty)
    decreases fuel, es
  {
    if |es| > 0 {
      EvalWellTyped(es[0], st, fuel);
      var r0 := Eval(es[0], st, fuel);
      if r0.Ok? && |es| > 1 {
        EvalAllWellTyped(es[1..], r0.st, fuel);
      }
    }
  }

  /** `run_stimpl` only ever produces well-typed results: the empty state
      is well typed and evaluation keeps it so. */
  lemma RunWellTyped(program: Expr, fuel: nat)
    ensures var r := Run(program, fuel);
            r.Ok? ==> WellTyped(r.st) && Agrees(r.value, r.ty)
  {
    EvalWellTyped(program, Empty(), fuel);
  }

  /** `st'` answers like `st` for every name outside `names`. */
  ghost predicate SameOutside(st: State, st': State, names: set<string>) {
    forall n: string :: n !in names ==> Get(st', n) == Get(st, n)
  }

  /** Only the names an expression assigns can change: every other binding,
      and every other absence of a binding, survives its evaluation. */
  lemma {:induction false} EvalFrame(e: Expr, st: State, fuel: nat)
    ensures var r := Eval(e, st, fuel);
            r.Ok? ==> SameOutside(st, r.st, Assigned(e))
    decreases fuel, e
  {
    match e
    case Print(x) => EvalFrame(x, st, fuel);
    case Assign(n, x) => EvalFrame(x, st, fuel);
    case Not(x) => EvalFrame(x, st, fuel);
    case Program(es) => EvalAllFrame(es, st, fuel);
    case Sequence(es) => EvalAllFrame(es, st, fuel);
    case If(c, whenTrue, whenFalse) =>
      EvalFrame(c, st, fuel);
      var rc := Eval(c, st, fuel);
      if rc.Ok? {
        EvalFrame(whenTrue, rc.st, fuel);
        EvalFrame(whenFalse, rc.st, fuel);
      }
    case While(c, body) =>
      EvalFrame(c, st, fuel);
      var rc := Eval(c, st, fuel);
      if rc.Ok? && fuel > 0 {
        EvalFrame(body, rc.st, fuel);
        var rb := Eval(body, rc.st, fuel);
        if rb.Ok? {
          EvalFrame(e, rb.st, fuel - 1);
        }
      }
    case Binary(_, l, r) =>
      EvalFrame(l, st, fuel);
      var rl := Eval(l, st, fuel);
      if rl.Ok? {
        EvalFrame(r, rl.st, fuel);
      }
    case _ =>
  }

  lemma {:induction false} EvalAllFrame(es: seq<Expr>, st: State, fuel: nat)
    ensures var r := EvalAll(es, st, fuel);
            r.Ok? ==> SameOutside(st, r.st, AssignedAll(es))
    decreases fuel, es
  {
    if |es| > 0 {
      EvalFrame(es[0], st, fuel);
      var r0 := Eval(es[0], st, fuel);
      if r0.Ok? && |es| > 1 {
        EvalAllFrame(es[1..], r0.st, fuel);
      }
    }
  }

  /** An expression without an `Assign` leaves the state exactly as it was. */
  lemma AssignmentFreeKeepsState(e: Expr, st: State, fuel: nat)
    requires Assigned(e) == {}
    ensures var r := Eval(e, st, fuel);
            r.Ok? ==> r.st == st
  {
    EvalFrame(e, st, fuel);
    var r := Eval(e, st, fuel);
    if r.Ok? {
      SameLookupsSameState(r.st, st);
    }
  }
}
