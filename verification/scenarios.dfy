/** The concrete programs of the sanity tests (stimpl/test.py) and the
    state test (stimpl/test_state.py), proved against the model. */
module Scenarios {
  import opened Types
  import opened Values
  import opened Errors
  import opened Expression
  import opened Environment
  import opened Runtime
  import opened Semantics

  /** Integer addition. */
  lemma IntegerAddition()
    ensures Run(Binary(Add, IntLiteral(10), IntLiteral(10)), 0) == Ok(IntValue(20), Integer, Empty())
    ensures Run(Binary(Add, IntLiteral(20), IntLiteral(-10)), 0) == Ok(IntValue(10), Integer, Empty())
  {
  }

  /** Integer subtraction and multiplication. */
  lemma IntegerSubtractMultiply()
    ensures Run(Binary(Subtract, IntLiteral(10), IntLiteral(20)), 0) == Ok(IntValue(-10), Integer, Empty())
    ensures Run(Binary(Multiply, IntLiteral(10), IntLiteral(10)), 0) == Ok(IntValue(100), Integer, Empty())
  {
  }

  /** Integer division. */
  lemma IntegerDivision()
    ensures Run(Binary(Divide, IntLiteral(10), IntLiteral(10)), 0) == Ok(IntValue(1), Integer, Empty())
  {
  }

  /** `+` on strings concatenates. */
  lemma StringConcatenation()
    ensures Run(Binary(Add, StringLiteral("Hello"), StringLiteral(", World")), 0)
            == Ok(StrValue("Hello, World"), String, Empty())
  {
  }

  /** Operands of different tags raise TypeError. */
  lemma MismatchedOperands()
    ensures Run(Binary(Add, FloatingPointLiteral(1.0), IntLiteral(1)), 0) == Error(TypeError)
    ensures Run(Binary(Divide, IntLiteral(1), FloatingPointLiteral(1.0)), 0) == Error(TypeError)
  {
  }

  /** Units and Booleans cannot be added. */
  lemma UnsupportedAddition()
    ensures Run(Binary(Add, Ren, Ren), 0) == Error(TypeError)
    ensures Run(Binary(Add, BooleanLiteral(true), BooleanLiteral(true)), 0) == Error(TypeError)
  {
  }

  /** Strings cannot be subtracted. */
  lemma UnsupportedSubtraction()
    ensures Run(Binary(Subtract, StringLiteral("Hello"), StringLiteral(", World")), 0) == Error(TypeError)
  {
  }

  /** A zero divisor of either numeric kind raises MathError. */
  lemma DivisionByZero()
    ensures Run(Binary(Divide, IntLiteral(1), IntLiteral(0)), 0) == Error(MathError)
    ensures Run(Binary(Divide, FloatingPointLiteral(1.0), FloatingPointLiteral(0.0)), 0) == Error(MathError)
  {
  }

  /** And and Or on Booleans. */
  lemma LogicPrograms()
    ensures Run(Binary(And, BooleanLiteral(true), BooleanLiteral(false)), 0) == Ok(BoolValue(false), Boolean, Empty())
    ensures Run(Binary(Or, BooleanLiteral(false), BooleanLiteral(true)), 0) == Ok(BoolValue(true), Boolean, Empty())
  {
  }

  /** Not on a Boolean. */
  lemma NotProgram()
    ensures Run(Not(BooleanLiteral(true)), 0) == Ok(BoolValue(false), Boolean, Empty())
  {
  }

  /** Two Units are equal and never ordered. */
  lemma UnitComparisons()
    ensures Run(Binary(Lt, Ren, Ren), 0) == Ok(BoolValue(false), Boolean, Empty())
    ensures Run(Binary(Lte, Ren, Ren), 0) == Ok(BoolValue(true), Boolean, Empty())
  {
  }

  /** Two Units are not different. */
  lemma UnitInequality()
    ensures Run(Binary(Ne, Ren, Ren), 0) == Ok(BoolValue(false), Boolean, Empty())
  {
  }

  /** False is less than True. */
  lemma BooleanOrder()
    ensures Run(Binary(Lt, BooleanLiteral(false), BooleanLiteral(true)), 0) == Ok(BoolValue(true), Boolean, Empty())
  {
  }

  /** Strings compare lexicographically. */
  lemma StringOrder()
    ensures Run(Binary(Lt, StringLiteral("alpha"), StringLiteral("beta")), 0) == Ok(BoolValue(true), Boolean, Empty())
    ensures Run(Binary(Gt, StringLiteral("alpha"), StringLiteral("beta")), 0) == Ok(BoolValue(false), Boolean, Empty())
  {
  }

  /** Logic on non-Boolean operands raises TypeError. */
  lemma LogicTypeErrors()
    ensures Run(Binary(And, IntLiteral(10), BooleanLiteral(true)), 0) == Error(TypeError)
    ensures Run(Not(Ren), 0) == Error(TypeError)
  {
  }

  /** A program's value is its last element's; an empty program's is None. */
  lemma ProgramValues()
    ensures Run(Program([IntLiteral(1), IntLiteral(2), IntLiteral(3)]), 0) == Ok(IntValue(3), Integer, Empty())
    ensures Run(Program([]), 0) == Ok(NoneValue, Unit, Empty())
  {
  }

  /** Reading a name before assigning it is a SyntaxError; after, it reads
      the assigned value. */
  lemma ReadBeforeAndAfterAssign()
    ensures Run(Program([Variable("i")]), 0) == Error(SyntaxError)
    ensures Run(Program([Assign("i", IntLiteral(1)), Variable("i")]), 0).value == IntValue(1)
  {
    var es := [Assign("i", IntLiteral(1)), Variable("i")];
    assert es[1..] == [Variable("i")];
  }

  /** `i = x; i` reads back x's pair, whatever its kind. */
  lemma ReadBack(x: Expr, v: Value, t: Type)
    requires Eval(x, Empty(), 0) == Ok(v, t, Empty())
    ensures Run(Program([Assign("i", x), Variable("i")]), 0)
            == Ok(v, t, Set(Empty(), "i", v, t))
  {
    var es := [Assign("i", x), Variable("i")];
    var s1 := Set(Empty(), "i", v, t);
    assert Eval(es[0], Empty(), 0) == Ok(v, t, s1);
    assert es[1..] == [Variable("i")];
    SequenceStep(es, Empty(), 0);
    assert EvalAll([Variable("i")], s1, 0) == Eval(Variable("i"), s1, 0) == Ok(v, t, s1);
  }

  /** Reading back a Unit, a float, a string and a Boolean. */
  lemma ReadBackEachKind()
    ensures Run(Program([Assign("i", Ren), Variable("i")]), 0)
            == Ok(NoneValue, Unit, Set(Empty(), "i", NoneValue, Unit))
    ensures Run(Program([Assign("i", FloatingPointLiteral(1.0)), Variable("i")]), 0)
            == Ok(FloatValue(1.0), FloatingPoint, Set(Empty(), "i", FloatValue(1.0), FloatingPoint))
    ensures Run(Program([Assign("i", StringLiteral("test")), Variable("i")]), 0)
            == Ok(StrValue("test"), String, Set(Empty(), "i", StrValue("test"), String))
    ensures Run(Program([Assign("i", BooleanLiteral(true)), Variable("i")]), 0)
            == Ok(BoolValue(true), Boolean, Set(Empty(), "i", BoolValue(true), Boolean))
  {
    ReadBack(Ren, NoneValue, Unit);
    ReadBack(FloatingPointLiteral(1.0), FloatValue(1.0), FloatingPoint);
    ReadBack(StringLiteral("test"), StrValue("test"), String);
    ReadBack(BooleanLiteral(true), BoolValue(true), Boolean);
  }

  /** Only a variable can be assigned, and a literal refuses a payload of another kind. */
  lemma MalformedConstruction()
    ensures MkAssign(IntLiteral(10), IntLiteral(10)) == Failure(SyntaxError)
    ensures MkIntLiteral(BoolValue(true)) == Failure(TypeError)
  {
  }

  /** A name first bound to an Integer cannot be rebound to a FloatingPoint. */
  lemma ReassignIntegerAsFloat()
    ensures Run(Program([Assign("i", IntLiteral(10)), Assign("i", FloatingPointLiteral(10.0))]), 0)
            == Error(TypeError)
  {
    var a := [Assign("i", IntLiteral(10)), Assign("i", FloatingPointLiteral(10.0))];
    assert a[1..] == [Assign("i", FloatingPointLiteral(10.0))];
  }

  /** A name first bound to Unit cannot be rebound to a FloatingPoint. */
  lemma ReassignUnitAsFloat()
    ensures Run(Program([Assign("i", Ren), Assign("i", FloatingPointLiteral(10.0))]), 0)
            == Error(TypeError)
  {
    var b := [Assign("i", Ren), Assign("i", FloatingPointLiteral(10.0))];
    assert b[1..] == [Assign("i", FloatingPointLiteral(10.0))];
  }

  /** `i = i + 1` as an expression: its value is the incremented `i`. */
  function Increment(): Expr {
    Assign("i", Binary(Add, Variable("i"), IntLiteral(1)))
  }

  /** `name = (i = i + 1)` with `i` bound to n and `name` unbound binds
      both to n + 1. */
  lemma IncrementInto(name: string, n: int, st: State)
    requires name != "i"
    requires Get(st, "i") == Some(Binding(IntValue(n), Integer))
    requires Get(st, name) == None
    ensures Eval(Assign(name, Increment()), st, 0)
            == Ok(IntValue(n + 1), Integer,
                  Set(Set(st, "i", IntValue(n + 1), Integer), name, IntValue(n + 1), Integer))
  {
    assert Eval(Binary(Add, Variable("i"), IntLiteral(1)), st, 0) == Ok(IntValue(n + 1), Integer, st);
  }

  /** The state `i = 0; j = (i = i + 1); k = (i = i + 1); l = (i = i + 1)`
      leaves when started in `st`: each assignment of the chain in turn. */
  function Counted(st: State): State {
    var s0 := Set(st, "i", IntValue(0), Integer);
    var s1 := Set(Set(s0, "i", IntValue(1), Integer), "j", IntValue(1), Integer);
    var s2 := Set(Set(s1, "i", IntValue(2), Integer), "k", IntValue(2), Integer);
    Set(Set(s2, "i", IntValue(3), Integer), "l", IntValue(3), Integer)
  }

  /** `i = 0; j = (i = i + 1); k = (i = i + 1); l = (i = i + 1)`: the
      elements run in order, each seeing the assignments before it, and
      leave `j`, `k`, `l` bound to 1, 2, 3 and `i` to 3. The tests start
      from the empty state; any state without these names will do. */
  lemma SequencingOrder(st: State)
    requires Get(st, "i") == None && Get(st, "j") == None
    requires Get(st, "k") == None && Get(st, "l") == None
    ensures var r := Eval(Program([Assign("i", IntLiteral(0)), Assign("j", Increment()),
                                   Assign("k", Increment()), Assign("l", Increment())]), st, 0);
            && r.Ok?
            && Get(r.st, "j") == Some(Binding(IntValue(1), Integer))
            && Get(r.st, "k") == Some(Binding(IntValue(2), Integer))
            && Get(r.st, "l") == Some(Binding(IntValue(3), Integer))
            && Get(r.st, "i") == Some(Binding(IntValue(3), Integer))
  {
    SequencingSteps(st);
  }

  /** The sequencing program ends in `Counted(st)`. */
  lemma SequencingSteps(st: State)
    requires Get(st, "i") == None && Get(st, "j") == None
    requires Get(st, "k") == None && Get(st, "l") == None
    ensures Eval(Program([Assign("i", IntLiteral(0)), Assign("j", Increment()),
                          Assign("k", Increment()), Assign("l", Increment())]), st, 0)
            == Ok(IntValue(3), Integer, Counted(st))
  {
    var first := Assign("i", IntLiteral(0));
    var rest := [Assign("j", Increment()), Assign("k", Increment()), Assign("l", Increment())];
    var all := [first, Assign("j", Increment()), Assign("k", Increment()), Assign("l", Increment())];
    var s0 := Set(st, "i", IntValue(0), Integer);
    assert all[0] == first && all[1..] == rest;
    assert Eval(first, st, 0) == Ok(IntValue(0), Integer, s0);
    SequenceStep(all, st, 0);
    IncrementJKL(s0);
  }

  /** The last three elements of the sequencing scenario, from `i == 0`. */
  lemma IncrementJKL(st: State)
    requires Get(st, "i") == Some(Binding(IntValue(0), Integer))
    requires Get(st, "j") == None && Get(st, "k") == None && Get(st, "l") == None
    ensures var s1 := Set(Set(st, "i", IntValue(1), Integer), "j", IntValue(1), Integer);
            var s2 := Set(Set(s1, "i", IntValue(2), Integer), "k", IntValue(2), Integer);
            EvalAll([Assign("j", Increment()), Assign("k", Increment()), Assign("l", Increment())], st, 0)
            == Ok(IntValue(3), Integer, Set(Set(s2, "i", IntValue(3), Integer), "l", IntValue(3), Integer))
  {
    var first := Assign("j", Increment());
    var rest := [Assign("k", Increment()), Assign("l", Increment())];
    var s1 := Set(Set(st, "i", IntValue(1), Integer), "j", IntValue(1), Integer);
    var all := [first, Assign("k", Increment()), Assign("l", Increment())];
    IncrementInto("j", 0, st);
    assert all[0] == first && all[1..] == rest;
    assert Eval(first, st, 0) == Ok(IntValue(1), Integer, s1);
    SequenceStep(all, st, 0);
    IncrementKL(s1);
  }

  /** The last two elements of the sequencing scenario, from `i == 1`. */
  lemma IncrementKL(st: State)
    requires Get(st, "i") == Some(Binding(IntValue(1), Integer))
    requires Get(st, "k") == None && Get(st, "l") == None
    ensures var s2 := Set(Set(st, "i", IntValue(2), Integer), "k", IntValue(2), Integer);
            EvalAll([Assign("k", Increment()), Assign("l", Increment())], st, 0)
            == Ok(IntValue(3), Integer, Set(Set(s2, "i", IntValue(3), Integer), "l", IntValue(3), Integer))
  {
    var first := Assign("k", Increment());
    var rest := [Assign("l", Increment())];
    var s2 := Set(Set(st, "i", IntValue(2), Integer), "k", IntValue(2), Integer);
    var all := [first, Assign("l", Increment())];
    IncrementInto("k", 1, st);
    assert all[0] == first && all[1..] == rest;
    assert Eval(first, st, 0) == Ok(IntValue(2), Integer, s2);
    SequenceStep(all, st, 0);
    IncrementInto("l", 2, s2);
  }

  /** `i = j = 10` binds both names. */
  lemma ChainedAssignment()
    ensures var r := Run(Assign("i", Assign("j", IntLiteral(10))), 0);
            && r.Ok?
            && Get(r.st, "i") == Some(Binding(IntValue(10), Integer))
            && Get(r.st, "j") == Some(Binding(IntValue(10), Integer))
  {
  }

  /** `i + (j = 11)` with `i` bound to 10 is 21 and binds `j`. */
  lemma ReadThenAssign(st: State)
    requires Get(st, "i") == Some(Binding(IntValue(10), Integer))
    requires Get(st, "j") == None
    ensures Eval(Binary(Add, Variable("i"), Assign("j", IntLiteral(11))), st, 0)
            == Ok(IntValue(21), Integer, Set(st, "j", IntValue(11), Integer))
  {
  }

  /** `(i = 10) + (i + (j = 11))` is 31: the right operand sees the left
      one's assignment, and both assignments persist. */
  lemma SideEffectsInAdd()
    ensures var r := Run(Binary(Add, Assign("i", IntLiteral(10)),
                             Binary(Add, Variable("i"), Assign("j", IntLiteral(11)))), 0);
            && r.Ok? && r.value == IntValue(31) && r.ty == Integer
            && Get(r.st, "i") == Some(Binding(IntValue(10), Integer))
            && Get(r.st, "j") == Some(Binding(IntValue(11), Integer))
  {
    var s1 := Set(Empty(), "i", IntValue(10), Integer);
    assert Eval(Assign("i", IntLiteral(10)), Empty(), 0) == Ok(IntValue(10), Integer, s1);
    ReadThenAssign(s1);
  }

  /** The same program with `-`. */
  lemma SideEffectsInSubtract()
    ensures var r := Run(Binary(Subtract, Assign("i", IntLiteral(10)),
                                  Binary(Add, Variable("i"), Assign("j", IntLiteral(11)))), 0);
            && r.Ok? && r.value == IntValue(-11) && r.ty == Integer
            && Get(r.st, "i") == Some(Binding(IntValue(10), Integer))
            && Get(r.st, "j") == Some(Binding(IntValue(11), Integer))
  {
    var s1 := Set(Empty(), "i", IntValue(10), Integer);
    assert Eval(Assign("i", IntLiteral(10)), Empty(), 0) == Ok(IntValue(10), Integer, s1);
    ReadThenAssign(s1);
  }

  /** The same program with `*`. */
  lemma SideEffectsInMultiply()
    ensures var r := Run(Binary(Multiply, Assign("i", IntLiteral(10)),
                                  Binary(Add, Variable("i"), Assign("j", IntLiteral(11)))), 0);
            && r.Ok? && r.value == IntValue(210) && r.ty == Integer
            && Get(r.st, "i") == Some(Binding(IntValue(10), Integer))
            && Get(r.st, "j") == Some(Binding(IntValue(11), Integer))
  {
    var s1 := Set(Empty(), "i", IntValue(10), Integer);
    assert Eval(Assign("i", IntLiteral(10)), Empty(), 0) == Ok(IntValue(10), Integer, s1);
    ReadThenAssign(s1);
  }

  /** `(i = 10) / (i + (j = 10))` is 0, and both assignments persist. */
  lemma SideEffectsInDivide()
    ensures var r := Run(Binary(Divide, Assign("i", IntLiteral(10)),
                                Binary(Add, Variable("i"), Assign("j", IntLiteral(10)))), 0);
            && r.Ok? && r.value == IntValue(0) && r.ty == Integer
            && Get(r.st, "i") == Some(Binding(IntValue(10), Integer))
            && Get(r.st, "j") == Some(Binding(IntValue(10), Integer))
  {
    var s1 := Set(Empty(), "i", IntValue(10), Integer);
    var s2 := Set(s1, "j", IntValue(10), Integer);
    assert Eval(Assign("i", IntLiteral(10)), Empty(), 0) == Ok(IntValue(10), Integer, s1);
    assert Eval(Binary(Add, Variable("i"), Assign("j", IntLiteral(10))), s1, 0) == Ok(IntValue(20), Integer, s2);
  }

  /** The condition selects a branch; a non-Boolean one raises TypeError. */
  lemma IfChoosesBranch()
    ensures Run(If(BooleanLiteral(false), StringLiteral("Then"), StringLiteral("Else")), 0)
            == Ok(StrValue("Else"), String, Empty())
    ensures Run(If(IntLiteral(1), Variable("i"), Variable("i")), 0) == Error(TypeError)
  {
  }

  /** The condition may assign, and the branch sees the assignment. The
      test starts from the empty state; any state without `i` will do. */
  lemma IfConditionAssigns(st: State)
    requires Get(st, "i") == None
    ensures Eval(If(Binary(Ne, IntLiteral(0), Assign("i", IntLiteral(10))), Variable("i"), Variable("i")), st, 0)
            == Ok(IntValue(10), Integer, Set(st, "i", IntValue(10), Integer))
  {
    var s1 := Set(st, "i", IntValue(10), Integer);
    AssigningCondition(st);
    assert Eval(Variable("i"), s1, 0) == Ok(IntValue(10), Integer, s1);
  }

  /** `0 != (i = 10)` is true and binds `i`. */
  lemma AssigningCondition(st: State)
    requires Get(st, "i") == None
    ensures Eval(Binary(Ne, IntLiteral(0), Assign("i", IntLiteral(10))), st, 0)
            == Ok(BoolValue(true), Boolean, Set(st, "i", IntValue(10), Integer))
  {
    var s1 := Set(st, "i", IntValue(10), Integer);
    assert Eval(Assign("i", IntLiteral(10)), st, 0) == Ok(IntValue(10), Integer, s1);
    assert Apply(Ne, IntValue(0), Integer, IntValue(10), Integer) == Success((BoolValue(true), Boolean));
  }

  /** A true condition selects the then branch; a Unit branch yields (None, Unit). */
  lemma IfOtherBranches()
    ensures Run(If(BooleanLiteral(true), StringLiteral("Then"), StringLiteral("Else")), 0)
            == Ok(StrValue("Then"), String, Empty())
    ensures Run(If(BooleanLiteral(false), StringLiteral("Then"), Ren), 0) == Ok(NoneValue, Unit, Empty())
  {
  }

  /** The same with an `==` condition, which is false: the else branch reads
      the `i` the condition assigned. */
  lemma IfEqConditionAssigns(st: State)
    requires Get(st, "i") == None
    ensures Eval(If(Binary(Eq, IntLiteral(0), Assign("i", IntLiteral(10))), Variable("i"), Variable("i")), st, 0)
            == Ok(IntValue(10), Integer, Set(st, "i", IntValue(10), Integer))
  {
    var s1 := Set(st, "i", IntValue(10), Integer);
    EqAssigningCondition(st);
    assert Eval(Variable("i"), s1, 0) == Ok(IntValue(10), Integer, s1);
  }

  /** `0 == (i = 10)` is false and binds `i`. */
  lemma EqAssigningCondition(st: State)
    requires Get(st, "i") == None
    ensures Eval(Binary(Eq, IntLiteral(0), Assign("i", IntLiteral(10))), st, 0)
            == Ok(BoolValue(false), Boolean, Set(st, "i", IntValue(10), Integer))
  {
    var s1 := Set(st, "i", IntValue(10), Integer);
    assert Eval(Assign("i", IntLiteral(10)), st, 0) == Ok(IntValue(10), Integer, s1);
    assert Apply(Eq, IntValue(0), Integer, IntValue(10), Integer) == Success((BoolValue(false), Boolean));
  }

  /** `if (false and true) j = "Then" else j = "Else"`. */
  function ThenOrElse(): Expr {
    If(Binary(And, BooleanLiteral(false), BooleanLiteral(true)),
       Assign("j", StringLiteral("Then")),
       Assign("j", StringLiteral("Else")))
  }

  /** Only the taken branch's assignment happens: `j` is bound to "Else". */
  lemma ElseBranchOnly(st: State)
    requires Get(st, "j") == None
    ensures Eval(ThenOrElse(), st, 0) == Ok(StrValue("Else"), String, Set(st, "j", StrValue("Else"), String))
  {
    assert Eval(Binary(And, BooleanLiteral(false), BooleanLiteral(true)), st, 0)
           == Ok(BoolValue(false), Boolean, st);
    assert Eval(Assign("j", StringLiteral("Else")), st, 0)
           == Ok(StrValue("Else"), String, Set(st, "j", StrValue("Else"), String));
  }

  /** `i = (if (false and true) j = "Then" else j = "Else")` binds both names
      to "Else". The test starts from the empty state; any state without `i`
      and `j` will do. */
  lemma IfTakesOneBranch(st: State)
    requires Get(st, "i") == None && Get(st, "j") == None
    ensures Eval(Assign("i", ThenOrElse()), st, 0)
            == Ok(StrValue("Else"), String,
                  Set(Set(st, "j", StrValue("Else"), String), "i", StrValue("Else"), String))
  {
    ElseBranchOnly(st);
    assert Get(Set(st, "j", StrValue("Else"), String), "i") == None;
  }

  /** `while (j < 10) { j = j + 1 }`. */
  function CountToTen(): Expr {
    While(Binary(Lt, Variable("j"), IntLiteral(10)),
          Sequence([Assign("j", Binary(Add, Variable("j"), IntLiteral(1)))]))
  }

  /** One run of the loop body from `j = k`. */
  lemma CountBody(k: int, st: State, fuel: nat)
    requires Get(st, "j") == Some(Binding(IntValue(k), Integer))
    ensures Eval(Sequence([Assign("j", Binary(Add, Variable("j"), IntLiteral(1)))]), st, fuel)
            == Ok(IntValue(k + 1), Integer, Set(st, "j", IntValue(k + 1), Integer))
  {
    var step := Assign("j", Binary(Add, Variable("j"), IntLiteral(1)));
    assert Eval(Binary(Add, Variable("j"), IntLiteral(1)), st, fuel) == Ok(IntValue(k + 1), Integer, st);
    assert Eval(step, st, fuel) == Ok(IntValue(k + 1), Integer, Set(st, "j", IntValue(k + 1), Integer));
  }

  /** One test and one run of the body: with `j = k < 10` the loop goes on
      from `j = k + 1` with one unit of fuel less. */
  lemma CountStep(k: int, st: State, fuel: nat)
    requires k < 10 && fuel > 0
    requires Get(st, "j") == Some(Binding(IntValue(k), Integer))
    ensures Eval(CountToTen(), st, fuel)
            == Eval(CountToTen(), Set(st, "j", IntValue(k + 1), Integer), fuel - 1)
  {
    assert Eval(Binary(Lt, Variable("j"), IntLiteral(10)), st, fuel) == Ok(BoolValue(true), Boolean, st);
    CountBody(k, st, fuel);
  }

  /** Started with `j = k`, the loop runs its body exactly 10 - k times:
      with that much fuel it ends with `j = 10`, with less it runs out. */
  lemma {:induction false} CountToTenFrom(k: int, st: State, fuel: nat)
    requires 0 <= k <= 10
    requires Get(st, "j") == Some(Binding(IntValue(k), Integer))
    ensures fuel < 10 - k ==> Eval(CountToTen(), st, fuel) == OutOfFuel
    ensures fuel >= 10 - k ==> Eval(CountToTen(), st, fuel).Ok?
    ensures fuel >= 10 - k ==>
              Get(Eval(CountToTen(), st, fuel).st, "j") == Some(Binding(IntValue(10), Integer))
    decreases 10 - k
  {
    assert Eval(Binary(Lt, Variable("j"), IntLiteral(10)), st, fuel) == Ok(BoolValue(k < 10), Boolean, st);
    if k < 10 && fuel > 0 {
      CountStep(k, st, fuel);
      CountToTenFrom(k + 1, Set(st, "j", IntValue(k + 1), Integer), fuel - 1);
    }
  }

  /** `j = 0; while (j < 10) { j = j + 1 }` ends with `j = 10`. */
  lemma CountingLoopProgram()
    ensures var r := Run(Program([Assign("j", IntLiteral(0)), CountToTen()]), 10);
            r.Ok? && Get(r.st, "j") == Some(Binding(IntValue(10), Integer))
  {
    var es := [Assign("j", IntLiteral(0)), CountToTen()];
    var st := Set(Empty(), "j", IntValue(0), Integer);
    assert Eval(es[0], Empty(), 10) == Ok(IntValue(0), Integer, st);
    assert es[1..] == [CountToTen()];
    assert Run(Program(es), 10) == Eval(CountToTen(), st, 10);
    CountToTenFrom(0, st, 10);
  }

  /** A loop whose condition is not a Boolean raises TypeError. */
  lemma NonBooleanLoopCondition()
    ensures Run(Program([Assign("j", IntLiteral(0)),
                         While(IntLiteral(10), Sequence([Assign("j", Binary(Add, Variable("j"), IntLiteral(1)))]))]), 10)
            == Error(TypeError)
  {
    var bad := While(IntLiteral(10), Sequence([Assign("j", Binary(Add, Variable("j"), IntLiteral(1)))]));
    var es := [Assign("j", IntLiteral(0)), bad];
    assert es[1..] == [bad];
  }

  /** A snapshot keeps its bindings after states derived from it rebind
      them: persistent, copy-on-write update. */
  lemma SnapshotsPersist()
    ensures var state := Empty();
            var state2 := Set(state, "x", IntValue(5), Integer);
            var state3 := Set(state2, "k", BoolValue(true), Boolean);
            var state4 := Set(state3, "x", IntValue(7), Integer);
            && Get(state, "x") == None
            && Get(state2, "x") == Some(Binding(IntValue(5), Integer))
            && Get(state3, "k") == Some(Binding(BoolValue(true), Boolean))
            && Get(state4, "x") == Some(Binding(IntValue(7), Integer))
            && Get(state4, "y") == None
  {
  }
}
