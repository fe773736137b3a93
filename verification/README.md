# STIMPL interpreter core in Dafny

STIMPL is a small imperative teaching language. It has five runtime type
tags and an expression AST whose nodes check their arguments when they are
built. Programs run in a big-step evaluator. `evaluate(expression, state)`
returns a `(value, type, state')` triple. It threads a persistent,
copy-on-write state left to right through every sub-expression. It fails
with a syntax error, a type error or a math error.

This project models that core.

| Dafny module | models |
|---|---|
| `Types` (types.dfy) | the five type tags and their tag-only `__eq__` (stimpl/types.py) |
| `Errors` (errors.dfy) | the three interpreter error kinds, and `Result` for a fallible constructor or operator |
| `Values` (values.dfy) | the host payloads a value can have (None, int, float, str, bool) and the host operators on them. The source's `evaluate` applies `+`, `and` and `<` (stimpl/runtime.py:96, 120, 147). `-`, `*`, `//`, `/` and `<=` belong to the cases the source leaves as `pass`, and follow the sanity tests |
| `Expression` (expression.dfy) | the AST of stimpl/expression.py, and the fallible constructors of the four literals and of `Assign` |
| `Environment` (environment.dfy) | class `State`: `get_value`, and `set_value`, which returns a new state |
| `Runtime` (runtime.dfy) | `evaluate` as `Eval`, the element-by-element run of a `Program`/`Sequence` as `EvalAll`, and `run_stimpl` as `Run` |
| `Fuel`, `Invariants`, `Semantics` | properties of the evaluator that hold for all programs and states |
| `Scenarios` | the concrete programs of the sanity tests, proved against the model |

In stimpl/runtime.py, `evaluate` implements Ren, the literals, Print,
Variable, Assign, Add, And and Lt. The other cases are `pass`:

- Sequence and Program
- Subtract, Multiply and Divide
- Or and Not
- If
- Lte, Gt, Gte, Eq and Ne
- While

Each of these is modelled as the sanity tests in stimpl/test.py require. It
is marked "Per tests, source is a stub" in runtime.dfy.

An evaluation ends in one of three outcomes:

- `Ok(value, ty, st)`: the triple `evaluate` returns.
- `Error(kind)`: the interpreter exception it raises.
- `OutOfFuel`: a loop exceeded its budget.

Only `While` spends fuel, one unit per run of its body. A loop-free program
therefore never runs out (`Fuel.LoopFreeNeverOutOfFuel`). More fuel never
changes a finished evaluation (`Fuel.FuelMonotone`).

The twelve binary node classes all have the same shape, `(left, right)`.
The model writes them as one node, `Binary(op, left, right)`, with `op` one
of the twelve operators. Every operator evaluates its operands left then
right, and `Apply` does the per-operator work on the two results.

The evaluator dispatches on a value's type tag, as the source does. It then
computes on the payload with the host operator. A state stores the
`(value, type)` pair `set_value` was given. A pair whose payload does not
match its tag cannot arise from `run_stimpl` (`Invariants.RunWellTyped`).
"## Left out" says what the model does with one from a hand-built state.

## Model

| member | source | states |
|---|---|---|
| Types.Equals | stimpl/types.py:18-83 | a tag equals another tag exactly when both are the same one of the five tags |
| Types.ClosedSetOfFive | stimpl/types.py:11-83 | every tag is one of exactly five |
| Types.EqualsSymmetric | stimpl/types.py:18-83 | tag equality is symmetric |
| Values.StrLess | stimpl/runtime.py:145-147 | Python's `<` on two str values: the first differing character decides by code point, and a proper prefix sorts first. No ensures; its laws are `Values.StrLessIrreflexive`, `StrLessTransitive`, `StrLessTotal` and `ProperPrefixIsLess` |
| Values.StrLessIrreflexive | stimpl/runtime.py:145-147 | Python's lexicographic `<` on str never holds between a string and itself |
| Values.StrLessTransitive | stimpl/runtime.py:145-147 | lexicographic `<` on str is transitive |
| Values.StrLessTotal | stimpl/runtime.py:145-147 | any two strings are ordered one way, the other way, or equal |
| Values.ProperPrefixIsLess | stimpl/runtime.py:145-147 | a proper prefix sorts before the longer string, unlike Dafny's own `<` on sequences, which is only the proper-prefix relation |
| Values.HostPlus | stimpl/runtime.py:94-96 | `+` is defined exactly on two ints, two floats or two strs, and its result has the operands' kind |
| Values.HostMinus | stimpl/test.py:62-70 | `-` is defined exactly on two ints or two floats, with a result of the same kind |
| Values.HostTimes | stimpl/test.py:72-77 | `*` is defined exactly on two ints or two floats, with a result of the same kind |
| Values.FloorDiv | stimpl/test.py:446-453 | for non-negative operands, the integer quotient rounds down: `q*b <= a < q*b + b` |
| Values.HostDivide | stimpl/test.py:79-126 | division is defined exactly on two numbers of one kind; it fails with MathError exactly when the divisor is 0 or 0.0, and otherwise keeps the operands' kind |
| Values.HostLess | stimpl/runtime.py:145-147 | `<` gives a Boolean exactly for two payloads of one kind other than None |
| Values.HostLessEq | stimpl/test.py:177-186 | `<=` gives a Boolean exactly for two payloads of one kind other than None |
| Values.HostOrderTotal | stimpl/runtime.py:145-147 | the host orders are total: `<=` is `<` or equal, and `a < b` is the negation of `b <= a` |
| Expression.MkIntLiteral | stimpl/expression.py:38-43 | construction succeeds exactly on an int payload (a bool is refused); a failure is TypeError; the node carries the payload it was given |
| Expression.MkFloatingPointLiteral | stimpl/expression.py:46-51 | construction succeeds exactly on a float payload, else TypeError; the node carries the payload |
| Expression.MkStringLiteral | stimpl/expression.py:54-59 | construction succeeds exactly on a str payload, else TypeError; the node carries the payload |
| Expression.MkBooleanLiteral | stimpl/expression.py:62-67 | construction succeeds exactly on a bool payload, else TypeError; the node carries the payload |
| Expression.MkAssign | stimpl/expression.py:91-96 | construction succeeds exactly when the target is a `Variable`, else SyntaxError; the node keeps that variable's name and the value expression |
| Environment.Get | stimpl/runtime.py:20-24 | `get_value`: the stored pair, or None for an unbound name. No ensures; `Environment.Set`, `Empty` and `SameLookupsSameState` state how it answers |
| Environment.Empty | stimpl/runtime.py:6-9 | a new state binds no name |
| Environment.Set | stimpl/runtime.py:11-17 | the new state binds the name to the given (value, type) pair, and every other name reads as before |
| Environment.SetTwice | stimpl/runtime.py:11-17 | rebinding a name replaces its earlier binding entirely |
| Environment.SetWellTyped | stimpl/runtime.py:11-17 | storing a pair whose payload matches its tag keeps every stored pair matching |
| Environment.SameLookupsSameState | stimpl/runtime.py:20-24 | a state is determined by what `get_value` answers for every name |
| Runtime.Bind | stimpl/runtime.py:75-83 | the binding step of Assign succeeds exactly when the name is unbound or already has the value's type; it then yields the value's pair and the state with the name bound to it; otherwise exactly `Error(TypeError)` |
| Runtime.Eval | stimpl/runtime.py:35-175 | `evaluate`, one case per node kind, with fuel for While. No ensures; its properties are `Invariants.EvalWellTyped`, `EvalExtends`, `EvalFrame`, `Fuel.FuelMonotone`, `Fuel.LoopFreeNeverOutOfFuel` and the per-construct rules in `Semantics` |
| Runtime.EvalAll | stimpl/test.py:261-265 | the stubbed Sequence and Program case (runtime.py:68-69) as the tests use it: elements run in order, each under the state the previous one left, and the last one's pair is the result. No ensures; `Semantics.SequenceBasics`, `SequenceStep` and `SequenceAppend` state it |
| Runtime.Run | stimpl/runtime.py:177-186 | `run_stimpl`: evaluation from the empty state. No ensures; `Invariants.RunWellTyped` states that its results are well typed |
| Runtime.Apply | stimpl/runtime.py:85-153 | the operator step of Add, And and Lt (and, as the tests specify, the stubbed operators): mismatched tags raise TypeError, then the operator's group decides. No ensures; `Runtime.ApplyTyping` and `Semantics.ApplyErrors` state it |
| Runtime.Arithmetic | stimpl/runtime.py:94-98 | Add on Integer, String or FloatingPoint computes the host sum; Subtract, Multiply and Divide follow the tests. No ensures; `Semantics.ArithmeticErrors` and `Semantics.AddValue` state it |
| Runtime.Logical | stimpl/runtime.py:118-122 | And (and, per the tests, Or) on Booleans; any other tag raises TypeError. No ensures; `Semantics.LogicalValue` states it |
| Runtime.Relational | stimpl/runtime.py:145-151 | Lt uses the host order on Integer, Boolean, String and FloatingPoint and is False on Unit; the other comparisons follow the tests. No ensures; `Semantics.LtValue`, `ComparisonsConsistent` and the negation lemmas state it |
| Runtime.ApplyTyping | stimpl/runtime.py:85-153 | a successful operator had operands of one tag; its result type is that tag for arithmetic and Boolean for logic and comparisons; payloads that match their tags give a result payload that matches its tag |
| Fuel.FuelMonotone | stimpl/runtime.py:35-175 | an evaluation that finished with some fuel finishes identically with more |
| Fuel.FuelMonotoneAll | stimpl/test.py:261-265 | the same for the elements of a `Program` or `Sequence` |
| Fuel.LoopFreeNeverOutOfFuel | stimpl/runtime.py:35-175 | an expression without `While` never runs out of fuel, even with none |
| Fuel.LoopFreeNeverOutOfFuelAll | stimpl/test.py:304-317 | the same for the elements of a loop-free `Program` |
| Invariants.EvalExtends | stimpl/runtime.py:71-83 | a successful evaluation never unbinds a name or changes a bound name's type |
| Invariants.EvalAllExtends | stimpl/test.py:391-401 | the same for a `Program` or `Sequence` |
| Invariants.EvalWellTyped | stimpl/runtime.py:35-175 | from a state whose pairs all match their tags, a successful evaluation yields a matching pair and such a state |
| Invariants.EvalAllWellTyped | stimpl/test.py:261-284 | the same for a `Program` or `Sequence` |
| Invariants.RunWellTyped | stimpl/runtime.py:177-186 | every successful `run_stimpl` yields a value matching its type, in a state whose pairs all match their tags |
| Invariants.EvalFrame | stimpl/runtime.py:35-175 | only names that an `Assign` inside the expression targets can change; every other binding or absence survives |
| Invariants.EvalAllFrame | stimpl/test.py:304-317 | the same for a `Program` or `Sequence` |
| Invariants.AssignmentFreeKeepsState | stimpl/runtime.py:35-175 | an expression containing no `Assign` leaves the state exactly as it was |
| Semantics.LiteralRoundTrip | stimpl/runtime.py:37-50 | a literal its constructor accepted evaluates to the very payload it was built from, with the literal's tag, and leaves the state alone |
| Semantics.VariableRead | stimpl/runtime.py:62-66 | reading a variable fails exactly when it is unbound, and then with SyntaxError; a bound name yields its stored pair and leaves the state alone |
| Semantics.AssignRule | stimpl/runtime.py:71-83 | the value is evaluated first and its failure propagates; the name's existing binding is looked up in the state that evaluation left; TypeError exactly when it is bound there with another type, and success exactly otherwise; on success the result is the value's pair, the name is bound to it and no other name changes |
| Semantics.AssignThenRead | stimpl/test.py:268-284 | reading a name right after a successful assignment to it yields the assigned pair and changes nothing more |
| Semantics.ChainedAssign | stimpl/test.py:403-409 | in `i = j = x` both names end up bound to x's pair, which is also the result |
| Semantics.TypeStaysFixed | stimpl/test.py:388-401 | once a name is bound, every successful evaluation leaves it bound with the same type |
| Semantics.BinaryOrder | stimpl/runtime.py:85-88 | the left operand runs under the incoming state and the right under the state the left one left; the first failure is the node's result |
| Semantics.BinaryErrors | stimpl/runtime.py:85-153 | with both operands evaluated from a well-typed state: TypeError exactly when their tags differ or the operator does not support the tag; MathError exactly for Divide of supported equal tags by zero; success exactly when neither applies |
| Semantics.ApplyErrors | stimpl/runtime.py:90-98 | the same three if-and-only-ifs for an operator applied to matching payloads: TypeError, MathError, and success when neither applies |
| Semantics.ArithmeticErrors | stimpl/test.py:86-140 | `+` accepts exactly Integer, FloatingPoint and String; `-`, `*` and `/` accept exactly Integer and FloatingPoint; a zero divisor raises MathError only after the tag check passes; nothing else fails |
| Semantics.BinaryResult | stimpl/runtime.py:85-153 | a successful binary node had both operands succeed with equal tags; it ends in the right operand's state, typed like its operands (arithmetic) or Boolean |
| Semantics.AddValue | stimpl/runtime.py:85-100 | the value of a successful Add is the host sum of the operand payloads: integer addition, or string concatenation |
| Semantics.LogicalValue | stimpl/runtime.py:111-124 | And and Or evaluate both operands, which are Booleans, and yield their conjunction or disjunction |
| Semantics.BinaryUnfold | stimpl/runtime.py:85-153 | a one-step unfolding used by the other proofs: when both operands succeed, the binary node's outcome is `Apply` on their pairs, with the right operand's state |
| Semantics.ComparisonsConsistent | stimpl/test.py:166-230 | on one tag, `>=` negates `<`, `>` negates `<=`, `!=` negates `==`, and `<=` is `<` or `==`; every comparison succeeds, Unit included |
| Semantics.LtValue | stimpl/runtime.py:135-153 | a successful `<` had operands of one tag; on Unit it is False; otherwise it is the host order of the payloads: numeric order, False before True, lexicographic order on strings |
| Semantics.ComparedOperands | stimpl/runtime.py:135-153 | a successful comparison had operands of one tag whose payloads match it |
| Semantics.GteNegatesLt | stimpl/test.py:221-230 | `l >= r` has the same effects as `l < r` and the negated value |
| Semantics.GtNegatesLte | stimpl/test.py:210-219 | `l > r` has the same effects as `l <= r` and the negated value |
| Semantics.NeNegatesEq | stimpl/test.py:199-208 | `l != r` has the same effects as `l == r` and the negated value |
| Semantics.LteIsLtOrEq | stimpl/test.py:177-186 | `l <= r` holds exactly when `l < r` or `l == r` does |
| Semantics.SequenceBasics | stimpl/test.py:261-265 | Program and Sequence mean the same; no elements give (None, Unit) and the same state; one element gives that element's result |
| Semantics.SequenceStep | stimpl/test.py:304-317 | a one-step unfolding used by the other proofs: when the first element succeeds and more follow, the outcome of the `Program` node, and of evaluating the list, is that of the rest run under the state the first left |
| Semantics.SequenceAppend | stimpl/test.py:304-317 | running `front + back` runs `front`, then `back` under the state `front` left, and yields `back`'s result; a failure in `front` is the result |
| Semantics.IfRunsOneBranch | stimpl/test.py:319-362 | a non-Boolean condition raises TypeError; a Boolean one runs exactly the branch it selects, under the state the condition left |
| Semantics.WhileYieldsUnit | stimpl/test.py:364-375 | a loop that finishes yields (None, Unit) |
| Semantics.WhileUnfolds | stimpl/test.py:364-386 | a finished loop equals `if c then (body; loop) else Ren`: the condition is re-tested after each run of the body |
| Scenarios.IntegerAddition | stimpl/test.py:53-57 | `10 + 10` is 20 and `20 + -10` is 10 |
| Scenarios.IntegerSubtractMultiply | stimpl/test.py:65-73 | `10 - 20` is -10 and `10 * 10` is 100 |
| Scenarios.IntegerDivision | stimpl/test.py:79-80 | `10 / 10` is 1 |
| Scenarios.StringConcatenation | stimpl/test.py:129-130 | `"Hello" + ", World"` is "Hello, World" |
| Scenarios.MismatchedOperands | stimpl/test.py:87-117 | a float added to an int, or an int divided by a float, raises TypeError |
| Scenarios.UnsupportedAddition | stimpl/test.py:91-94 | adding Booleans or Units raises TypeError |
| Scenarios.UnsupportedSubtraction | stimpl/test.py:133-134 | subtracting strings raises TypeError |
| Scenarios.DivisionByZero | stimpl/test.py:123-126 | dividing by 0 or 0.0 raises MathError |
| Scenarios.LogicPrograms | stimpl/test.py:143-159 | `true and false` is false; `false or true` is true |
| Scenarios.NotProgram | stimpl/test.py:161-162 | `not true` is false |
| Scenarios.UnitComparisons | stimpl/test.py:166-178 | for two Units, `<` is false and `<=` is true |
| Scenarios.UnitInequality | stimpl/test.py:199-200 | for two Units, `!=` is false |
| Scenarios.BooleanOrder | stimpl/test.py:168-169 | `false < true` |
| Scenarios.StringOrder | stimpl/test.py:174-219 | "alpha" < "beta" holds and "alpha" > "beta" does not |
| Scenarios.LogicTypeErrors | stimpl/test.py:233-258 | `and` on an int, or `not` on a Unit, raises TypeError |
| Scenarios.ProgramValues | stimpl/test.py:261-265 | a program yields its last element's value; an empty one yields (None, Unit) |
| Scenarios.ReadBack | stimpl/test.py:267-284 | `i = x; i` yields x's pair and leaves i bound to it, for any x that evaluates without effects |
| Scenarios.ReadBackEachKind | stimpl/test.py:268-284 | reading back a Unit, a float, a string and a Boolean gives the assigned pair |
| Scenarios.ReadBeforeAndAfterAssign | stimpl/test.py:271-290 | reading `i` before assigning it raises SyntaxError; after `i = 1` it reads 1 |
| Scenarios.MalformedConstruction | stimpl/test.py:292-298 | assigning to a literal is refused with SyntaxError at construction |
| Scenarios.ReassignIntegerAsFloat | stimpl/test.py:391-395 | rebinding an Integer variable to a float raises TypeError |
| Scenarios.ReassignUnitAsFloat | stimpl/test.py:397-401 | rebinding a Unit variable to a float raises TypeError |
| Scenarios.IncrementInto | stimpl/test.py:306-307 | `name = (i = i + 1)` binds both names to i's old value plus one |
| Scenarios.SequencingOrder | stimpl/test.py:299-317 | `i = 0; j = (i = i + 1); k = (i = i + 1); l = (i = i + 1)` leaves j, k, l at 1, 2, 3 and i at 3 |
| Scenarios.SequencingSteps | stimpl/test.py:304-313 | the same program yields 3 and ends in the state of the four assignments in order |
| Scenarios.IncrementJKL | stimpl/test.py:306-311 | its last three elements, run from `i = 0`, yield 3 and bind j, k, l in turn |
| Scenarios.IncrementKL | stimpl/test.py:308-311 | its last two elements, run from `i = 1`, yield 3 and bind k and l in turn |
| Scenarios.ChainedAssignment | stimpl/test.py:405-409 | `i = j = 10` binds both names to 10 |
| Scenarios.ReadThenAssign | stimpl/test.py:417-418 | `i + (j = 11)` with `i = 10` is 21 and binds j |
| Scenarios.SideEffectsInAdd | stimpl/test.py:413-422 | `(i = 10) + (i + (j = 11))` is 31 and leaves i = 10, j = 11 |
| Scenarios.SideEffectsInSubtract | stimpl/test.py:424-433 | the same program with `-` is -11, an Integer, and leaves i = 10, j = 11 |
| Scenarios.SideEffectsInMultiply | stimpl/test.py:435-444 | the same program with `*` is 210, an Integer, and leaves i = 10, j = 11 |
| Scenarios.SideEffectsInDivide | stimpl/test.py:446-455 | `(i = 10) / (i + (j = 10))` is the Integer 0 and leaves i = 10, j = 10 |
| Scenarios.IfChoosesBranch | stimpl/test.py:321-340 | a false condition selects the else branch; an Integer condition raises TypeError |
| Scenarios.IfOtherBranches | stimpl/test.py:326-334 | a true condition selects the then branch; a `Ren` else branch yields (None, Unit) |
| Scenarios.IfEqConditionAssigns | stimpl/test.py:348-351 | with a false `==` condition that assigns `i`, the else branch reads the assigned `i` |
| Scenarios.EqAssigningCondition | stimpl/test.py:348 | `0 == (i = 10)` is false and binds i to 10 |
| Scenarios.IfConditionAssigns | stimpl/test.py:342-346 | a condition that assigns `i` is seen by the branch that reads `i` |
| Scenarios.AssigningCondition | stimpl/test.py:343 | `0 != (i = 10)` is true and binds i to 10 |
| Scenarios.ElseBranchOnly | stimpl/test.py:353-357 | only the else branch's assignment to j happens |
| Scenarios.IfTakesOneBranch | stimpl/test.py:354-362 | `i = (if (false and true) j = "Then" else j = "Else")` binds both i and j to "Else" |
| Scenarios.CountBody | stimpl/test.py:369-371 | one run of the counting loop's body from `j = k` binds j to k + 1 |
| Scenarios.CountStep | stimpl/test.py:368-371 | with `j = k < 10`, the loop tests, runs its body once, and continues from `j = k + 1` |
| Scenarios.CountToTenFrom | stimpl/test.py:366-375 | from `j = k`, the loop runs its body exactly 10 - k times and ends with `j = 10`; with less fuel it runs out |
| Scenarios.CountingLoopProgram | stimpl/test.py:364-375 | `j = 0; while (j < 10) j = j + 1` ends with `j = 10` |
| Scenarios.NonBooleanLoopCondition | stimpl/test.py:377-386 | a loop whose condition is an integer raises TypeError |
| Scenarios.SnapshotsPersist | stimpl/test_state.py:5-15 | later states derived from a snapshot leave the snapshot's bindings visible and unchanged |

## Left out

- Print's console output (stimpl/runtime.py:55-58) is not modelled. `Print` passes its operand's result through unchanged.
- The debug printing of `run_stimpl` (stimpl/runtime.py:181-184) is not modelled.
- Error messages, `pretty_type` and every `__repr__` are presentation only. Only the three error kinds are kept.
- Floats are modelled as `real`. IEEE rounding, infinities and NaN are not modelled, so no float results are proved.
- Values.FloorDiv: only its meaning on non-negative operands is stated. The sanity tests divide only non-negative integers, and the source does not implement division at all.
- Values.HostLess: its ensures says when a result exists, not which Boolean it is. How the values relate is stated by `Values.HostOrderTotal`; concrete values appear in the scenarios.
- Values.HostLessEq: the same as for `Values.HostLess`.
- A payload that disagrees with its tag cannot come from `run_stimpl` (`Invariants.RunWellTyped`). Only a hand-built state can hold one, and for it the model does not follow Python exactly:
  - And, Or, Not, If and While check that the payload is a Boolean and raise TypeError otherwise.
  - Add, Subtract, Multiply, Divide, Lt, Lte, Gt and Gte check only the tags. They then compute whenever both payloads have one kind the host operator accepts, and the result can disagree with its tag: `Add` on two strings tagged Integer yields a string tagged Integer. When the payload kinds differ, or the host operator does not accept that kind, they raise TypeError. Python would instead raise its own exception, or compute (`True + True`).
  - Eq and Ne compare the payloads and succeed.
  - Every comparison on two Unit tags yields its constant, whatever the payloads.
- A `While` that never ends is modelled with fuel. Exhausting it gives `OutOfFuel`, which has no counterpart in the source. Every other construct spends no fuel.
- The Assign node stores the target variable's name. A non-variable target cannot be represented; `Expression.MkAssign` refuses it as the source's constructor does.
- Python accepts a bool where an int is expected (`True + 1`). STIMPL values never mix kinds, because operand tags must be equal, so this is not modelled.
- Divide checks the operand tags before the divisor. So `1 / 0.0` with mismatched tags is a TypeError, not a MathError. The source leaves Divide unimplemented; this order follows how the implemented operators check tags first.
- stimpl/runtime.py leaves Sequence, Program, Subtract, Multiply, Divide, Or, Not, If, Lte, Gt, Gte, Eq, Ne and While as `pass`, so `evaluate` returns None for them. The model gives them the behaviour the sanity tests in stimpl/test.py assert.
- The fallback case of `evaluate` (stimpl/runtime.py:173-174) raises SyntaxError for a node no other case matches. In the source two kinds of node reach it. The first is the abstract classes `Expr`, `Literal`, `UnaryOperator` and `BinaryOperator`. The second is a child that is not an `Expr` at all, such as `Add(IntLiteral(1), 5)`: the constructors of the operator, `Program`, `Sequence`, `If` and `While` nodes store their children without checking them (stimpl/expression.py:125-129, 233-271). The closed, typed `Expr` datatype can represent neither, so the fallback is not modelled.
- Strings are Dafny `string` values, sequences of Unicode scalar values, which `Values.StrLess` orders by code point as Python does. A Python `str` can hold a lone surrogate; a Dafny string cannot, so such strings are not modelled. The model does no encoding or normalisation, like the source.
- `Lt` on a type outside the five tags raises an error in the source. No such tag exists in the model, so that branch is not modelled.
- The driver test_stimpl.py and the test helpers in stimpl/test.py are not modelled. The test programs appear as the lemmas in module `Scenarios`.
