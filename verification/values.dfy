/** The host values STIMPL programs compute with, and the host (Python)
    operators the evaluator applies to them. */
module Values {
  import opened Types
  import opened Errors

  /** A host payload: Python's None, int, float, str or bool. A float is
      modelled as a real number; rounding, infinities and NaN are not. */
  datatype Value =
    | NoneValue
    | IntValue(i: int)
    | FloatValue(f: real)
    | StrValue(s: string)
    | BoolValue(b: bool)

  /** The payload shape a tag stands for: Unit goes with None, Integer with
      an int, and so on. */
  predicate Agrees(v: Value, t: Type) {
    match t
    case Unit => v.NoneValue?
    case Integer => v.IntValue?
    case FloatingPoint => v.FloatValue?
    case String => v.StrValue?
    case Boolean => v.BoolValue?
  }

  /** The tag a payload belongs to. */
  function TypeOf(v: Value): (t: Type)
    ensures Agrees(v, t)
    ensures forall u: Type :: Agrees(v, u) ==> u == t
  {
    match v
    case NoneValue => Unit
    case IntValue(_) => Integer
    case FloatValue(_) => FloatingPoint
    case StrValue(_) => String
    case BoolValue(_) => Boolean
  }

  // ---------------------------------------------------------------------
  // Strings: Python orders str values lexicographically by code point.
  // ---------------------------------------------------------------------

  /** Python's `a < b` on two str values. */
  predicate StrLess(a: string, b: string)
    decreases |a|
  {
    if |a| == 0 then |b| > 0
    else if |b| == 0 then false
    else if a[0] != b[0] then a[0] < b[0]
    else StrLess(a[1..], b[1..])
  }

  /** No string is below itself. */
  lemma {:induction false} StrLessIrreflexive(a: string)
    ensures !StrLess(a, a)
    decreases |a|
  {
    if |a| > 0 {
      StrLessIrreflexive(a[1..]);
    }
  }

  /** The string order is transitive. */
  lemma {:induction false} StrLessTransitive(a: string, b: string, c: string)
    requires StrLess(a, b) && StrLess(b, c)
    ensures StrLess(a, c)
    decreases |a|
  {
    if |a| > 0 && |b| > 0 && |c| > 0 && a[0] == b[0] && b[0] == c[0] {
      StrLessTransitive(a[1..], b[1..], c[1..]);
    }
  }

  /** Any two strings are ordered one way, the other way, or equal. */
  lemma {:induction false} StrLessTotal(a: string, b: string)
    ensures StrLess(a, b) || StrLess(b, a) || a == b
    decreases |a|
  {
    if |a| > 0 && |b| > 0 && a[0] == b[0] {
      StrLessTotal(a[1..], b[1..]);
      if a[1..] == b[1..] {
        assert a == [a[0]] + a[1..] && b == [b[0]] + b[1..];
      }
    }
  }

  /** A proper prefix comes first: "alpha" < "alphabet". */
  lemma {:induction false} ProperPrefixIsLess(a: string, b: string)
    requires |a| < |b| && a == b[..|a|]
    ensures StrLess(a, b)
    decreases |a|
  {
    if |a| > 0 {
      assert a[1..] == b[1..][..|a| - 1];
      ProperPrefixIsLess(a[1..], b[1..]);
    }
  }

  // ---------------------------------------------------------------------
  // Host operators on payloads. `None` means Python itself would reject
  // the operands, which happens only when payloads disagree with their tags.
  // ---------------------------------------------------------------------

  /** Optional results, shared by the whole model: a host operator's value
      (None when Python could not combine the payloads), a literal's
      payload, or a binding that `Environment.Get` may not find. */
  datatype Option<+T> = None | Some(value: T)

  /** Python's `+`: numeric addition, or concatenation of two strings. */
  function HostPlus(a: Value, b: Value): (r: Option<Value>)
    ensures r.Some? <==> TypeOf(a) == TypeOf(b) && TypeOf(a) in {Integer, FloatingPoint, String}
    ensures r.Some? ==> TypeOf(r.value) == TypeOf(a)
  {
    match (a, b)
    case (IntValue(x), IntValue(y)) => Some(IntValue(x + y))
    case (FloatValue(x), FloatValue(y)) => Some(FloatValue(x + y))
    case (StrValue(x), StrValue(y)) => Some(StrValue(x + y))
    case _ => None
  }

  /** Python's `-` on two numbers. */
  function HostMinus(a: Value, b: Value): (r: Option<Value>)
    ensures r.Some? <==> TypeOf(a) == TypeOf(b) && TypeOf(a) in {Integer, FloatingPoint}
    ensures r.Some? ==> TypeOf(r.value) == TypeOf(a)
  {
    match (a, b)
    case (IntValue(x), IntValue(y)) => Some(IntValue(x - y))
    case (FloatValue(x), FloatValue(y)) => Some(FloatValue(x - y))
    case _ => None
  }

  /** Python's `*` on two numbers. */
  function HostTimes(a: Value, b: Value): (r: Option<Value>)
    ensures r.Some? <==> TypeOf(a) == TypeOf(b) && TypeOf(a) in {Integer, FloatingPoint}
    ensures r.Some? ==> TypeOf(r.value) == TypeOf(a)
  {
    match (a, b)
    case (IntValue(x), IntValue(y)) => Some(IntValue(x * y))
    case (FloatValue(x), FloatValue(y)) => Some(FloatValue(x * y))
    case _ => None
  }

  /** Python's `//` on int: the quotient rounded toward negative infinity.
      Only its meaning on non-negative operands is stated. */
  function FloorDiv(a: int, b: int): (q: int)
    requires b != 0
    ensures 0 <= a && 0 < b ==> 0 <= q && q * b <= a < q * b + b
  {
    if b > 0 then a / b else (-a) / (-b)
  }

  /** A zero of either numeric kind: the divisors that raise MathError. */
  predicate IsZero(v: Value) {
    v == IntValue(0) || v == FloatValue(0.0)
  }

  /** Division of two numbers; a zero divisor raises MathError. Integers
      use floor division, floats real division. */
  function HostDivide(a: Value, b: Value): (r: Option<Result<Value>>)
    ensures r.Some? <==> TypeOf(a) == TypeOf(b) && TypeOf(a) in {Integer, FloatingPoint}
    ensures r.Some? && r.value.Failure? <==> r.Some? && IsZero(b)
    ensures r.Some? && r.value.Failure? ==> r.value.error == MathError
    ensures r.Some? && r.value.Success? ==> TypeOf(r.value.value) == TypeOf(a)
  {
    match (a, b)
    case (IntValue(x), IntValue(y)) =>
      Some(if y == 0 then Failure(MathError) else Success(IntValue(FloorDiv(x, y))))
    case (FloatValue(x), FloatValue(y)) =>
      Some(if y == 0.0 then Failure(MathError) else Success(FloatValue(x / y)))
    case _ => None
  }

  /** Python's `<` on two payloads of the same comparable kind; False < True. */
  function HostLess(a: Value, b: Value): (r: Option<bool>)
    ensures r.Some? <==> TypeOf(a) == TypeOf(b) && TypeOf(a) != Unit
  {
    match (a, b)
    case (IntValue(x), IntValue(y)) => Some(x < y)
    case (FloatValue(x), FloatValue(y)) => Some(x < y)
    case (StrValue(x), StrValue(y)) => Some(StrLess(x, y))
    case (BoolValue(x), BoolValue(y)) => Some(!x && y)
    case _ => None
  }

  /** Python's `<=` on two payloads of the same comparable kind. */
  function HostLessEq(a: Value, b: Value): (r: Option<bool>)
    ensures r.Some? <==> TypeOf(a) == TypeOf(b) && TypeOf(a) != Unit
  {
    match (a, b)
    case (IntValue(x), IntValue(y)) => Some(x <= y)
    case (FloatValue(x), FloatValue(y)) => Some(x <= y)
    case (StrValue(x), StrValue(y)) => Some(StrLess(x, y) || x == y)
    case (BoolValue(x), BoolValue(y)) => Some(!x || y)
    case _ => None
  }

  /** `<=` is `<` or equal, and `<` is the negation of the reversed `<=`:
      the host orderings are total. */
  lemma HostOrderTotal(a: Value, b: Value)
    requires TypeOf(a) == TypeOf(b) && TypeOf(a) != Unit
    ensures HostLessEq(a, b) == Some(HostLess(a, b).value || a == b)
    ensures HostLess(a, b) == Some(!HostLessEq(b, a).value)
  {
    if a.StrValue? {
      StrLessTotal(a.s, b.s);
      StrLessIrreflexive(a.s);
      if StrLess(a.s, b.s) && StrLess(b.s, a.s) {
        StrLessTransitive(a.s, b.s, a.s);
      }
    }
  }
}
