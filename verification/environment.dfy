/** The interpreter state (class `State` of stimpl/runtime.py): a
    persistent map from a variable name to its (value, type) binding.
    Updating returns a new state; the receiver is a value and never changes. */
module Environment {
  import opened Types
  import opened Values

  /** The (value, type) pair a name is bound to. */
  datatype Binding = Binding(value: Value, ty: Type)

  datatype State = State(bindings: map<string, Binding>)

  /** `State()`: no name is bound. */
  function Empty(): (st: State)
    ensures forall n: string :: Get(st, n) == None
  {
    State(map[])
  }

  /** `get_value`: the binding of `name`, or None when it is unbound. */
  function Get(st: State, name: string): (r: Option<Binding>) {
    if name in st.bindings then Some(st.bindings[name]) else None
  }

  /** `set_value`: a copy of `st` in which `name` is bound to (value, ty);
      every other name keeps its binding. */
  function Set(st: State, name: string, value: Value, ty: Type): (r: State)
    ensures Get(r, name) == Some(Binding(value, ty))
    ensures forall n: string :: n != name ==> Get(r, n) == Get(st, n)
  {
    State(st.bindings[name := Binding(value, ty)])
  }

  /** Two states that answer every lookup alike are the same state. */
  lemma SameLookupsSameState(st: State, st': State)
    requires forall n: string :: Get(st, n) == Get(st', n)
    ensures st == st'
  {
    assert forall n :: n in st.bindings <==> Get(st, n).Some?;
    assert st.bindings.Keys == st'.bindings.Keys by {
      forall n | n in st.bindings ensures n in st'.bindings {
        assert Get(st, n).Some?;
      }
      forall n | n in st'.bindings ensures n in st.bindings {
        assert Get(st', n).Some?;
      }
    }
    forall n | n in st.bindings ensures st.bindings[n] == st'.bindings[n] {
      assert Get(st, n) == Get(st', n);
    }
  }

  /** Rebinding a name replaces its earlier binding in the new state. */
  lemma SetTwice(st: State, name: string, v1: Value, t1: Type, v2: Value, t2: Type)
    ensures Set(Set(st, name, v1, t1), name, v2, t2) == Set(st, name, v2, t2)
  {
    var a := Set(Set(st, name, v1, t1), name, v2, t2);
    var b := Set(st, name, v2, t2);
    forall n: string ensures Get(a, n) == Get(b, n) {
    }
    SameLookupsSameState(a, b);
  }

  /** Every binding's value agrees with its type tag. */
  ghost predicate WellTyped(st: State) {
    forall n :: n in st.bindings ==> Agrees(st.bindings[n].value, st.bindings[n].ty)
  }

  /** A binding whose value agrees with its tag keeps the state well typed. */
  lemma SetWellTyped(st: State, name: string, value: Value, ty: Type)
    requires WellTyped(st) && Agrees(value, ty)
    ensures WellTyped(Set(st, name, value, ty))
  {
  }

  /** `st'` keeps every name `st` binds, each with the type it had: a
      binding never disappears and its type never changes. */
  ghost predicate Extends(st: State, st': State) {
    forall n :: n in st.bindings ==> n in st'.bindings && st'.bindings[n].ty == st.bindings[n].ty
  }
}
