/** The runtime type tags of STIMPL (stimpl/types.py). */
module Types {

  /** The five tags. A tag carries no attributes: two instances of the same
      tag are interchangeable. */
  datatype Type = Unit | Integer | FloatingPoint | String | Boolean

  /** The `__eq__` every tag class defines: `other` is equal exactly when it
      matches the receiver's own class. */
  function Equals(self: Type, other: Type): (r: bool)
    ensures r <==> self == other
  {
    match self
    case Unit => other.Unit?
    case Integer => other.Integer?
    case FloatingPoint => other.FloatingPoint?
    case String => other.String?
    case Boolean => other.Boolean?
  }

  /** Every tag there is. */
  const AllTypes: set<Type> := {Unit, Integer, FloatingPoint, String, Boolean}

  /** The tags form a closed set of exactly five. */
  lemma ClosedSetOfFive(t: Type)
    ensures t in AllTypes
    ensures |AllTypes| == 5
  {
  }

  /** Tag equality is symmetric: `a == b` exactly when `b == a`. */
  lemma EqualsSymmetric(a: Type, b: Type)
    ensures Equals(a, b) == Equals(b, a)
  {
  }
}
