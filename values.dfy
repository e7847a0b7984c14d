/** The Python values the assertion helpers are applied to, with the two
    pieces of Python semantics every helper leans on: truthiness (what
    `if value:` decides) and the `==` operator.

    Only the built-in kinds the value-level helpers are meaningful on are
    modelled: None, bool, int, str and list. */
module Values {

  datatype Value =
    | None
    | Bool(b: bool)
    | Int(n: int)
    | Str(s: string)
    | List(items: seq<Value>)

  /** Python truthiness, what `if v:`, `not v` and `any` decide: the falsy
      values are exactly None, False, 0, "" and []; everything else is
      truthy. */
  predicate Truthy(v: Value): (r: bool)
    ensures !r <==> v in {None, Bool(false), Int(0), Str(""), List([])}
  {
    match v
    case None => false
    case Bool(b) => b
    case Int(n) => n != 0
    case Str(s) => |s| > 0
    case List(xs) => |xs| > 0
  }

  /** `bool` is a subclass of `int` in Python, so both take part in
      numeric comparison. */
  predicate IsNumeric(v: Value) {
    v.Bool? || v.Int?
  }

  /** The integer a numeric value stands for (False is 0, True is 1). */
  function NumericValue(v: Value): (k: int)
    requires IsNumeric(v)
    ensures v.Bool? ==> (k == 0 <==> !v.b) && 0 <= k <= 1
  {
    match v
    case Bool(b) => if b then 1 else 0
    case Int(n) => n
  }

  /** Python's `==` on the modelled values: numbers compare by numeric
      value (so `True == 1`), strings by their characters, lists by length
      and then element by element, and None only equals None. Values of
      unrelated kinds are unequal. Since no modelled value is a float NaN,
      `!=` is exactly the negation of `==`.

      Every value is equal to itself, nested lists included; equal values
      are both numbers, both None, the same string, or lists of the same
      length. */
  predicate PyEq(a: Value, b: Value): (r: bool)
    ensures a == b ==> r
    ensures r ==> (IsNumeric(a) && IsNumeric(b)) || (a.None? && b.None?) || (a.Str? && a == b)
                  || (a.List? && b.List? && |a.items| == |b.items|)
    decreases a
  {
    if IsNumeric(a) && IsNumeric(b) then NumericValue(a) == NumericValue(b)
    else
      match (a, b)
      case (None, None) => true
      case (Str(s), Str(t)) => s == t
      case (List(xs), List(ys)) =>
        |xs| == |ys| && forall i :: 0 <= i < |xs| ==> PyEq(xs[i], ys[i])
      case _ => false
  }

  /** `==` does not depend on the order of its operands. */
  lemma {:induction false} PyEqSymmetric(a: Value, b: Value)
    ensures PyEq(a, b) <==> PyEq(b, a)
    decreases a
  {
    if a.List? && b.List? && |a.items| == |b.items| {
      forall i | 0 <= i < |a.items| ensures PyEq(a.items[i], b.items[i]) <==> PyEq(b.items[i], a.items[i]) {
        PyEqSymmetric(a.items[i], b.items[i]);
      }
    }
  }

  /** `==` chains: two values equal to a third are equal to each other. */
  lemma {:induction false} PyEqTransitive(a: Value, b: Value, c: Value)
    requires PyEq(a, b) && PyEq(b, c)
    ensures PyEq(a, c)
    decreases a
  {
    if a.List? && b.List? && c.List? {
      forall i | 0 <= i < |a.items| ensures PyEq(a.items[i], c.items[i]) {
        PyEqTransitive(a.items[i], b.items[i], c.items[i]);
      }
    }
  }

  /** Python `==` is coarser than structural identity of the model: it
      identifies True with 1 and False with 0, inside lists too. */
  lemma BoolEqualsInt()
    ensures PyEq(Bool(true), Int(1)) && PyEq(Bool(false), Int(0))
    ensures PyEq(List([Bool(true)]), List([Int(1)])) && Bool(true) != Int(1)
    ensures !PyEq(Int(0), None) && !PyEq(Str(""), List([]))
  {
  }

  /** Equal values are equally truthy, so any helper that only looks at
      truthiness gives the same verdict on equal inputs. */
  lemma TruthyRespectsPyEq(a: Value, b: Value)
    requires PyEq(a, b)
    ensures Truthy(a) <==> Truthy(b)
  {
  }
}
