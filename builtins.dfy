/** The Python built-ins the helpers call on their arguments: the `in`
    operator, `len`, `filter` with an `is not None` test, and `any`. */
module Builtins {
  import opened Values

  /** The result of a built-in that raises `TypeError` on operands it does
      not support (`1 in 2`, `len(None)`). */
  datatype PyResult<T> = Ok(value: T) | TypeError

  /** `s` occurs in `t` starting at index `i`. */
  predicate OccursAt(s: string, t: string, i: nat) {
    i + |s| <= |t| && t[i..i + |s|] == s
  }

  /** `s` occurs in `t` as a contiguous run of characters. */
  ghost predicate IsSubstring(s: string, t: string) {
    exists i: nat :: OccursAt(s, t, i)
  }

  /** The substring search behind `s in t` for two strings. */
  function Occurs(s: string, t: string): (r: bool)
    ensures r <==> IsSubstring(s, t)
    decreases |t|
  {
    if |s| > |t| then false
    else if t[..|s|] == s then assert OccursAt(s, t, 0); true
    else
      var r := Occurs(s, t[1..]);
      assert r ==> IsSubstring(s, t) by {
        if r {
          var i: nat :| OccursAt(s, t[1..], i);
          assert t[i + 1..i + 1 + |s|] == t[1..][i..i + |s|];
          assert OccursAt(s, t, i + 1);
        }
      }
      assert IsSubstring(s, t) ==> r by {
        if IsSubstring(s, t) {
          var i: nat :| OccursAt(s, t, i);
          assert i != 0;
          assert t[1..][i - 1..i - 1 + |s|] == t[i..i + |s|];
          assert OccursAt(s, t[1..], i - 1);
        }
      }
      r
  }

  /** The element search behind `e in xs` for a list: some item is `==`
      to `e`. (CPython also accepts an item that `is` `e`, which for the
      modelled values implies `==`.) */
  function ListContains(xs: seq<Value>, e: Value): (r: bool)
    ensures r <==> exists i :: 0 <= i < |xs| && PyEq(xs[i], e)
    decreases |xs|
  {
    if xs == [] then false
    else if PyEq(xs[0], e) then true
    else
      var r := ListContains(xs[1..], e);
      assert r ==> exists i :: 0 <= i < |xs| && PyEq(xs[i], e) by {
        if r {
          var i :| 0 <= i < |xs| - 1 && PyEq(xs[1..][i], e);
          assert PyEq(xs[i + 1], e);
        }
      }
      assert (exists i :: 0 <= i < |xs| && PyEq(xs[i], e)) ==> r by {
        if exists i :: 0 <= i < |xs| && PyEq(xs[i], e) {
          var i :| 0 <= i < |xs| && PyEq(xs[i], e);
          assert i != 0;
          assert PyEq(xs[1..][i - 1], e);
        }
      }
      r
  }

  /** `e in c`: element search in a list, substring search in a string
      (whose left operand must itself be a string), and `TypeError` for a
      container that is not iterable. */
  function In(e: Value, c: Value): (r: PyResult<bool>)
    ensures c.List? ==> r.Ok? && (r.value <==> exists i :: 0 <= i < |c.items| && PyEq(c.items[i], e))
    ensures c.Str? ==> (r.Ok? <==> e.Str?) && (r.Ok? ==> (r.value <==> IsSubstring(e.s, c.s)))
    ensures !c.List? && !c.Str? ==> r == TypeError
  {
    match c
    case List(xs) => Ok(ListContains(xs, e))
    case Str(t) => if e.Str? then Ok(Occurs(e.s, t)) else TypeError
    case _ => TypeError
  }

  /** `len(c)`: the number of items of a list or characters of a string;
      the other kinds have no length. */
  function Len(c: Value): (r: PyResult<nat>)
    ensures r.Ok? <==> c.List? || c.Str?
    ensures c.List? ==> r == Ok(|c.items|)
    ensures c.Str? ==> r == Ok(|c.s|)
  {
    match c
    case List(xs) => Ok(|xs|)
    case Str(s) => Ok(|s|)
    case _ => TypeError
  }

  /** `list(filter(lambda x: x is not None, xs))`: the items that are not
      None, each as often as it occurs in `xs`. */
  function FilterNotNone(xs: seq<Value>): (r: seq<Value>)
    ensures None !in r
    ensures forall v | v != None :: multiset(r)[v] == multiset(xs)[v]
    ensures |xs| == 1 ==> r == (if xs[0].None? then [] else xs)
    decreases |xs|
  {
    if xs == [] then []
    else
      assert xs == [xs[0]] + xs[1..];
      if xs[0].None? then FilterNotNone(xs[1..]) else [xs[0]] + FilterNotNone(xs[1..])
  }

  /** `filter` keeps the order of the items: filtering a concatenation
      filters each part and concatenates the results. */
  lemma {:induction false} FilterNotNoneAppend(xs: seq<Value>, ys: seq<Value>)
    ensures FilterNotNone(xs + ys) == FilterNotNone(xs) + FilterNotNone(ys)
    decreases |xs|
  {
    if xs == [] {
      assert xs + ys == ys;
    } else {
      assert (xs + ys)[0] == xs[0] && (xs + ys)[1..] == xs[1..] + ys;
      FilterNotNoneAppend(xs[1..], ys);
    }
  }

  /** `any(xs)`: some item is truthy. */
  function Any(xs: seq<Value>): (r: bool)
    ensures r <==> exists i :: 0 <= i < |xs| && Truthy(xs[i])
    decreases |xs|
  {
    if xs == [] then false
    else if Truthy(xs[0]) then true
    else
      var r := Any(xs[1..]);
      assert r ==> exists i :: 0 <= i < |xs| && Truthy(xs[i]) by {
        if r {
          var i :| 0 <= i < |xs| - 1 && Truthy(xs[1..][i]);
          assert Truthy(xs[i + 1]);
        }
      }
      r
  }

  /** None is falsy, so dropping the Nones before `any` never changes its
      answer: `any(filter(lambda x: x is not None, xs)) == any(xs)`. */
  lemma AnyIgnoresNoneFilter(xs: seq<Value>)
    ensures Any(FilterNotNone(xs)) <==> Any(xs)
  {
    var ys := FilterNotNone(xs);
    if Any(xs) {
      var i :| 0 <= i < |xs| && Truthy(xs[i]);
      assert xs[i] in multiset(xs);
      assert xs[i] in multiset(ys);
      var j :| 0 <= j < |ys| && ys[j] == xs[i];
      assert Truthy(ys[j]);
    }
    if Any(ys) {
      var j :| 0 <= j < |ys| && Truthy(ys[j]);
      assert ys[j] in multiset(ys);
      assert ys[j] in multiset(xs);
      var i :| 0 <= i < |xs| && xs[i] == ys[j];
      assert Truthy(xs[i]);
    }
  }
}
