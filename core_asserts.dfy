/** The value-level assertion helpers of `pytest_asserts.core_asserts`.

    Each helper evaluates one predicate over its arguments. When the
    predicate holds it returns normally; when it does not, it calls the
    shared failure primitive `raise_assertion_error(msg)`, which is modelled
    here as the outcome `Fail(msg)`. A Python `TypeError` raised by the
    predicate itself (`1 in 2`, `len(None)`) escapes the helper unchanged
    and is the outcome `TypeErrorRaised`. */
module CoreAsserts {
  import opened Values
  import opened Render
  import opened Builtins

  datatype Outcome = Pass | Fail(msg: string) | TypeErrorRaised

  // ---------------------------------------------------------------------
  // Truthiness

  /** `assert_true(value)`: fails unless the value is truthy. */
  function AssertTrue(value: Value): (r: Outcome)
    ensures r.Pass? <==> Truthy(value)
    ensures r.Fail? <==> !Truthy(value)
    ensures r.Fail? ==> r.msg == Show(value) + " is Falsy"
  {
    if !Truthy(value) then Fail(Show(value) + " is Falsy") else Pass
  }

  /** `assert_false(value)`: fails when the value is truthy. */
  function AssertFalse(value: Value): (r: Outcome)
    ensures r.Pass? <==> !Truthy(value)
    ensures r.Fail? <==> Truthy(value)
    ensures r.Fail? ==> r.msg == Show(value) + " is Truthy"
  {
    if Truthy(value) then Fail(Show(value) + " is Truthy") else Pass
  }

  /** Exactly one of `assert_true` and `assert_false` passes on any value,
      and the falsy values are None, False, 0, "" and []. */
  lemma TruthHelpersComplementary(value: Value)
    ensures AssertTrue(value).Pass? != AssertFalse(value).Pass?
    ensures !AssertTrue(value).TypeErrorRaised? && !AssertFalse(value).TypeErrorRaised?
    ensures AssertFalse(value).Pass? <==> value in {None, Bool(false), Int(0), Str(""), List([])}
  {
  }

  /** Values that compare equal get the same verdict from `assert_true`
      (for instance `assert_true(1)` and `assert_true(True)`). */
  lemma AssertTrueRespectsEquality(a: Value, b: Value)
    requires PyEq(a, b)
    ensures AssertTrue(a).Pass? <==> AssertTrue(b).Pass?
  {
    TruthyRespectsPyEq(a, b);
  }

  // ---------------------------------------------------------------------
  // Equality

  /** `assert_equal(expected, actual)`: fails when `expected != actual`. */
  function AssertEqual(expected: Value, actual: Value): (r: Outcome)
    ensures r.Pass? <==> PyEq(expected, actual)
    ensures r.Fail? <==> !PyEq(expected, actual)
    ensures r.Fail? ==> r.msg == Show(expected) + " and " + Show(actual) + " are not equal"
  {
    if !PyEq(expected, actual) then Fail(Show(expected) + " and " + Show(actual) + " are not equal")
    else Pass
  }

  /** `assert_not_equal(expected, actual)`: fails when `expected == actual`. */
  function AssertNotEqual(expected: Value, actual: Value): (r: Outcome)
    ensures r.Pass? <==> !PyEq(expected, actual)
    ensures r.Fail? <==> PyEq(expected, actual)
    ensures r.Fail? ==> r.msg == Show(expected) + " and " + Show(actual) + " are equal"
  {
    if PyEq(expected, actual) then Fail(Show(expected) + " and " + Show(actual) + " are equal")
    else Pass
  }

  /** For every pair exactly one of `assert_equal` and `assert_not_equal`
      passes. */
  lemma EqualityHelpersComplementary(x: Value, y: Value)
    ensures AssertEqual(x, y).Pass? != AssertNotEqual(x, y).Pass?
    ensures !AssertEqual(x, y).TypeErrorRaised? && !AssertNotEqual(x, y).TypeErrorRaised?
  {
  }

  /** `assert_equal(x, x)` passes and `assert_not_equal(x, x)` fails, with
      the message naming `x` twice. */
  lemma EqualityReflexive(x: Value)
    ensures AssertEqual(x, x) == Pass
    ensures AssertNotEqual(x, x) == Fail(Show(x) + " and " + Show(x) + " are equal")
  {
  }

  /** Swapping `expected` and `actual` never changes whether the equality
      helpers pass. */
  lemma EqualitySymmetric(x: Value, y: Value)
    ensures AssertEqual(x, y).Pass? <==> AssertEqual(y, x).Pass?
    ensures AssertNotEqual(x, y).Pass? <==> AssertNotEqual(y, x).Pass?
  {
    PyEqSymmetric(x, y);
  }

  /** The comparison is Python's `==`, not identity of representation:
      `assert_equal(True, 1)` and `assert_equal([0, 'a'], [False, 'a'])`
      pass. */
  lemma EqualityExamples()
    ensures AssertEqual(Bool(true), Int(1)) == Pass
    ensures AssertEqual(List([Int(0), Str("a")]), List([Bool(false), Str("a")])) == Pass
  {
    BoolEqualsInt();
    var xs, ys := [Int(0), Str("a")], [Bool(false), Str("a")];
    assert PyEq(xs[0], ys[0]) && PyEq(xs[1], ys[1]);
  }

  /** `assert_equal(0, None)` fails with "0 and None are not equal". */
  lemma EqualityFailureExample()
    ensures AssertEqual(Int(0), None) == Fail("0 and None are not equal")
  {
    var zero := Show(Int(0));
    assert zero == "0" by { assert Decimal(0) == NatDecimal(0) == "0"; }
    assert !PyEq(Int(0), None);
    assert AssertEqual(Int(0), None) == Fail(zero + " and " + "None" + " are not equal");
  }

  // ---------------------------------------------------------------------
  // Membership

  /** `assert_in(expected, actual)`: fails when `expected not in actual`.
      For a list container that means no item equals `expected`; for a
      string container, that `expected` is not a substring of it. */
  function AssertIn(expected: Value, actual: Value): (r: Outcome)
    ensures actual.List? ==>
      (r.Pass? <==> exists i :: 0 <= i < |actual.items| && PyEq(actual.items[i], expected)) && !r.TypeErrorRaised?
    ensures actual.Str? ==>
      (r.TypeErrorRaised? <==> !expected.Str?) && (expected.Str? ==> (r.Pass? <==> IsSubstring(expected.s, actual.s)))
    ensures !actual.List? && !actual.Str? ==> r.TypeErrorRaised?
    ensures r.Fail? ==> r.msg == Show(expected) + " is not in " + Show(actual)
  {
    match In(expected, actual)
    case TypeError => TypeErrorRaised
    case Ok(found) => if !found then Fail(Show(expected) + " is not in " + Show(actual)) else Pass
  }

  /** `assert_not_in(expected, actual)`: fails when `expected in actual`. */
  function AssertNotIn(expected: Value, actual: Value): (r: Outcome)
    ensures actual.List? ==>
      (r.Pass? <==> forall i :: 0 <= i < |actual.items| ==> !PyEq(actual.items[i], expected)) && !r.TypeErrorRaised?
    ensures actual.Str? ==>
      (r.TypeErrorRaised? <==> !expected.Str?) && (expected.Str? ==> (r.Pass? <==> !IsSubstring(expected.s, actual.s)))
    ensures !actual.List? && !actual.Str? ==> r.TypeErrorRaised?
    ensures r.Fail? ==> r.msg == Show(expected) + " is in " + Show(actual)
  {
    match In(expected, actual)
    case TypeError => TypeErrorRaised
    case Ok(found) => if found then Fail(Show(expected) + " is in " + Show(actual)) else Pass
  }

  /** `assert_is_not_in(expected, actual)`: a second definition with the
      same test and the same message as `assert_not_in`. */
  function AssertIsNotIn(expected: Value, actual: Value): (r: Outcome)
    ensures actual.List? ==>
      (r.Pass? <==> forall i :: 0 <= i < |actual.items| ==> !PyEq(actual.items[i], expected)) && !r.TypeErrorRaised?
    ensures actual.Str? ==>
      (r.TypeErrorRaised? <==> !expected.Str?) && (expected.Str? ==> (r.Pass? <==> !IsSubstring(expected.s, actual.s)))
    ensures !actual.List? && !actual.Str? ==> r.TypeErrorRaised?
    ensures r.Fail? ==> r.msg == Show(expected) + " is in " + Show(actual)
  {
    match In(expected, actual)
    case TypeError => TypeErrorRaised
    case Ok(found) => if found then Fail(Show(expected) + " is in " + Show(actual)) else Pass
  }

  /** `assert_is_not_in` duplicates `assert_not_in`: same outcome and same
      message on every input. */
  lemma IsNotInDuplicatesNotIn(expected: Value, actual: Value)
    ensures AssertIsNotIn(expected, actual) == AssertNotIn(expected, actual)
  {
  }

  /** On any container either both membership helpers raise `TypeError`
      (the container is not iterable, or a non-string is looked up in a
      string) or exactly one of them passes. */
  lemma MembershipHelpersComplementary(expected: Value, actual: Value)
    ensures AssertIn(expected, actual).TypeErrorRaised? <==> AssertNotIn(expected, actual).TypeErrorRaised?
    ensures !AssertIn(expected, actual).TypeErrorRaised? ==>
      AssertIn(expected, actual).Pass? != AssertNotIn(expected, actual).Pass?
  {
  }

  /** Every item of a list is in it, and so is anything equal to an item. */
  lemma ItemIsIn(xs: seq<Value>, i: nat, e: Value)
    requires i < |xs| && PyEq(e, xs[i])
    ensures AssertIn(e, List(xs)) == Pass
    ensures AssertIn(xs[i], List(xs)) == Pass
    ensures AssertNotIn(xs[i], List(xs)) == Fail(Show(xs[i]) + " is in " + Show(List(xs)))
  {
    PyEqSymmetric(e, xs[i]);
  }

  /** The empty string is in every string, and nothing is in an empty list. */
  lemma MembershipEdgeCases(e: Value, t: string)
    ensures AssertIn(Str(""), Str(t)) == Pass
    ensures AssertIn(e, List([])) == Fail(Show(e) + " is not in []")
    ensures AssertNotIn(Int(1), Str(t)) == TypeErrorRaised
  {
    assert OccursAt("", t, 0);
  }

  /** `assert_in(1, [1, 2, 3])` passes, `assert_in(4, [1, 2, 3])` fails,
      and `"ell"` is in `"hello"`. */
  lemma MembershipExamples()
    ensures AssertIn(Int(1), List([Int(1), Int(2), Int(3)])) == Pass
    ensures AssertIn(Int(4), List([Int(1), Int(2), Int(3)])).Fail?
    ensures AssertIn(Str("ell"), Str("hello")) == Pass
  {
    var xs := [Int(1), Int(2), Int(3)];
    ItemIsIn(xs, 0, Int(1));
    assert forall i :: 0 <= i < |xs| ==> !PyEq(xs[i], Int(4));
    assert OccursAt("ell", "hello", 1);
  }

  // ---------------------------------------------------------------------
  // None checks

  /** `assert_is_none(value)`: fails unless the value is None. */
  function AssertIsNone(value: Value): (r: Outcome)
    ensures r.Pass? <==> value.None?
    ensures r.Fail? <==> !value.None?
    ensures r.Fail? ==> r.msg == Show(value) + " is not None"
  {
    if !value.None? then Fail(Show(value) + " is not None") else Pass
  }

  /** `assert_is_not_none(value)`: fails when the value is None. */
  function AssertIsNotNone(value: Value): (r: Outcome)
    ensures r.Pass? <==> !value.None?
    ensures r.Fail? ==> r.msg == "None is None"
    ensures !r.TypeErrorRaised?
  {
    if value.None? then Fail(Show(value) + " is None") else Pass
  }

  /** Exactly one of `assert_is_none` and `assert_is_not_none` passes; the
      test is identity with None, not falsiness (`assert_is_none(0)` fails). */
  lemma NoneHelpersComplementary(value: Value)
    ensures AssertIsNone(value).Pass? != AssertIsNotNone(value).Pass?
    ensures AssertIsNone(Int(0)) == Fail("0 is not None")
  {
    assert Show(Int(0)) == "0";
  }

  // ---------------------------------------------------------------------
  // Length

  /** `assert_length(expected, actual)`: fails when
      `len(actual) != expected`; `len` raises `TypeError` for a value that
      is neither a list nor a string. The length is compared with Python's
      `!=`, so an expected `True` matches a length of 1. */
  function AssertLength(expected: Value, actual: Value): (r: Outcome)
    ensures !actual.List? && !actual.Str? ==> r.TypeErrorRaised?
    ensures actual.List? ==> !r.TypeErrorRaised? && (r.Pass? <==> PyEq(Int(|actual.items|), expected))
    ensures actual.Str? ==> !r.TypeErrorRaised? && (r.Pass? <==> PyEq(Int(|actual.s|), expected))
    ensures expected.Int? && actual.List? ==> (r.Pass? <==> |actual.items| == expected.n)
    ensures r.Fail? && actual.List? ==>
      r.msg == Show(actual) + " has a length of " + Decimal(|actual.items|) + ", not " + Show(expected)
    ensures r.Fail? && actual.Str? ==>
      r.msg == Show(actual) + " has a length of " + Decimal(|actual.s|) + ", not " + Show(expected)
  {
    match Len(actual)
    case TypeError => TypeErrorRaised
    case Ok(n) =>
      if !PyEq(Int(n), expected) then Fail(Show(actual) + " has a length of " + Decimal(n) + ", not " + Show(expected))
      else Pass
  }

  /** `assert_length(3, [1, 2, 3])` and `assert_length(0, "")` pass;
      `len(None)` raises. */
  lemma LengthExamples()
    ensures AssertLength(Int(3), List([Int(1), Int(2), Int(3)])) == Pass
    ensures AssertLength(Bool(true), Str("a")) == Pass
    ensures AssertLength(Int(0), Str("")) == Pass
    ensures AssertLength(Int(1), None) == TypeErrorRaised
  {
  }

  /** When a list or a string does not have the expected int length,
      the message names the container, its actual length and the expected
      length, both lengths as numerals that read back as those numbers. */
  lemma LengthFailureMessage(xs: seq<Value>, t: string, n: int)
    requires n != |xs|
    ensures AssertLength(Int(n), List(xs)) ==
      Fail(Show(List(xs)) + " has a length of " + Decimal(|xs|) + ", not " + Decimal(n))
    ensures n != |t| ==>
      AssertLength(Int(n), Str(t)) == Fail(t + " has a length of " + Decimal(|t|) + ", not " + Decimal(n))
    ensures ParseDecimal(Decimal(|xs|)) == |xs| && ParseDecimal(Decimal(n)) == n
  {
    assert Show(Int(n)) == Decimal(n);
  }

  // ---------------------------------------------------------------------
  // Ordering (over Python ints)

  /** `assert_greater_than(expected, actual)`: fails when
      `actual <= expected`. */
  function AssertGreaterThan(expected: int, actual: int): (r: Outcome)
    ensures r.Pass? <==> actual > expected
    ensures r.Fail? <==> actual <= expected
    ensures r.Fail? ==> r.msg == Decimal(actual) + " is not greater than " + Decimal(expected)
  {
    if actual <= expected then Fail(Decimal(actual) + " is not greater than " + Decimal(expected)) else Pass
  }

  /** `assert_greater_than_or_equal(expected, actual)`: fails when
      `actual < expected`. */
  function AssertGreaterThanOrEqual(expected: int, actual: int): (r: Outcome)
    ensures r.Pass? <==> actual >= expected
    ensures r.Fail? <==> actual < expected
    ensures r.Fail? ==> r.msg == Decimal(actual) + " is not greater than or equal to " + Decimal(expected)
  {
    if actual < expected then Fail(Decimal(actual) + " is not greater than or equal to " + Decimal(expected)) else Pass
  }

  /** `assert_less_than(expected, actual)`: fails when
      `actual >= expected`. */
  function AssertLessThan(expected: int, actual: int): (r: Outcome)
    ensures r.Pass? <==> actual < expected
    ensures r.Fail? <==> actual >= expected
    ensures r.Fail? ==> r.msg == Decimal(actual) + " is not less than " + Decimal(expected)
  {
    if actual >= expected then Fail(Decimal(actual) + " is not less than " + Decimal(expected)) else Pass
  }

  /** `assert_less_than_or_equal(expected, actual)`: fails when
      `actual > expected`. */
  function AssertLessThanOrEqual(expected: int, actual: int): (r: Outcome)
    ensures r.Pass? <==> actual <= expected
    ensures r.Fail? <==> actual > expected
    ensures r.Fail? ==> r.msg == Decimal(actual) + " is not less than or equal to " + Decimal(expected)
  {
    if actual > expected then Fail(Decimal(actual) + " is not less than or equal to " + Decimal(expected)) else Pass
  }

  /** The ordering helpers pair up as complements: `>` against `<=` and
      `>=` against `<`. */
  lemma OrderingHelpersComplementary(expected: int, actual: int)
    ensures AssertGreaterThan(expected, actual).Pass? != AssertLessThanOrEqual(expected, actual).Pass?
    ensures AssertGreaterThanOrEqual(expected, actual).Pass? != AssertLessThan(expected, actual).Pass?
  {
  }

  /** Swapping the arguments turns each strict (non-strict) helper into
      its mirror image, and the strict helpers imply the non-strict ones. */
  lemma OrderingHelpersMirror(x: int, y: int)
    ensures AssertGreaterThan(x, y).Pass? <==> AssertLessThan(y, x).Pass?
    ensures AssertGreaterThanOrEqual(x, y).Pass? <==> AssertLessThanOrEqual(y, x).Pass?
    ensures AssertGreaterThan(x, y).Pass? ==> AssertGreaterThanOrEqual(x, y).Pass?
    ensures AssertLessThan(x, y).Pass? ==> AssertLessThanOrEqual(x, y).Pass?
    ensures AssertGreaterThanOrEqual(x, x) == Pass && AssertLessThanOrEqual(x, x) == Pass
    ensures AssertGreaterThan(x, x).Fail? && AssertLessThan(x, x).Fail?
  {
  }

  // ---------------------------------------------------------------------
  // Aggregate None checks

  /** `assert_all_not_none(iterator)` as written: drop the Nones, then fail
      if `any` of the rest is truthy. It therefore fails exactly when some
      item is truthy; falsy items such as 0 pass as if they were None. */
  function AssertAllNotNone(xs: seq<Value>): (r: Outcome)
    ensures r.Fail? <==> exists i :: 0 <= i < |xs| && !xs[i].None? && Truthy(xs[i])
    ensures r.Pass? <==> forall i :: 0 <= i < |xs| ==> !Truthy(xs[i])
    ensures r.Fail? ==> r.msg == "Not all values in " + Show(List(xs)) + " are None"
  {
    var filtered := FilterNotNone(xs);
    AnyIgnoresNoneFilter(xs);
    if Any(filtered) then Fail("Not all values in " + Show(List(xs)) + " are None") else Pass
  }

  /** `assert_any_not_none(iterator)` as written: drop the Nones, then fail
      unless `any` of the rest is truthy. It therefore passes exactly when
      some item is truthy, so `[0]`, `[False]` and `[]` fail. */
  function AssertAnyNotNone(xs: seq<Value>): (r: Outcome)
    ensures r.Pass? <==> exists i :: 0 <= i < |xs| && !xs[i].None? && Truthy(xs[i])
    ensures r.Fail? <==> forall i :: 0 <= i < |xs| ==> !Truthy(xs[i])
    ensures r.Fail? ==> r.msg == "No values in " + Show(List(xs)) + " are not None"
  {
    var filtered := FilterNotNone(xs);
    AnyIgnoresNoneFilter(xs);
    if !Any(filtered) then Fail("No values in " + Show(List(xs)) + " are not None") else Pass
  }

  /** As written, the two aggregate helpers are exact complements: on
      every list exactly one of them passes. */
  lemma AggregateHelpersComplementary(xs: seq<Value>)
    ensures AssertAllNotNone(xs).Pass? != AssertAnyNotNone(xs).Pass?
    ensures !AssertAllNotNone(xs).TypeErrorRaised? && !AssertAnyNotNone(xs).TypeErrorRaised?
  {
  }

  /** The cases where the names and doc-comments mislead: `[None, 0, ""]`
      passes `assert_all_not_none` although 0 and "" are not None, and
      `assert_any_not_none` counts a non-None item only when it is truthy. */
  lemma AggregateExamples()
    ensures AssertAllNotNone([None, Int(0), Str("")]) == Pass
    ensures AssertAllNotNone([None, Int(1)]).Fail?
    ensures AssertAnyNotNone([Int(0), None]).Fail?
    ensures AssertAnyNotNone([Bool(false)]).Fail?
    ensures AssertAnyNotNone([]).Fail?
    ensures AssertAnyNotNone([None, Str("x")]) == Pass
  {
    assert Truthy([None, Int(1)][1]);
    assert Truthy([None, Str("x")][1]);
  }

  // ---------------------------------------------------------------------
  // Aggregate None checks as documented

  /** Some item of `xs` is not None. */
  predicate HasNonNone(xs: seq<Value>) {
    exists i :: 0 <= i < |xs| && !xs[i].None?
  }

  /** Filtering out the Nones leaves something exactly when some item is
      not None; this is the test the aggregate helpers' doc-comments
      describe, without the truthiness that `any` adds. */
  lemma FilterNotNoneEmpty(xs: seq<Value>)
    ensures FilterNotNone(xs) != [] <==> HasNonNone(xs)
  {
    var ys := FilterNotNone(xs);
    if HasNonNone(xs) {
      var i :| 0 <= i < |xs| && !xs[i].None?;
      assert xs[i] in multiset(xs);
      assert multiset(ys)[xs[i]] > 0;
    }
    if ys != [] {
      assert ys[0] in multiset(ys);
      assert multiset(xs)[ys[0]] > 0;
      var i :| 0 <= i < |xs| && xs[i] == ys[0];
    }
  }

  /** `assert_all_not_none` as its doc-comment ("all values in the
      iterator are None") and its failure message describe it: fail as
      soon as one item is not None, whether or not it is truthy. */
  function AssertAllNoneAsDocumented(xs: seq<Value>): (r: Outcome)
    ensures r.Pass? <==> forall i :: 0 <= i < |xs| ==> xs[i].None?
    ensures r.Fail? <==> HasNonNone(xs)
    ensures r.Fail? ==> r.msg == "Not all values in " + Show(List(xs)) + " are None"
  {
    FilterNotNoneEmpty(xs);
    if FilterNotNone(xs) != [] then Fail("Not all values in " + Show(List(xs)) + " are None") else Pass
  }

  /** `assert_any_not_none` as its name, doc-comment and failure message
      describe it: pass as soon as one item is not None. */
  function AssertAnyNotNoneAsDocumented(xs: seq<Value>): (r: Outcome)
    ensures r.Pass? <==> HasNonNone(xs)
    ensures r.Fail? <==> forall i :: 0 <= i < |xs| ==> xs[i].None?
    ensures r.Fail? ==> r.msg == "No values in " + Show(List(xs)) + " are not None"
  {
    FilterNotNoneEmpty(xs);
    if FilterNotNone(xs) == [] then Fail("No values in " + Show(List(xs)) + " are not None") else Pass
  }

  /** The documented pair is complementary too: exactly one passes. */
  lemma DocumentedAggregatesComplementary(xs: seq<Value>)
    ensures AssertAllNoneAsDocumented(xs).Pass? != AssertAnyNotNoneAsDocumented(xs).Pass?
  {
  }

  /** The input `[0]` separates the code from its documentation:
      `assert_all_not_none([0])` passes although 0 is not None, and
      `assert_any_not_none([0])` fails although 0 is not None. */
  lemma AggregateDivergenceWitness()
    ensures AssertAllNotNone([Int(0)]) == Pass
    ensures AssertAllNoneAsDocumented([Int(0)]).Fail?
    ensures AssertAnyNotNone([Int(0)]).Fail?
    ensures AssertAnyNotNoneAsDocumented([Int(0)]) == Pass
  {
    assert !([Int(0)][0]).None?;
  }

  /** The code and the documentation disagree on exactly the lists that
      hold a non-None item but no truthy one; on every other list (in
      particular every list whose non-None items are all truthy) the
      outcomes coincide. The code is only ever more lenient for
      `assert_all_not_none` and only ever stricter for
      `assert_any_not_none`. */
  lemma AggregateDivergence(xs: seq<Value>)
    ensures AssertAllNotNone(xs).Pass? != AssertAllNoneAsDocumented(xs).Pass? <==>
      HasNonNone(xs) && forall i :: 0 <= i < |xs| ==> !Truthy(xs[i])
    ensures AssertAnyNotNone(xs).Pass? != AssertAnyNotNoneAsDocumented(xs).Pass? <==>
      HasNonNone(xs) && forall i :: 0 <= i < |xs| ==> !Truthy(xs[i])
    ensures AssertAllNoneAsDocumented(xs).Pass? ==> AssertAllNotNone(xs).Pass?
    ensures AssertAnyNotNone(xs).Pass? ==> AssertAnyNotNoneAsDocumented(xs).Pass?
    ensures (forall i :: 0 <= i < |xs| && !xs[i].None? ==> Truthy(xs[i])) ==>
      AssertAllNotNone(xs) == AssertAllNoneAsDocumented(xs) && AssertAnyNotNone(xs) == AssertAnyNotNoneAsDocumented(xs)
  {
  }
}
