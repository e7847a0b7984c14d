# pytest-asserts: value-level assertion helpers in Dafny

This project models the value-level helpers of `pytest_asserts.core_asserts`,
a flat library of assertion functions for test suites. Each helper checks one
predicate on its arguments. If the predicate holds, the helper returns
normally. If it does not, the helper calls the shared failure primitive
`raise_assertion_error(msg)` with a message built by an f-string.

Each helper is modelled as a pure function that returns an `Outcome`:

- `Pass`: the helper returns normally.
- `Fail(msg)`: the helper calls `raise_assertion_error(msg)`.
- `TypeErrorRaised`: the predicate itself raises Python's `TypeError`, which
  escapes the helper. Examples are `1 in 2` and `len(None)`.

The modules follow the Python semantics the helpers rely on:

- `Values` (`values.dfy`): the values the helpers see. These are None, bool,
  int, str and list. The module defines Python truthiness (`Truthy`) and
  Python `==` (`PyEq`). In `PyEq`, `True == 1`, `False == 0`, and lists are
  compared item by item. `PyEq` is proved reflexive, symmetric and
  transitive.
- `Render` (`render.dfy`): `str()` (`Show`) and `repr()` (`Repr`), which the
  f-strings use to display values in messages. It includes the decimal
  numeral of an int, with a proved round trip `int(str(n)) == n`.
- `Builtins` (`builtins.dfy`): the operators the helpers call. These are
  `in` (item search in a list, substring search in a str, `TypeError`
  otherwise), `len`, `filter(lambda x: x is not None, ...)` and `any`.
- `CoreAsserts` (`core_asserts.dfy`): the helpers themselves. Around them are
  lemmas showing which helpers are exact complements, which one duplicates
  another, and how the aggregate None checks differ from their
  documentation.

Argument order follows the code: `assert_length(expected, actual)` takes the
expected length first and the container second.

## Model

| member | source | states |
|---|---|---|
| `Values.Truthy` | src/pytest_asserts/core_asserts.py:9 | a value is falsy (`not value` holds) exactly when it is None, False, 0, "" or [] |
| `Values.TruthyRespectsPyEq` | src/pytest_asserts/core_asserts.py:9 | values that compare `==` are equally truthy |
| `Values.PyEq` | src/pytest_asserts/core_asserts.py:21 | every value is `==` to itself, nested lists included; values that compare `==` are both numbers (bool or int), both None, the same str, or lists of the same length |
| `Values.PyEqSymmetric` | src/pytest_asserts/core_asserts.py:21 | `a == b` exactly when `b == a` |
| `Values.PyEqTransitive` | src/pytest_asserts/core_asserts.py:21 | `a == b` and `b == c` give `a == c` |
| `Values.BoolEqualsInt` | src/pytest_asserts/core_asserts.py:21 | Python `==` identifies True with 1 and False with 0, also inside lists; 0 is not None, "" is not [] |
| `Render.NatDecimalRoundTrip` | src/pytest_asserts/core_asserts.py:84 | the numeral of a natural number is non-empty, all digits, has no leading zero and reads back as that number |
| `Render.Decimal` | src/pytest_asserts/core_asserts.py:84 | for every int the model renders, `str(n)` is non-empty, an optional minus sign followed by digits, and `int(str(n)) == n`, so a number shown in a message is reported faithfully |
| `Render.DecimalInjective` | src/pytest_asserts/core_asserts.py:84 | different ints are shown differently |
| `Render.Show` | src/pytest_asserts/core_asserts.py:10 | `f"{v}"`: an int is shown as a numeral that reads back as it; a list is shown bracketed; a str is shown as itself; only "" is shown empty |
| `Render.Repr` | src/pytest_asserts/core_asserts.py:34 | `repr(v)` is never empty; a str is shown between single quotes around its own characters; every other value as `str` shows it |
| `Render.ReprThreeItems` | src/pytest_asserts/core_asserts.py:34 | the items of a three-item list are shown as their `repr`, separated by ", " |
| `Render.ShowNegativeExample` | src/pytest_asserts/core_asserts.py:90 | `str(-42)` is "-42" |
| `Render.ShowMixedListExample` | src/pytest_asserts/core_asserts.py:34 | `str([1, 'a', None])` is "[1, 'a', None]": strings inside a list are quoted |
| `Render.ShowIntListExample` | src/pytest_asserts/core_asserts.py:84 | `str([1, 2, 3])` is "[1, 2, 3]" |
| `Builtins.Occurs` | src/pytest_asserts/core_asserts.py:33 | the recursive substring search answers true exactly when the left string occurs at some index of the right one |
| `Builtins.ListContains` | src/pytest_asserts/core_asserts.py:33 | the recursive item search answers true exactly when some item is `==` to the value searched for |
| `Builtins.In` | src/pytest_asserts/core_asserts.py:33 | `e in c`: item search for a list; substring search for a str, with `TypeError` unless `e` is a str; `TypeError` for anything else |
| `Builtins.Len` | src/pytest_asserts/core_asserts.py:83 | `len` succeeds exactly on a list or a str, and gives its number of items or characters |
| `Builtins.FilterNotNone` | src/pytest_asserts/core_asserts.py:197 | the filtered list holds no None, and every other value as many times as the input does; a single item is kept exactly when it is not None |
| `Builtins.FilterNotNoneAppend` | src/pytest_asserts/core_asserts.py:197 | filtering keeps the order of the items: filtering `xs + ys` gives the filtered `xs` followed by the filtered `ys` |
| `Builtins.Any` | src/pytest_asserts/core_asserts.py:198 | `any(xs)` is true exactly when some item is truthy |
| `Builtins.AnyIgnoresNoneFilter` | src/pytest_asserts/core_asserts.py:197-198 | filtering out None before `any` never changes the answer, because None is falsy |
| `CoreAsserts.AssertTrue` | src/pytest_asserts/core_asserts.py:7-10 | passes exactly for truthy values, never raises, and otherwise fails with "{value} is Falsy" |
| `CoreAsserts.AssertFalse` | src/pytest_asserts/core_asserts.py:13-16 | passes exactly for falsy values, never raises, and otherwise fails with "{value} is Truthy" |
| `CoreAsserts.TruthHelpersComplementary` | src/pytest_asserts/core_asserts.py:7-16 | on every value exactly one of `assert_true` and `assert_false` passes; `assert_false` passes exactly on None, False, 0, "" and [] |
| `CoreAsserts.AssertTrueRespectsEquality` | src/pytest_asserts/core_asserts.py:7-10 | equal values (such as 1 and True) get the same verdict from `assert_true` |
| `CoreAsserts.AssertEqual` | src/pytest_asserts/core_asserts.py:19-22 | passes exactly when `expected == actual`, and otherwise fails with "{expected} and {actual} are not equal" |
| `CoreAsserts.AssertNotEqual` | src/pytest_asserts/core_asserts.py:25-28 | passes exactly when `expected != actual`, and otherwise fails with "{expected} and {actual} are equal" |
| `CoreAsserts.EqualityHelpersComplementary` | src/pytest_asserts/core_asserts.py:19-28 | on every pair exactly one of `assert_equal` and `assert_not_equal` passes, and neither raises |
| `CoreAsserts.EqualityReflexive` | src/pytest_asserts/core_asserts.py:19-28 | `assert_equal(x, x)` passes and `assert_not_equal(x, x)` fails with "{x} and {x} are equal" |
| `CoreAsserts.EqualitySymmetric` | src/pytest_asserts/core_asserts.py:19-28 | swapping the arguments never changes whether the equality helpers pass |
| `CoreAsserts.EqualityExamples` | src/pytest_asserts/core_asserts.py:19-22 | `assert_equal(True, 1)` and `assert_equal([0, 'a'], [False, 'a'])` pass |
| `CoreAsserts.EqualityFailureExample` | src/pytest_asserts/core_asserts.py:19-22 | `assert_equal(0, None)` fails with "0 and None are not equal" |
| `CoreAsserts.AssertIn` | src/pytest_asserts/core_asserts.py:31-34 | on a list, passes exactly when some item equals `expected`; on a str, passes exactly when `expected` is a substring, and raises if `expected` is not a str; on other values, raises; fails with "{expected} is not in {actual}" |
| `CoreAsserts.AssertNotIn` | src/pytest_asserts/core_asserts.py:37-40 | on a list, passes exactly when no item equals `expected`; on a str, passes exactly when `expected` is not a substring, and raises if `expected` is not a str; on other values, raises; fails with "{expected} is in {actual}" |
| `CoreAsserts.AssertIsNotIn` | src/pytest_asserts/core_asserts.py:141-144 | the same test, error cases and message as `assert_not_in` |
| `CoreAsserts.IsNotInDuplicatesNotIn` | src/pytest_asserts/core_asserts.py:141-144 | `assert_is_not_in` returns the same outcome as `assert_not_in`, message included, on every input |
| `CoreAsserts.MembershipHelpersComplementary` | src/pytest_asserts/core_asserts.py:31-40 | `assert_in` and `assert_not_in` raise on the same inputs; on every other input exactly one of them passes |
| `CoreAsserts.ItemIsIn` | src/pytest_asserts/core_asserts.py:31-40 | every item of a list, and every value equal to an item, passes `assert_in` on that list; every item fails `assert_not_in` on it |
| `CoreAsserts.MembershipEdgeCases` | src/pytest_asserts/core_asserts.py:31-40 | "" is in every str; nothing is in [] (the message is "{e} is not in []"); `assert_not_in(1, some_str)` raises `TypeError` |
| `CoreAsserts.MembershipExamples` | src/pytest_asserts/core_asserts.py:31-34 | `assert_in(1, [1, 2, 3])` passes, `assert_in(4, [1, 2, 3])` fails, and "ell" is in "hello" |
| `CoreAsserts.AssertIsNone` | src/pytest_asserts/core_asserts.py:55-58 | passes exactly on None, and otherwise fails with "{value} is not None" |
| `CoreAsserts.AssertIsNotNone` | src/pytest_asserts/core_asserts.py:61-64 | passes exactly on values other than None, never raises, and fails with "None is None" |
| `CoreAsserts.NoneHelpersComplementary` | src/pytest_asserts/core_asserts.py:55-64 | exactly one of `assert_is_none` and `assert_is_not_none` passes; the test is identity with None, not falsiness (`assert_is_none(0)` fails) |
| `CoreAsserts.AssertLength` | src/pytest_asserts/core_asserts.py:81-84 | on a list or str, passes exactly when its length `==` `expected` (for an int `expected`, when the lengths are equal); on other values, raises; the failure message shows the container, then its actual length as a numeral, then `expected` |
| `CoreAsserts.LengthExamples` | src/pytest_asserts/core_asserts.py:81-84 | `assert_length(3, [1, 2, 3])`, `assert_length(True, "a")` and `assert_length(0, "")` pass; `assert_length(1, None)` raises |
| `CoreAsserts.LengthFailureMessage` | src/pytest_asserts/core_asserts.py:81-84 | for every list or str whose length differs from an int `n`, `assert_length(n, c)` fails with "{c} has a length of {len(c)}, not {n}", and both numerals read back as the actual length and as `n` |
| `CoreAsserts.AssertGreaterThan` | src/pytest_asserts/core_asserts.py:87-90 | passes exactly when `actual > expected`, and otherwise fails with "{actual} is not greater than {expected}" |
| `CoreAsserts.AssertGreaterThanOrEqual` | src/pytest_asserts/core_asserts.py:93-96 | passes exactly when `actual >= expected`, and otherwise fails with "{actual} is not greater than or equal to {expected}" |
| `CoreAsserts.AssertLessThan` | src/pytest_asserts/core_asserts.py:99-102 | passes exactly when `actual < expected`, and otherwise fails with "{actual} is not less than {expected}" |
| `CoreAsserts.AssertLessThanOrEqual` | src/pytest_asserts/core_asserts.py:105-108 | passes exactly when `actual <= expected`, and otherwise fails with "{actual} is not less than or equal to {expected}" |
| `CoreAsserts.OrderingHelpersComplementary` | src/pytest_asserts/core_asserts.py:87-108 | exactly one of greater-than and less-than-or-equal passes, and exactly one of greater-than-or-equal and less-than passes |
| `CoreAsserts.OrderingHelpersMirror` | src/pytest_asserts/core_asserts.py:87-108 | swapping the arguments turns greater-than into less-than (strict and non-strict); each strict helper implies its non-strict one; on equal arguments the non-strict helpers pass and the strict ones fail |
| `CoreAsserts.AssertAllNotNone` | src/pytest_asserts/core_asserts.py:195-199 | as written, fails exactly when some non-None item is truthy, so it passes exactly when no item is truthy; fails with "Not all values in {xs} are None" |
| `CoreAsserts.AssertAnyNotNone` | src/pytest_asserts/core_asserts.py:202-206 | as written, passes exactly when some non-None item is truthy, so `[0]`, `[False]` and `[]` fail; fails with "No values in {xs} are not None" |
| `CoreAsserts.AggregateHelpersComplementary` | src/pytest_asserts/core_asserts.py:195-206 | as written, exactly one of the two aggregate helpers passes on every list |
| `CoreAsserts.AggregateExamples` | src/pytest_asserts/core_asserts.py:195-206 | `[None, 0, ""]` passes `assert_all_not_none` and `[None, 1]` fails it; `[0, None]`, `[False]` and `[]` fail `assert_any_not_none`, and `[None, "x"]` passes it |
| `CoreAsserts.FilterNotNoneEmpty` | src/pytest_asserts/core_asserts.py:197 | the filtered list is non-empty exactly when some item is not None |
| `CoreAsserts.AssertAllNoneAsDocumented` | src/pytest_asserts/core_asserts.py:195-199 | the documented behaviour: passes exactly when every item is None, and fails, with the source's message, as soon as one item is not None |
| `CoreAsserts.AssertAnyNotNoneAsDocumented` | src/pytest_asserts/core_asserts.py:202-206 | the documented behaviour: passes exactly when some item is not None, whatever its truthiness |
| `CoreAsserts.DocumentedAggregatesComplementary` | src/pytest_asserts/core_asserts.py:195-206 | exactly one of the two documented helpers passes on every list |
| `CoreAsserts.AggregateDivergenceWitness` | src/pytest_asserts/core_asserts.py:195-206 | on `[0]` the code passes `assert_all_not_none` and fails `assert_any_not_none`; the documented behaviour does the opposite on both |
| `CoreAsserts.AggregateDivergence` | src/pytest_asserts/core_asserts.py:195-206 | code and documentation disagree exactly on lists that hold a non-None item but no truthy item; the code is only more lenient for `assert_all_not_none` and only stricter for `assert_any_not_none`; they agree whenever every non-None item is truthy |

## Left out

- `assert_raises` and `assert_raises_message` (lines 67-78): they wrap pytest's `raises` context manager, run a callable and match a regular expression. This is foreign exception control flow.
- `assert_almost_equal` (lines 111-114): it depends on floating-point subtraction and `round`.
- The introspection helpers on coroutines, async generator functions, get/set descriptors, generators and generator functions (lines 147-174, 183-192, 241-262): they query CPython's runtime object categories.
- `assert_is_instance`, `assert_is_not_instance`, `assert_is_subclass`, `assert_not_is_subclass`, `assert_is_file_descriptor` and `assert_is_io` (lines 43-52, 123-132, 209-218): they depend on Python's dynamic class hierarchy.
- `assert_has_attr`, `assert_is_iterator`, `assert_is_not_iterator` and `assert_is_iterable` (lines 177-180, 221-238): they depend on attribute lookup and the iterator protocol.
- `assert_is` and `assert_is_not` (lines 117-120, 135-138): the model's values are immutable and have no object identity.
- `raise_assertion_error` (line 4) lives in `pytest_asserts/utils.py`, which is not part of this model. It appears only as the `Fail(msg)` outcome.
- Values other than None, bool, int, str and list (floats, tuples, dicts, sets, user objects with their own `__eq__`, `__bool__`, `__len__` or `__contains__`) are not modelled. Without NaN and user-defined `__eq__`, `!=` is exactly the negation of `==`, and an item that `is` the searched value is also `==` to it.
- CoreAsserts.AssertGreaterThan: takes ints only. The source applies `<=` to any two Python values, including strings and lists, and raises `TypeError` for kinds that cannot be ordered.
- CoreAsserts.AssertGreaterThanOrEqual: takes ints only, for the same reason.
- CoreAsserts.AssertLessThan: takes ints only, for the same reason.
- CoreAsserts.AssertLessThanOrEqual: takes ints only, for the same reason.
- The aggregate helpers take a list. A one-shot iterator passed in would be consumed by `filter`, and its `str()` would be an object description instead of the items; neither is modelled.
- `Render.Repr` puts single quotes around a string and does no escaping. Python's `repr` uses double quotes when the string holds a single quote and no double quote. When it holds both, `repr` keeps single quotes and escapes each single quote as `\'`. It also escapes backslashes and every non-printable character (control characters and the other characters Python does not count as printable). Messages for lists of such strings differ from Python's.
- `Render.Decimal`: renders every int, however long. CPython 3.11 and later (and the 3.10.7, 3.9.14 and 3.8.14 security releases) refuse to convert an int of more than 4300 decimal digits to text by default. So `assert_equal(10**5000, 0)` and `assert_greater_than(10**5000, 0)` raise `ValueError` while building the f-string (lines 22 and 90), where the model returns `Fail`.
- The text of the `TypeError` that `in` and `len` raise is not modelled, only the fact that it is raised.

## Findings

| source | as written | input that shows it | evidently intended | confidence | as-written member | corrected member |
|---|---|---|---|---|---|---|
| src/pytest_asserts/core_asserts.py:195-199 | `any(filter(lambda x: x is not None, xs))` fails only when some item is truthy, so falsy non-None items (0, "", False, []) pass as if they were None | `assert_all_not_none([0])` passes | the doc-comment and the failure message both say the check is that all values are None, so `[0]` should fail | medium, not executed (the function's name, "all not none", points the other way) | `CoreAsserts.AssertAllNotNone`, shown by `CoreAsserts.AggregateDivergenceWitness` | `CoreAsserts.AssertAllNoneAsDocumented` |
| src/pytest_asserts/core_asserts.py:202-206 | `any(filter(...))` tests the truthiness of the non-None items, so a list whose non-None items are all falsy fails | `assert_any_not_none([0])` and `assert_any_not_none([False])` fail | the name, doc-comment and failure message all say: pass when any value is not None | high, not executed | `CoreAsserts.AssertAnyNotNone`, shown by `CoreAsserts.AggregateDivergenceWitness` | `CoreAsserts.AssertAnyNotNoneAsDocumented` |
