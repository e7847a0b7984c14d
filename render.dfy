/** How the failure messages display values: every message is an f-string,
    and `f"{v}"` is Python's `str(v)`. For an int that is its decimal
    numeral, for a str the string itself, and for a list the `repr` of its
    items between brackets. */
module Render {
  import opened Values

  predicate IsDigit(c: char) {
    '0' <= c <= '9'
  }

  predicate AllDigits(s: string) {
    forall i :: 0 <= i < |s| ==> IsDigit(s[i])
  }

  function DigitChar(d: nat): (c: char)
    requires d < 10
    ensures IsDigit(c) && c as int - '0' as int == d
  {
    ('0' as int + d) as char
  }

  function DigitValue(c: char): (d: nat)
    requires IsDigit(c)
    ensures d < 10 && DigitChar(d) == c
  {
    c as int - '0' as int
  }

  /** The decimal numeral of a natural number, without leading zeros. */
  function NatDecimal(n: nat): (s: string)
    decreases n
  {
    if n < 10 then [DigitChar(n)] else NatDecimal(n / 10) + [DigitChar(n % 10)]
  }

  /** The number a string of digits denotes. */
  function ParseNat(s: string): (n: nat)
    requires AllDigits(s)
    decreases |s|
  {
    if s == [] then 0 else ParseNat(s[..|s| - 1]) * 10 + DigitValue(s[|s| - 1])
  }

  /** `str(n)` for an int: a minus sign for negative numbers, then the
      decimal numeral of the magnitude. The numeral reads back as `n`
      (`int(str(n)) == n`), so a number printed in a message is reported
      faithfully. */
  function Decimal(n: int): (s: string)
    ensures |s| > 0
    ensures if s[0] == '-' then AllDigits(s[1..]) else AllDigits(s)
    ensures ParseDecimal(s) == n
  {
    if n < 0 then
      NatDecimalRoundTrip(-n);
      var s := "-" + NatDecimal(-n);
      assert s[1..] == NatDecimal(-n);
      s
    else
      NatDecimalRoundTrip(n);
      NatDecimal(n)
  }

  /** `int(s)` for the strings `str` produces. */
  function ParseDecimal(s: string): (n: int)
    requires |s| > 0
    requires if s[0] == '-' then AllDigits(s[1..]) else AllDigits(s)
  {
    if s[0] == '-' then -(ParseNat(s[1..]) as int) else ParseNat(s)
  }

  /** The numeral of a natural number is a non-empty run of digits, not
      starting with 0 unless it is "0", and it reads back as that number. */
  lemma {:induction false} NatDecimalRoundTrip(n: nat)
    ensures |NatDecimal(n)| > 0 && AllDigits(NatDecimal(n))
    ensures NatDecimal(n)[0] == '0' <==> n == 0
    ensures ParseNat(NatDecimal(n)) == n
    decreases n
  {
    if n >= 10 {
      NatDecimalRoundTrip(n / 10);
      var s := NatDecimal(n);
      assert s[..|s| - 1] == NatDecimal(n / 10);
    }
  }

  /** Distinct numbers are printed differently. */
  lemma DecimalInjective(m: int, n: int)
    requires Decimal(m) == Decimal(n)
    ensures m == n
  {
    assert ParseDecimal(Decimal(m)) == ParseDecimal(Decimal(n));
  }

  /** `repr(v)`: never empty; a string is shown between single quotes
      (the escaping and the choice of quote character Python applies are
      not modelled), every other value as `str` shows it. */
  function Repr(v: Value): (r: string)
    ensures |r| > 0
    ensures v.Str? ==> |r| == |v.s| + 2 && r[0] == '\'' && r[|r| - 1] == '\'' && r[1..|r| - 1] == v.s
    ensures !v.Str? ==> r == Show(v)
    decreases v, 1
  {
    match v
    case Str(s) => "'" + s + "'"
    case _ => Show(v)
  }

  /** `str(v)`, which is what `f"{v}"` inserts into a message. A number
      is shown as a numeral that reads back as it, a list is bracketed, a
      string is shown as itself, and only the empty string is shown
      empty. */
  function Show(v: Value): (r: string)
    ensures v.Int? ==> |r| > 0 && (if r[0] == '-' then AllDigits(r[1..]) else AllDigits(r))
    ensures v.Int? ==> ParseDecimal(r) == v.n
    ensures v.List? ==> |r| >= 2 && r[0] == '[' && r[|r| - 1] == ']'
    ensures v.Str? ==> r == v.s
    ensures r == "" ==> v == Str("")
    decreases v, 0
  {
    match v
    case None => "None"
    case Bool(b) => if b then "True" else "False"
    case Int(n) => Decimal(n)
    case Str(s) => s
    case List(xs) => "[" + ReprItems(xs) + "]"
  }

  /** `", ".join(repr(x) for x in xs)`: the items of a list as `str`
      shows them between the brackets. */
  function ReprItems(xs: seq<Value>): (r: string)
    decreases xs
  {
    if xs == [] then ""
    else if |xs| == 1 then Repr(xs[0])
    else Repr(xs[0]) + ", " + ReprItems(xs[1..])
  }

  /** The items of a three-item list are shown as their `repr`,
      separated by ", ". */
  lemma ReprThreeItems(x: Value, y: Value, z: Value)
    ensures ReprItems([x, y, z]) == Repr(x) + ", " + Repr(y) + ", " + Repr(z)
  {
    assert ReprItems([y, z]) == Repr(y) + ", " + Repr(z) by {
      assert [y, z][1..] == [z];
    }
    assert [x, y, z][1..] == [y, z];
  }

  /** `str(-42)` is "-42". */
  lemma ShowNegativeExample()
    ensures Show(Int(-42)) == "-42"
  {
    assert NatDecimal(42) == "42";
  }

  /** `str([1, 'a', None])` is "[1, 'a', None]": strings inside a list are
      shown by their `repr`. */
  lemma ShowMixedListExample()
    ensures Show(List([Int(1), Str("a"), None])) == "[1, 'a', None]"
  {
    ReprThreeItems(Int(1), Str("a"), None);
    assert Repr(Int(1)) == "1";
  }

  /** `str([1, 2, 3])` is "[1, 2, 3]". */
  lemma ShowIntListExample()
    ensures Show(List([Int(1), Int(2), Int(3)])) == "[1, 2, 3]"
  {
    ReprThreeItems(Int(1), Int(2), Int(3));
    assert Repr(Int(1)) == "1" && Repr(Int(2)) == "2" && Repr(Int(3)) == "3";
  }
}
