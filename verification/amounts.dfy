/** Amounts are exact rationals in paise; what a voucher prints is rounded to whole
    paise. */
module Amounts {
  import opened Rounding

  /** Python's `a or b or ... or otherwise` on numbers. */
  function FirstNonZero(xs: seq<real>, otherwise: real): real {
    if xs == [] then otherwise else if xs[0] != 0.0 then xs[0] else FirstNonZero(xs[1..], otherwise)
  }

  predicate Whole(x: real) {
    x == x.Floor as real
  }

  /** Exactly half-way between two paise. */
  predicate HalfWay(x: real) {
    x - x.Floor as real == 0.5
  }

  function Odd(n: int): bool {
    n % 2 == 1
  }

  function Size(n: int): nat {
    if n < 0 then -n else n
  }

  function Total(xs: seq<real>): real {
    if xs == [] then 0.0 else Total(xs[..|xs| - 1]) + xs[|xs| - 1]
  }

  function Printed(xs: seq<real>): seq<int> {
    seq(|xs|, i requires 0 <= i < |xs| => Round(xs[i]))
  }

  function Sum(xs: seq<int>): int {
    if xs == [] then 0 else Sum(xs[..|xs| - 1]) + xs[|xs| - 1]
  }

  predicate AllWhole(xs: seq<real>) {
    forall i :: 0 <= i < |xs| ==> Whole(xs[i])
  }

  lemma RoundOfWholeReal(x: real)
    requires Whole(x)
    ensures Round(x) as real == x
  {
  }

  lemma {:induction false} TotalOfWhole(xs: seq<real>)
    requires AllWhole(xs)
    ensures Whole(Total(xs)) && Total(xs) == Sum(Printed(xs)) as real
  {
    if xs != [] {
      var n := |xs| - 1;
      TotalOfWhole(xs[..n]);
      assert Printed(xs)[..n] == Printed(xs[..n]);
      RoundOfWholeReal(xs[n]);
      assert Whole(xs[n]);
      WholeSum(Total(xs[..n]), xs[n]);
    }
  }

  lemma WholeSum(x: real, y: real)
    requires Whole(x) && Whole(y)
    ensures Whole(x + y) && Whole(x - y)
  {
    assert x + y == (x.Floor + y.Floor) as real;
    assert x - y == (x.Floor - y.Floor) as real;
    assert (x + y).Floor == x.Floor + y.Floor;
    assert (x - y).Floor == x.Floor - y.Floor;
  }

  /** n printed lines drift from their exact total by at most n halves. */
  lemma {:induction false} PrintedDrift(xs: seq<real>)
    ensures -(|xs| as real) / 2.0 <= Total(xs) - Sum(Printed(xs)) as real <= |xs| as real / 2.0
  {
    if xs != [] {
      var n := |xs| - 1;
      PrintedDrift(xs[..n]);
      assert Printed(xs)[..n] == Printed(xs[..n]);
      RoundIsNearest(xs[n]);
    }
  }

  /** A rounded total is within (n + 1) / 2 paise of its n printed lines. */
  lemma LedgerNearLines(xs: seq<real>)
    ensures 2 * Size(Round(Total(xs)) - Sum(Printed(xs))) <= |xs| + 1
    ensures AllWhole(xs) ==> Round(Total(xs)) == Sum(Printed(xs))
  {
    PrintedDrift(xs);
    RoundIsNearest(Total(xs));
    if AllWhole(xs) {
      TotalOfWhole(xs);
      RoundOfWholeReal(Total(xs));
    }
  }

  /** Rounding commutes with an integer shift except at a half-way amount and an odd
      shift, and then it is one off. */
  lemma RoundShiftIff(x: real, n: int)
    ensures Round(x + n as real) == Round(x) + n <==> !(HalfWay(x) && Odd(n))
    ensures Size(Round(x + n as real) - Round(x) - n) <= 1
  {
  }

  /** The two halves a tax is split into. */
  function FirstHalf(tax: real): int {
    Round(tax / 2.0)
  }

  function SecondHalf(tax: real): int {
    Round(tax - FirstHalf(tax) as real)
  }

  /** The halves of a whole tax make it up, and differ by at most a paisa. */
  lemma HalvesMakeWhole(tax: real)
    requires Whole(tax)
    ensures (FirstHalf(tax) + SecondHalf(tax)) as real == tax && Size(FirstHalf(tax) - SecondHalf(tax)) <= 1
  {
    RoundIsNearest(tax / 2.0);
    hide Round;
    WholeSum(tax, FirstHalf(tax) as real);
    RoundOfWholeReal(tax - FirstHalf(tax) as real);
  }
}
