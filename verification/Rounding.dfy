/** Python's `round` on reals: to the nearest, halves to the even neighbour. */
module Rounding {

  function RoundHalfEven(x: real): int {
    var f := x.Floor;
    var d := x - f as real;
    if d < 0.5 then f else if d > 0.5 then f + 1 else if f % 2 == 0 then f else f + 1
  }

  function Round2(x: real): real {
    RoundHalfEven(x * 100.0) as real / 100.0
  }

  function Round3(x: real): real {
    RoundHalfEven(x * 1000.0) as real / 1000.0
  }

  function Round4(x: real): real {
    RoundHalfEven(x * 10000.0) as real / 10000.0
  }

  lemma RoundMonotone(x: real, y: real)
    requires x <= y
    ensures RoundHalfEven(x) <= RoundHalfEven(y)
  {
    assert x.Floor <= y.Floor;
  }

  lemma RoundOfInt(n: int)
    ensures RoundHalfEven(n as real) == n
  {
    assert (n as real).Floor == n;
  }

  /** The nearest integer, and of two nearest ones the even. */
  lemma RoundsToNearest(x: real, n: int)
    ensures RoundHalfEven(x) == n <==>
            n as real - 0.5 < x < n as real + 0.5 || (n % 2 == 0 && (x == n as real - 0.5 || x == n as real + 0.5))
  {
  }

  lemma Round2Near(x: real)
    ensures x - 0.005 <= Round2(x) <= x + 0.005
  {
  }

  lemma Round3Near(x: real)
    ensures x - 0.0005 <= Round3(x) <= x + 0.0005
  {
  }

  lemma Round4Monotone(x: real, y: real)
    requires x <= y
    ensures Round4(x) <= Round4(y)
  {
    RoundMonotone(x * 10000.0, y * 10000.0);
  }

  /** Numbers of at most four decimals are left alone. */
  lemma Round4Fixed(x: real, n: int)
    requires x == n as real / 10000.0
    ensures Round4(x) == x
  {
    assert x * 10000.0 == n as real;
    RoundOfInt(n);
  }

  lemma Round4Between(x: real, lo: int, hi: int)
    requires lo as real <= x <= hi as real
    ensures lo as real <= Round4(x) <= hi as real
  {
    Round4Monotone(lo as real, x);
    Round4Monotone(x, hi as real);
    assert lo as real == (lo * 10000) as real / 10000.0 && hi as real == (hi * 10000) as real / 10000.0;
    Round4Fixed(lo as real, lo * 10000);
    Round4Fixed(hi as real, hi * 10000);
  }

  lemma Round4Near(x: real)
    ensures x - 0.00005 <= Round4(x) <= x + 0.00005
  {
  }
}
