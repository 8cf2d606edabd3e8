/**
  Python's `round`, over exact reals: to a whole number with ties to even, and to a
  fixed number of steps per unit (100 steps per unit for cents, 10000 for four decimals).
  Binary floating-point representation error is not modelled.
 */
module Rounding {

  function HalfEven(x: real): (n: int)
    ensures n as real - 0.5 <= x <= n as real + 0.5
    ensures x == n as real - 0.5 || x == n as real + 0.5 ==> n % 2 == 0
  {
    var f := x.Floor;
    var d := x - f as real;
    if d < 0.5 || (d == 0.5 && f % 2 == 0) then f else f + 1
  }

  /** The contract of HalfEven leaves no choice: nearest, and even on a tie. */
  lemma HalfEvenUnique(x: real, n: int)
    requires n as real - 0.5 <= x <= n as real + 0.5
    requires x == n as real - 0.5 || x == n as real + 0.5 ==> n % 2 == 0
    ensures n == HalfEven(x)
  {
    var m := HalfEven(x);
    assert -1 <= m - n <= 1;
  }

  lemma HalfEvenMonotone(x: real, y: real)
    requires x <= y
    ensures HalfEven(x) <= HalfEven(y)
  {
    var _, _ := HalfEven(x), HalfEven(y);
  }

  /** `x` rounded to the nearest of `k` equal steps per unit. */
  function RoundAt(x: real, k: int): (r: real)
    requires k > 0
  {
    HalfEven(x * k as real) as real / k as real
  }

  /** `x` is a whole number of steps. */
  ghost predicate OnGrid(x: real, k: int) {
    x * k as real == (x * k as real).Floor as real
  }

  lemma ScaleUp(x: real, k: int)
    requires k > 0
    ensures RoundAt(x, k) * k as real == HalfEven(x * k as real) as real
  {
  }

  lemma RoundAtNear(x: real, k: int)
    requires k > 0
    ensures OnGrid(RoundAt(x, k), k)
    ensures x - 0.5 / k as real <= RoundAt(x, k) <= x + 0.5 / k as real
  {
    ScaleUp(x, k);
    var h := HalfEven(x * k as real);
    Unscale(h as real - 0.5, x * k as real, k);
    Unscale(x * k as real, h as real + 0.5, k);
  }

  lemma Unscale(a: real, b: real, k: int)
    requires k > 0 && a <= b
    ensures a / k as real <= b / k as real
  {
    var d := b - a;
    assert d / k as real >= 0.0;
    assert b / k as real == (a + d) / k as real;
  }

  /** On a tie between two neighbouring steps the even step is taken. */
  lemma RoundAtTie(x: real, k: int)
    requires k > 0
    requires x * k as real - (x * k as real).Floor as real == 0.5
    ensures (RoundAt(x, k) * k as real).Floor % 2 == 0
  {
    ScaleUp(x, k);
    var h := HalfEven(x * k as real);
    assert x * k as real == h as real - 0.5 || x * k as real == h as real + 0.5;
  }

  lemma RoundAtMonotone(x: real, y: real, k: int)
    requires k > 0 && x <= y
    ensures RoundAt(x, k) <= RoundAt(y, k)
  {
    assert x * k as real <= y * k as real by {
      assert (y - x) * k as real >= 0.0;
    }
    HalfEvenMonotone(x * k as real, y * k as real);
    Unscale(HalfEven(x * k as real) as real, HalfEven(y * k as real) as real, k);
  }

  /** Rounding leaves a value that is already on the grid alone. */
  lemma RoundAtFixed(x: real, k: int)
    requires k > 0 && OnGrid(x, k)
    ensures RoundAt(x, k) == x
  {
    HalfEvenUnique(x * k as real, (x * k as real).Floor);
  }

  /** A grid with `m` times as many steps contains the coarser one. */
  lemma FinerGrid(x: real, k: int, m: int)
    requires OnGrid(x, k)
    ensures OnGrid(x, k * m)
  {
    var n := (x * k as real).Floor;
    assert x * (k * m) as real == (n * m) as real by {
      assert x * (k * m) as real == (x * k as real) * m as real;
    }
  }
}
