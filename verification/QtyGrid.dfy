/**
  Snapping a quantity to the lot grid (qty_utils.py, qty_step_config.py), and why whole lots can stand
  for the snapped quantities: Decimal arithmetic is modelled on reals.
 */
module QtyGrid {

  /** Rounding towards zero. */
  function Truncate(x: real): int {
    if x >= 0.0 then x.Floor else -((-x).Floor)
  }

  function Quotient(q: real, step: real): (x: real)
    requires step > 0.0
    ensures x * step == q
  {
    q / step
  }

  function FloorToStep(q: real, step: real, eps: real): real
    requires step > 0.0
  {
    Truncate(Quotient(q + eps, step)) as real * step
  }

  lemma SignOfProduct(a: real, d: real)
    requires d > 0.0
    ensures a > 0.0 <==> a * d > 0.0
    ensures a >= 0.0 <==> a * d >= 0.0
  {
  }

  lemma Distribute(a: real, b: real, d: real)
    ensures (a - b) * d == a * d - b * d && (a + b) * d == a * d + b * d && 1.0 * d == d && 0.0 * d == 0.0
  {
  }

  /** A quantity between two grid points has its quotient between their indices. */
  lemma QuotientBetween(x: real, m: real, e: real, d: real)
    requires d > 0.0 && 0.0 <= e < d && x * d == m * d + e
    ensures m <= x < m + 1.0 && (x == m <==> e == 0.0)
  {
    Distribute(x, m, d);
    Distribute(1.0, x - m, d);
    SignOfProduct(x - m, d);
    SignOfProduct(1.0 - (x - m), d);
  }

  /**
    A whole number of lots is snapped to itself exactly when it is not negative or there is no epsilon:
    rounding towards zero moves a negative number of lots up by one.
   */
  lemma LotsAreFixed(n: int, step: real, eps: real)
    requires step > 0.0 && 0.0 <= eps < step
    ensures FloorToStep(n as real * step, step, eps) == n as real * step <==> n >= 0 || eps == 0.0
    ensures n < 0 && eps > 0.0 ==> FloorToStep(n as real * step, step, eps) == (n + 1) as real * step
  {
    hide Quotient;
    var x := Quotient(n as real * step + eps, step);
    QuotientBetween(x, n as real, eps, step);
    Distribute(n as real, 1.0, step);
    if n >= 0 {
      assert x.Floor == n;
    } else if eps == 0.0 {
      assert (-x).Floor == -n;
    } else {
      assert (-x).Floor == -n - 1;
      assert (n + 1) as real == n as real + 1.0;
    }
  }

  /**
    The snapped quantity is a whole number of lots: the last one up to the quantity plus epsilon where that
    is not negative, and the first one from there where it is, because rounding goes towards zero.
   */
  lemma SnapsToLots(q: real, step: real, eps: real) returns (n: int)
    requires step > 0.0
    ensures FloorToStep(q, step, eps) == n as real * step
    ensures q + eps >= 0.0 ==> q + eps - step < n as real * step <= q + eps
    ensures q + eps < 0.0 ==> q + eps <= n as real * step < q + eps + step
  {
    hide Quotient;
    var x := Quotient(q + eps, step);
    SignOfProduct(x, step);
    n := Truncate(x);
    if x >= 0.0 {
      Remainder(x, n as real, q + eps - n as real * step, step);
    } else {
      assert (-x) * step == -(x * step) && (-n) as real * step == -(n as real * step);
      Remainder(-x, (-n) as real, -(q + eps) + n as real * step, step);
    }
  }

  /** What is left after the whole steps is less than a step. */
  lemma Remainder(x: real, f: real, r: real, d: real)
    requires d > 0.0 && f <= x < f + 1.0 && x * d == f * d + r
    ensures 0.0 <= r < d
  {
    var part := x - f;
    assert part * d == r;
    Distribute(1.0, part, d);
    SignOfProduct(part, d);
    SignOfProduct(1.0 - part, d);
  }

  /**
    The ledger always takes max(snapped, 0) of a difference of lots, and there the snapping is exact for
    every difference: sizes can be counted in whole lots.
   */
  lemma LotArithmetic(n: int, step: real, eps: real)
    requires step > 0.0 && 0.0 <= eps < step
    ensures var d := FloorToStep(n as real * step, step, eps);
      (if d > 0.0 then d else 0.0) == (if n > 0 then n else 0) as real * step
  {
    hide FloorToStep;
    LotsAreFixed(n, step, eps);
    SignOfProduct(n as real, step);
    SignOfProduct((n + 1) as real, step);
    assert 0 as real * step == 0.0;
  }
}
