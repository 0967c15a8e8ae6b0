/** Rounding to the platform's eight-place grid. */
module Rounding {
  import opened Quotients

  /** Steps per unit: prices, sizes and USD amounts move in hundred-millionths. */
  const STEPS: real := 100000000.0

  /** Decimal ROUND_HALF_UP to eight places: ties go away from zero. */
  function RoundHalfUp(x: real): real {
    if x >= 0.0 then (x * STEPS + 0.5).Floor as real / STEPS
    else -((-x * STEPS + 0.5).Floor as real / STEPS)
  }

  predicate OnGrid(x: real) {
    (x * STEPS).Floor as real == x * STEPS
  }

  lemma RoundingKeepsOrderWithGrid(x: real, grid: real)
    requires OnGrid(grid) && grid >= 0.0
    ensures x >= grid ==> RoundHalfUp(x) >= grid
    ensures x <= grid ==> RoundHalfUp(x) <= grid
  {
    var g := (grid * STEPS).Floor;
    if x >= grid {
      assert (x * STEPS + 0.5).Floor >= g;
    } else if x >= 0.0 {
      assert x * STEPS + 0.5 < g as real + 1.0;
      assert (x * STEPS + 0.5).Floor <= g;
    }
  }

  /** Decimal ROUND_DOWN to `steps` per unit: toward zero. */
  function RoundDown(x: real, steps: real): real
    requires steps > 0.0
  {
    if x >= 0.0 then (x * steps).Floor as real / steps
    else -((-x * steps).Floor as real / steps)
  }

  /** A whole number of steps. */
  function Steps(k: int, steps: real): real
    requires steps > 0.0
  {
    k as real / steps
  }

  /** Rounding down gives the greatest grid point that is not above. */
  lemma RoundDownIsGreatestBelow(x: real, steps: real)
    requires x >= 0.0 && steps > 0.0
    ensures 0.0 <= RoundDown(x, steps) <= x
    ensures RoundDown(x, steps) == Steps((x * steps).Floor, steps)
    ensures forall k: int :: Steps(k, steps) <= x ==> Steps(k, steps) <= RoundDown(x, steps)
  {
    var n := (x * steps).Floor;
    QuotientBelow(n as real, steps, x);
    forall k: int | Steps(k, steps) <= x
      ensures Steps(k, steps) <= RoundDown(x, steps)
    {
      StepsBelow(k, steps, x);
      assert k <= n;
      assert Steps(k, steps) <= Steps(n, steps) by {
        QuotientsInOrder(k as real, n as real, steps);
      }
    }
    assert n >= 0;
    QuotientAbove(n as real, steps, 0.0);
  }

  lemma StepsBelow(k: int, steps: real, x: real)
    requires steps > 0.0 && Steps(k, steps) <= x
    ensures k as real <= x * steps
  {
    assert Steps(k, steps) * steps == k as real;
    assert (x - Steps(k, steps)) * steps >= 0.0;
  }
}
