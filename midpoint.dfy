/**
 * The midpoint solver of the double range slider: the value at which the range
 * [min, max] is split between the lower and the upper native range input.
 */
module Midpoint {
  import opened Wrappers

  /** `Math.floor` on a real. */
  function Floor(x: real): (f: int)
    ensures f as real <= x < f as real + 1.0
  {
    x.Floor
  }

  /** `Math.ceil`, written through floor. */
  function Ceil(x: real): (c: int)
    ensures x <= c as real < x + 1.0
  {
    -((-x).Floor)
  }

  /** A real with no fractional part. */
  predicate IsInteger(q: real) {
    q.Floor as real == q
  }

  /** `x` lies on the lattice min + k * step for some integer k. */
  predicate OnLattice(x: real, min: real, step: real)
    requires step != 0.0
  {
    IsInteger((x - min) / step)
  }

  /**
   * The number of steps above `min` at which the solver places the midpoint:
   * between the step just below x0 and the step just above x1, halfway, and
   * on an odd distance half a step lower (or higher when `preferUpper`).
   */
  function MidpointIndex(min: real, x0: real, x1: real, step: real, preferUpper: bool): (k: int)
    requires step != 0.0
    ensures (Ceil((x1 - min) / step) - Floor((x0 - min) / step)) % 2 == 0 ==>
      2 * k == Floor((x0 - min) / step) + Ceil((x1 - min) / step)
    ensures (Ceil((x1 - min) / step) - Floor((x0 - min) / step)) % 2 != 0 && !preferUpper ==>
      2 * k == Floor((x0 - min) / step) + Ceil((x1 - min) / step) - 1
    ensures (Ceil((x1 - min) / step) - Floor((x0 - min) / step)) % 2 != 0 && preferUpper ==>
      2 * k == Floor((x0 - min) / step) + Ceil((x1 - min) / step) + 1
  {
    var stepsFromMin := Floor((x0 - min) / step);
    var stepsToMax := Ceil((x1 - min) / step);
    var delta := stepsToMax - stepsFromMin;
    if delta % 2 == 0 then stepsFromMin + delta / 2
    else stepsFromMin + (if preferUpper then delta + 1 else delta - 1) / 2
  }

  /** The midpoint for the pair (x0, x1); `None` is the step "any". */
  function FindMidpoint(min: real, x0: real, x1: real, step: Option<real>, preferUpper: bool): (m: real)
    requires step.Some? ==> step.value != 0.0
    ensures step.None? ==> m - x0 == x1 - m
    ensures step.Some? ==> OnLattice(m, min, step.value)
  {
    match step
    case None => (x0 + x1) / 2.0
    case Some(s) =>
      var k := MidpointIndex(min, x0, x1, s, preferUpper);
      LatticePoint(min, k, s);
      min + k as real * s
  }

  /** Without a step the midpoint is the plain average, equally far from both values. */
  lemma AverageWithoutStep(min: real, x0: real, x1: real, preferUpper: bool)
    ensures FindMidpoint(min, x0, x1, None, preferUpper) == (x0 + x1) / 2.0
    ensures x0 <= x1 ==> x0 <= FindMidpoint(min, x0, x1, None, preferUpper) <= x1
    ensures FindMidpoint(min, x0, x1, None, preferUpper) - x0 == x1 - FindMidpoint(min, x0, x1, None, preferUpper)
  {
  }

  /** Division by a positive real keeps the order. */
  lemma DivideMonotone(a: real, b: real, s: real)
    requires a <= b && s > 0.0
    ensures a / s <= b / s
  {
    assert b / s - a / s == (b - a) / s;
  }

  /** min + k * step is on the lattice, k steps above min. */
  lemma LatticePoint(min: real, k: int, step: real)
    requires step != 0.0
    ensures ((min + k as real * step) - min) / step == k as real
    ensures OnLattice(min + k as real * step, min, step)
  {
    assert (min + k as real * step) - min == k as real * step;
  }

  /**
   * With a positive step and x0 <= x1 the midpoint index lies between the
   * step just below x0 and the step just above x1.
   */
  lemma IndexBetween(min: real, x0: real, x1: real, step: real, preferUpper: bool)
    requires step > 0.0 && x0 <= x1
    ensures Floor((x0 - min) / step) <= MidpointIndex(min, x0, x1, step, preferUpper) <= Ceil((x1 - min) / step)
  {
    DivideMonotone(x0 - min, x1 - min, step);
  }

  /**
   * With a positive step the midpoint is min + k * step for the integer
   * k = MidpointIndex, with floor((x0-min)/step) <= k <= ceil((x1-min)/step);
   * so it is on the lattice.
   */
  lemma MidpointOnLattice(min: real, x0: real, x1: real, step: real, preferUpper: bool)
    requires step > 0.0 && x0 <= x1
    ensures var k := MidpointIndex(min, x0, x1, step, preferUpper);
      && FindMidpoint(min, x0, x1, Some(step), preferUpper) == min + k as real * step
      && Floor((x0 - min) / step) <= k <= Ceil((x1 - min) / step)
    ensures OnLattice(FindMidpoint(min, x0, x1, Some(step), preferUpper), min, step)
  {
    var k := MidpointIndex(min, x0, x1, step, preferUpper);
    IndexBetween(min, x0, x1, step, preferUpper);
    LatticePoint(min, k, step);
    assert FindMidpoint(min, x0, x1, Some(step), preferUpper) == min + k as real * step;
  }

  /** With a positive step the midpoint is strictly less than one step outside [x0, x1]. */
  lemma MidpointWithinOneStep(min: real, x0: real, x1: real, step: real, preferUpper: bool)
    requires step > 0.0 && x0 <= x1
    ensures x0 - step < FindMidpoint(min, x0, x1, Some(step), preferUpper) < x1 + step
  {
    var k := MidpointIndex(min, x0, x1, step, preferUpper);
    IndexBetween(min, x0, x1, step, preferUpper);
    BelowOneStep(x0 - min, Floor((x0 - min) / step), k, step);
    AboveOneStep(x1 - min, Ceil((x1 - min) / step), k, step);
  }

  /** A product of a positive and a non-negative real. */
  lemma MulSign(a: real, s: real)
    requires s > 0.0
    ensures a > 0.0 ==> a * s > 0.0
    ensures a >= 0.0 ==> a * s >= 0.0
  {
  }

  /** Multiplication distributes over a sum of three terms. */
  lemma Distribute(a: real, b: real, c: real, s: real)
    ensures (a + b - c) * s == a * s + b * s - c * s
  {
  }

  /** Multiplying by a positive real keeps a strict order. */
  lemma MulStrict(a: real, b: real, s: real)
    requires s > 0.0 && a < b
    ensures a * s < b * s
  {
    MulSign(b - a, s);
    Distribute(b, 0.0, a, s);
  }

  /** k >= floor(d / s) puts k * s above d - s. */
  lemma BelowOneStep(d: real, lo: int, k: int, s: real)
    requires s > 0.0 && lo == Floor(d / s) && lo <= k
    ensures d - s < k as real * s
  {
    var q := d / s;
    assert q * s == d;
    MulStrict(q, k as real + 1.0, s);
    assert (k as real + 1.0) * s == k as real * s + s;
  }

  /** k <= ceil(d / s) puts k * s below d + s. */
  lemma AboveOneStep(d: real, hi: int, k: int, s: real)
    requires s > 0.0 && hi == Ceil(d / s) && k <= hi
    ensures k as real * s < d + s
  {
    var q := d / s;
    assert q * s == d;
    MulStrict(k as real, q + 1.0, s);
    assert (q + 1.0) * s == q * s + s;
  }

  /** A lattice point is exactly a whole number of steps above min. */
  lemma LatticeIndex(x: real, min: real, step: real)
    requires step > 0.0 && OnLattice(x, min, step)
    ensures Floor((x - min) / step) == Ceil((x - min) / step)
    ensures x == min + Floor((x - min) / step) as real * step
  {
    var q := (x - min) / step;
    assert x - min == q * step;
  }

  /**
   * For x0 <= x1 both on the lattice, the midpoint is on the lattice and lies
   * in [x0, x1]: the lower input [min, m] can hold x0 and the upper input
   * [m, max] can hold x1.
   */
  lemma MidpointBetweenLatticeValues(min: real, x0: real, x1: real, step: real, preferUpper: bool)
    requires step > 0.0 && x0 <= x1
    requires OnLattice(x0, min, step) && OnLattice(x1, min, step)
    ensures OnLattice(FindMidpoint(min, x0, x1, Some(step), preferUpper), min, step)
    ensures x0 <= FindMidpoint(min, x0, x1, Some(step), preferUpper) <= x1
  {
    var k := MidpointIndex(min, x0, x1, step, preferUpper);
    var a := Floor((x0 - min) / step);
    var b := Ceil((x1 - min) / step);
    MidpointOnLattice(min, x0, x1, step, preferUpper);
    LatticeIndex(x0, min, step);
    LatticeIndex(x1, min, step);
    assert x0 == min + a as real * step;
    assert x1 == min + b as real * step;
    assert FindMidpoint(min, x0, x1, Some(step), preferUpper) == min + k as real * step;
    MulSign(k as real - a as real, step);
    Distribute(k as real, 0.0, a as real, step);
    MulSign(b as real - k as real, step);
    Distribute(b as real, 0.0, k as real, step);
  }

  /**
   * The "prefer upper" tie-break changes nothing on an even distance and
   * moves the midpoint exactly one step up on an odd distance.
   */
  lemma PreferUpperTieBreak(min: real, x0: real, x1: real, step: real)
    requires step != 0.0
    ensures var delta := Ceil((x1 - min) / step) - Floor((x0 - min) / step);
      && (delta % 2 == 0 ==> FindMidpoint(min, x0, x1, Some(step), true) == FindMidpoint(min, x0, x1, Some(step), false))
      && (delta % 2 != 0 ==> FindMidpoint(min, x0, x1, Some(step), true) == FindMidpoint(min, x0, x1, Some(step), false) + step)
  {
    var delta := Ceil((x1 - min) / step) - Floor((x0 - min) / step);
    var k := MidpointIndex(min, x0, x1, step, false);
    if delta % 2 != 0 {
      assert MidpointIndex(min, x0, x1, step, true) == k + 1;
      assert (k + 1) as real * step == k as real * step + step;
    }
  }

  /** The solver's midpoint for the initial range [0, 100], values (0, 100) and the default step 1. */
  lemma InitialMidpoint()
    ensures FindMidpoint(0.0, 0.0, 100.0, Some(1.0), false) == 50.0
  {
  }

  /** Dragging the lower thumb from 0 to 30 over [0, 100] with step 1 moves the midpoint to 65. */
  lemma DragScenario()
    ensures FindMidpoint(0.0, 30.0, 100.0, Some(1.0), false) == 65.0
  {
  }

  /** Values that are not on the lattice can put the midpoint below the lower value. */
  lemma OffLatticeMidpointBelowLower()
    ensures FindMidpoint(0.0, 12.0, 13.0, Some(10.0), false) == 10.0 < 12.0
  {
    assert Floor(12.0 / 10.0) == 1;
    assert Ceil(13.0 / 10.0) == 2;
  }
}
