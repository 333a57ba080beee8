/**
 * Properties of the slider's operations that relate several calls or hold of
 * every reachable state: idempotence, the invariant that keeps both native
 * inputs able to show their value, and the places where the widget does less
 * than one might expect.
 */
module SliderProperties {
  import opened Wrappers
  import opened Midpoint
  import opened SliderState

  /**
   * A state in which both thumbs can show the stored pair: the inputs are wired
   * and synced, the midpoint is solved under the positive step `s`, and the pair
   * is ordered, inside the range and on the step lattice.
   */
  ghost predicate Healthy(st: State, s: real) {
    && s > 0.0
    && StepOf(st.step) == Some(s)
    && Wired(st) && Synced(st) && Solved(st, Some(s)) && Drawn(st)
    && st.range.lower <= st.values.lower <= st.values.upper <= st.range.upper
    && OnLattice(st.values.lower, st.range.lower, s)
    && OnLattice(st.values.upper, st.range.lower, s)
  }

  /** In a healthy state each input's value lies within its own [min, max], and the midpoint is on the lattice. */
  lemma HealthyThumbsFit(st: State, s: real)
    requires Healthy(st, s)
    ensures st.lower.min <= st.lower.value <= st.lower.max
    ensures st.upper.min <= st.upper.value <= st.upper.max
    ensures st.values.lower <= st.midPoint <= st.values.upper
    ensures OnLattice(st.midPoint, st.range.lower, s)
  {
    MidpointBetweenLatticeValues(st.range.lower, st.values.lower, st.values.upper, s, false);
  }

  /** A part of a positive whole, no larger than it, is a share between 0 and 100 percent. */
  lemma ShareWithin(a: real, d: real)
    requires 0.0 <= a <= d && d > 0.0
    ensures 0.0 <= a / d * 100.0 <= 100.0
  {
    var q := a / d;
    assert q * d == a;
    if q > 1.0 {
      MulStrict(1.0, q, d);
    }
    if q < 0.0 {
      MulStrict(q, 0.0, d);
    }
  }

  /**
   * For a non-empty range and ordered values around the midpoint, both widths
   * are between 0 and 100 percent, and so is each fill whose input is not empty.
   */
  lemma SharesWithinBounds(st: State, mid: real, v0: real, v1: real)
    requires st.range.lower < st.range.upper
    requires st.range.lower <= v0 <= mid <= v1 <= st.range.upper
    ensures var r := SetMidpoint(st, mid, v0, v1);
      && r.lower.width.Some? && 0.0 <= r.lower.width.value <= 100.0
      && r.upper.width.Some? && 0.0 <= r.upper.width.value <= 100.0
      && (st.range.lower < mid ==> r.fill0.Some? && 0.0 <= r.fill0.value <= 100.0)
      && (mid < st.range.upper ==> r.fill1.Some? && 0.0 <= r.fill1.value <= 100.0)
  {
    var r0, r1 := st.range.lower, st.range.upper;
    ShareWithin(mid - r0, r1 - r0);
    ShareWithin(r1 - mid, r1 - r0);
    if r0 < mid {
      ShareWithin(v0 - r0, mid - r0);
    }
    if mid < r1 {
      ShareWithin(v1 - mid, r1 - mid);
    }
  }

  /**
   * In a healthy state whose midpoint lies strictly inside the range, the
   * drawn widths and fills are all percentages between 0 and 100.
   */
  lemma HealthySharesWithinBounds(st: State, s: real)
    requires Healthy(st, s) && st.range.lower < st.midPoint < st.range.upper
    ensures st.lower.width.Some? && 0.0 <= st.lower.width.value <= 100.0
    ensures st.upper.width.Some? && 0.0 <= st.upper.width.value <= 100.0
    ensures st.fill0.Some? && 0.0 <= st.fill0.value <= 100.0
    ensures st.fill1.Some? && 0.0 <= st.fill1.value <= 100.0
  {
    HealthyThumbsFit(st, s);
    SharesWithinBounds(st, st.midPoint, st.values.lower, st.values.upper);
  }

  /** The widget starts healthy under its default step 1. */
  lemma InitialHealthy()
    ensures Healthy(Initial, 1.0)
    ensures StepOf(Initial.step) == Some(1.0)
  {
    InitialMidpoint();
    LatticePoint(0.0, 0, 1.0);
    LatticePoint(0.0, 100, 1.0);
  }

  /**
   * Dragging either thumb to a lattice value its input allows, followed by the
   * `input`/`change` handler, keeps the state healthy.
   */
  lemma DragKeepsHealthy(st: State, s: real, thumb: Thumb, v: real, kind: EventKind)
    requires Healthy(st, s)
    requires thumb == LowerThumb ==> st.lower.min <= v <= st.lower.max
    requires thumb == UpperThumb ==> st.upper.min <= v <= st.upper.max
    requires OnLattice(v, st.range.lower, s)
    ensures Healthy(Changed(Drag(st, thumb, v), kind).0, s)
  {
    HealthyThumbsFit(st, s);
    var d := Drag(st, thumb, v);
    var r := Changed(d, kind).0;
    if !Synced(d) {
      assert Solved(r, Some(s));
      assert r.values == Pair(d.lower.value, d.upper.value);
    }
  }

  /**
   * Setting lattice values inside the range (lower <= upper) on a wired state
   * whose step is positive leaves it healthy.
   */
  lemma SetValuesKeepsHealthy(st: State, s: real, lower: real, upper: real)
    requires s > 0.0 && StepOf(st.step) == Some(s) && Wired(st)
    requires st.range.lower <= lower <= upper <= st.range.upper
    requires OnLattice(lower, st.range.lower, s) && OnLattice(upper, st.range.lower, s)
    ensures SetValues(st, Finite(lower), Finite(upper)).Success?
    ensures Healthy(SetValues(st, Finite(lower), Finite(upper)).value, s)
  {
  }

  /** Repeating a successful `setValues` call leaves the same state. */
  lemma SetValuesIdempotent(st: State, lower: Number, upper: Number)
    requires SetValues(st, lower, upper).Success?
    ensures SetValues(SetValues(st, lower, upper).value, lower, upper) == SetValues(st, lower, upper)
  {
    var once := SetValues(st, lower, upper).value;
    var twice := SetValues(once, lower, upper).value;
    assert once.range == st.range && once.step == st.step;
    assert twice.values == once.values;
    assert twice.midPoint == once.midPoint;
    assert twice.lower == once.lower;
    assert twice.upper == once.upper;
  }

  /** A rejected `setValues` call leaves no trace: `Result.Failure` carries no state, and the class keeps the old one. */
  lemma SetValuesRejectsInverted(st: State)
    ensures SetValues(st, Finite(5.0), Finite(2.0)) == Failure(LowerAboveUpper)
    ensures SetValues(st, NonFinite, Finite(2.0)) == Failure(InvalidNumbers)
  {
  }

  /**
   * `setValues` only raises the lower value and only lowers the upper one: a
   * lower value above the range's max stays, and the stored pair ends inverted.
   */
  lemma SetValuesLowerAboveMaxKept(st: State, lower: real, upper: real)
    requires st.range.lower <= st.range.upper < lower <= upper
    ensures SetValues(st, Finite(lower), Finite(upper)).Success?
    ensures SetValues(st, Finite(lower), Finite(upper)).value.values == Pair(lower, st.range.upper)
    ensures SetValues(st, Finite(lower), Finite(upper)).value.values.lower
          > SetValues(st, Finite(lower), Finite(upper)).value.values.upper
  {
  }

  /**
   * A value that leaves the range goes to the bound of its own side, not to the
   * nearest one: (20, 30) under a new range [50, 100] becomes (50, 100).
   */
  lemma ClampBySide(st: State)
    requires st.values == Pair(20.0, 30.0)
    ensures ApplyRange(st, 50.0, 100.0).values == Pair(50.0, 100.0)
  {
  }

  /** `selectedValues` is not checked for order: (80, 20) over [0, 100] is stored as given. */
  lemma SelectionOrderUnchecked(st: State)
    ensures SetRangeInternal(st, 0.0, 100.0, Some([Finite(80.0), Finite(20.0)])).Success?
    ensures SetRangeInternal(st, 0.0, 100.0, Some([Finite(80.0), Finite(20.0)])).value.values == Pair(80.0, 20.0)
  {
  }

  /** A rejected selection leaves the range and the values where they were. */
  lemma SelectionRejectedKeepsState(st: State, min: real, max: real, v: seq<Number>)
    requires !ValidSelection(v, min, max)
    ensures SetRange(st, min, max, Some(v), None) == Outcome(st, Some(SetRangeInternal(st, min, max, Some(v)).error))
  {
  }

  /**
   * A step passed to `setRange` is set before the range checks run, so it
   * stays set when they throw.
   */
  lemma SetRangeStepSticks(st: State)
    ensures SetRange(st, 0.0, 10.0, Some([Finite(20.0), Finite(30.0)]), Some(Finite(5.0)))
         == Outcome(st.(step := Parsed(5.0)), Some(NotInRange))
  {
  }

  /**
   * The scenario of a drag: from the initial state, dragging the lower thumb to
   * 30 moves the midpoint to 65 and reports (30, 100).
   */
  lemma DragScenarioState()
    ensures Changed(Drag(Initial, LowerThumb, 30.0), InputEvent).0.midPoint == 65.0
    ensures Changed(Drag(Initial, LowerThumb, 30.0), InputEvent).1 == Event(InputEvent, Pair(30.0, 100.0))
  {
    DragScenario();
  }

  /** With the step "any", values (20, 80) put the midpoint at exactly 50. */
  lemma ContinuousScenario(st: State)
    requires st.step == AnyStep && st.range == Pair(0.0, 100.0)
    ensures SetValues(st, Finite(20.0), Finite(80.0)).value.midPoint == 50.0
  {
  }
}
