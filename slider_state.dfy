/**
 * The numeric state of the double range slider — the range, the selected pair,
 * the midpoint and what the widget writes on its two native range inputs — and
 * each operation that changes it, as a function from the state before to the
 * state after.
 */
module SliderState {
  import opened Wrappers
  import opened Midpoint

  /** A JavaScript number handed to the widget's API: finite, or NaN / +-Infinity. */
  datatype Number = Finite(value: real) | NonFinite

  /** A (lower, upper) pair: the range [min, max] or the selected values. */
  datatype Pair = Pair(lower: real, upper: real)

  /** The `step` attribute of the native inputs, as `parseFloat` reads its text. */
  datatype StepAttr = Absent | AnyStep | Parsed(value: real) | Unparsable

  /**
   * What the widget writes on one native range input: its `min`, `max` and
   * `value`, and its share of the track in percent (`None` when infinite).
   */
  datatype Control = Control(min: real, max: real, value: real, width: Option<real>)

  /**
   * The widget's numeric fields, its two inputs, the two fill positions of the
   * track (`None` when not finite) and the step attribute of the inputs.
   */
  datatype State = State(
    range: Pair,
    values: Pair,
    midPoint: real,
    lower: Control,
    upper: Control,
    fill0: Option<real>,
    fill1: Option<real>,
    step: StepAttr)

  datatype Error =
    | InvalidNumbers   // setValues: a non-finite bound
    | LowerAboveUpper  // setValues: lower > upper
    | WrongLength      // selectedValues is not a pair
    | InvalidNumber    // selectedValues holds a non-finite value
    | NotInRange       // selectedValues lies outside [min, max]
    | InvalidStep      // step setter: non-finite or not positive

  datatype EventKind = InputEvent | ChangeEvent

  /** A dispatched `input` or `change` event and the pair it carries. */
  datatype Event = Event(kind: EventKind, detail: Pair)

  /** What a call that may throw leaves behind: the state, and the error if one was thrown. */
  datatype Outcome = Outcome(state: State, thrown: Option<Error>)

  /** The two native thumbs a user can drag. */
  datatype Thumb = LowerThumb | UpperThumb

  /** Range [0, 100], values (0, 100), midpoint 50, no step attribute. */
  const Initial: State := State(
    Pair(0.0, 100.0), Pair(0.0, 100.0), 50.0,
    Control(0.0, 50.0, 0.0, Some(50.0)), Control(50.0, 100.0, 100.0, Some(50.0)),
    Some(0.0), Some(100.0), Absent)

  function Max(a: real, b: real): (m: real)
    ensures a <= m && b <= m && (m == a || m == b)
  {
    if a < b then b else a
  }

  function Min(a: real, b: real): (m: real)
    ensures m <= a && m <= b && (m == a || m == b)
  {
    if a > b then b else a
  }

  predicate InRange(x: real, min: real, max: real) { min <= x <= max }

  /** The two inputs meet at the midpoint and together span the range. */
  predicate Wired(st: State) {
    && st.lower.min == st.range.lower
    && st.upper.max == st.range.upper
    && st.lower.max == st.midPoint
    && st.upper.min == st.midPoint
  }

  /**
   * The widths and fills are drawn for the stored range, midpoint and pair:
   * each width is its input's share of the range and each fill is its value's
   * share of its own input, in percent.
   */
  predicate Drawn(st: State) {
    var r0, r1, mid := st.range.lower, st.range.upper, st.midPoint;
    && st.lower.width == Width(mid - r0, r1 - r0)
    && st.upper.width == Width(r1 - mid, r1 - r0)
    && st.fill0 == Percent(st.values.lower - r0, mid - r0)
    && st.fill1 == Percent(st.values.upper - mid, r1 - mid)
  }

  /** The midpoint is the solver's answer for the range and the pair under `step`. */
  predicate Solved(st: State, step: Option<real>) {
    && (step.Some? ==> step.value != 0.0)
    && st.midPoint == FindMidpoint(st.range.lower, st.values.lower, st.values.upper, step, false)
  }

  /** The inputs show the stored pair. */
  predicate Synced(st: State) {
    st.lower.value == st.values.lower && st.upper.value == st.values.upper
  }

  /**
   * The `step` getter: "any" is no step; a missing, unparsable or zero step
   * falls back to 1; any other parsed number, negative ones included, is the step.
   */
  function StepOf(a: StepAttr): (r: Option<real>)
    ensures r.None? <==> a == AnyStep
    ensures r.Some? ==> r.value != 0.0
    ensures a.Parsed? && a.value != 0.0 ==> r == Some(a.value)
    ensures a != AnyStep && !(a.Parsed? && a.value != 0.0) ==> r == Some(1.0)
  {
    match a
    case AnyStep => None
    case Parsed(v) => if v == 0.0 then Some(1.0) else Some(v)
    case _ => Some(1.0)
  }

  /**
   * The `step` setter: `None` (undefined) stores "any", a finite positive step
   * is stored, anything else throws and changes nothing.
   */
  function SetStep(st: State, step: Option<Number>): (r: Result<State, Error>)
    ensures r.Failure? <==> step.Some? && !(step.value.Finite? && step.value.value > 0.0)
    ensures r.Failure? ==> r.error == InvalidStep
    ensures r.Success? ==> r.value == st.(step := r.value.step)
    ensures r.Success? ==> StepOf(r.value.step) == (if step.None? then None else Some(step.value.value))
    ensures r.Success? ==> r.value.step == (if step.None? then AnyStep else Parsed(step.value.value))
  {
    match step
    case None => Success(st.(step := AnyStep))
    case Some(Finite(s)) => if s > 0.0 then Success(st.(step := Parsed(s))) else Failure(InvalidStep)
    case Some(NonFinite) => Failure(InvalidStep)
  }

  /** `num / den * 100 || 0`: 0/0 is NaN and falls back to 0, x/0 otherwise is infinite. */
  function Width(num: real, den: real): (w: Option<real>)
    ensures den != 0.0 ==> w.Some? && w.value * den == num * 100.0
    ensures den == 0.0 ==> (w == Some(0.0) <==> num == 0.0) && (w.None? <==> num != 0.0)
  {
    if den != 0.0 then ShareScales(num, den); Some(num / den * 100.0)
    else if num == 0.0 then Some(0.0)
    else None
  }

  /** `num / den * 100`, `None` when it is not finite. */
  function Percent(num: real, den: real): (p: Option<real>)
    ensures den != 0.0 ==> p.Some? && p.value * den == num * 100.0
    ensures den == 0.0 ==> p.None?
  {
    if den == 0.0 then None else ShareScales(num, den); Some(num / den * 100.0)
  }

  /** Two shares of a non-zero whole add up to 100 percent. */
  lemma SharesAddUp(a: real, b: real, d: real)
    requires d != 0.0 && a + b == d
    ensures a / d * 100.0 + b / d * 100.0 == 100.0
  {
    assert a / d + b / d == (a + b) / d;
  }

  /** A share times its whole gives back the part, in percent. */
  lemma ShareScales(a: real, d: real)
    requires d != 0.0
    ensures (a / d * 100.0) * d == a * 100.0
  {
    assert a / d * d == a;
  }

  /**
   * Stores the pair and the midpoint, moves the lower input's max and the upper
   * input's min to the midpoint, and derives the widths and fill positions: the
   * lower input's width is the midpoint's share of the range, the upper input's
   * the rest, and each fill is its value's share of its own input, in percent.
   * A 0/0 width falls back to 0; any other division by zero is not finite (`None`).
   */
  function SetMidpoint(st: State, mid: real, v0: real, v1: real): (r: State)
    ensures r.values == Pair(v0, v1) && r.midPoint == mid
    ensures r.lower.max == mid && r.upper.min == mid
    ensures r.range == st.range && r.step == st.step
    ensures r.lower.min == st.lower.min && r.upper.max == st.upper.max
    ensures r.lower.value == st.lower.value && r.upper.value == st.upper.value
    ensures st.range.lower != st.range.upper ==>
      && r.lower.width.Some? && r.upper.width.Some?
      && r.lower.width.value + r.upper.width.value == 100.0
    ensures st.range.lower != st.range.upper ==>
      r.lower.width.Some? && r.lower.width.value * (st.range.upper - st.range.lower) == (mid - st.range.lower) * 100.0
    ensures st.range.lower != st.range.upper ==>
      r.upper.width.Some? && r.upper.width.value * (st.range.upper - st.range.lower) == (st.range.upper - mid) * 100.0
    ensures st.range.lower == st.range.upper && mid == st.range.lower ==> r.lower.width == Some(0.0) && r.upper.width == Some(0.0)
    ensures st.range.lower == st.range.upper && mid != st.range.lower ==> r.lower.width.None? && r.upper.width.None?
    ensures mid != st.range.lower ==> r.fill0.Some? && r.fill0.value * (mid - st.range.lower) == (v0 - st.range.lower) * 100.0
    ensures mid == st.range.lower ==> r.fill0.None?
    ensures mid != st.range.upper ==> r.fill1.Some? && r.fill1.value * (st.range.upper - mid) == (v1 - mid) * 100.0
    ensures mid == st.range.upper ==> r.fill1.None?
    ensures Drawn(r)
  {
    var r0, r1 := st.range.lower, st.range.upper;
    if r0 != r1 then SharesAddUp(mid - r0, r1 - mid, r1 - r0); MidpointFields(st, mid, v0, v1)
    else MidpointFields(st, mid, v0, v1)
  }

  function MidpointFields(st: State, mid: real, v0: real, v1: real): (r: State)
    ensures r.midPoint == mid && r.values == Pair(v0, v1) && r.range == st.range
  {
    var r0 := st.range.lower;
    var r1 := st.range.upper;
    st.(midPoint := mid, values := Pair(v0, v1),
        lower := st.lower.(max := mid, width := Width(mid - r0, r1 - r0)),
        upper := st.upper.(min := mid, width := Width(r1 - mid, r1 - r0)),
        fill0 := Percent(v0 - r0, mid - r0),
        fill1 := Percent(v1 - mid, r1 - mid))
  }

  /**
   * Solves the midpoint for (v0, v1) from the range's min and the current step,
   * stores it with the pair, and writes the values to the inputs asked for.
   */
  function AdaptRange(st: State, v0: real, v1: real, setLower: bool, setUpper: bool): (r: State)
    ensures r.values == Pair(v0, v1) && Solved(r, StepOf(st.step))
    ensures r.range == st.range && r.step == st.step
    ensures r.lower.min == st.lower.min && r.upper.max == st.upper.max
    ensures r.lower.max == r.midPoint == r.upper.min
    ensures r.lower.value == (if setLower then v0 else st.lower.value)
    ensures r.upper.value == (if setUpper then v1 else st.upper.value)
    ensures Drawn(r)
  {
    var mid := FindMidpoint(st.range.lower, v0, v1, StepOf(st.step), false);
    var m := SetMidpoint(st, mid, v0, v1);
    m.(lower := if setLower then m.lower.(value := v0) else m.lower,
       upper := if setUpper then m.upper.(value := v1) else m.upper)
  }

  /**
   * `setValues(lower, upper)`: throws on a non-finite bound or lower > upper;
   * otherwise raises lower to the range's min, lowers upper to its max, and
   * solves the midpoint.
   */
  function SetValues(st: State, lower: Number, upper: Number): (r: Result<State, Error>)
    ensures r.Failure? <==> lower.NonFinite? || upper.NonFinite? || lower.value > upper.value
    ensures r.Failure? && (lower.NonFinite? || upper.NonFinite?) ==> r.error == InvalidNumbers
    ensures r.Failure? && lower.Finite? && upper.Finite? ==> r.error == LowerAboveUpper
    ensures r.Success? ==>
      && r.value.values == Pair(Max(lower.value, st.range.lower), Min(upper.value, st.range.upper))
      && r.value.range == st.range && r.value.step == st.step
      && Synced(r.value) && Solved(r.value, StepOf(st.step))
      && (Wired(st) ==> Wired(r.value)) && Drawn(r.value)
  {
    if lower.NonFinite? || upper.NonFinite? then Failure(InvalidNumbers)
    else if lower.value > upper.value then Failure(LowerAboveUpper)
    else
      var lo := if lower.value < st.range.lower then st.range.lower else lower.value;
      var hi := if upper.value > st.range.upper then st.range.upper else upper.value;
      Success(AdaptRange(st, lo, hi, true, true))
  }

  /**
   * Moves the range to [min, max]: a value inside it is kept, a lower value
   * outside it goes to min and an upper value outside it goes to max.
   */
  function ApplyRange(st: State, min: real, max: real): (r: State)
    ensures r.range == Pair(min, max) && r.step == st.step
    ensures InRange(st.values.lower, min, max) ==> r.values.lower == st.values.lower
    ensures !InRange(st.values.lower, min, max) ==> r.values.lower == min
    ensures InRange(st.values.upper, min, max) ==> r.values.upper == st.values.upper
    ensures !InRange(st.values.upper, min, max) ==> r.values.upper == max
    ensures min <= max ==> InRange(r.values.lower, min, max) && InRange(r.values.upper, min, max)
    ensures Wired(r) && Synced(r) && Solved(r, StepOf(st.step)) && Drawn(r)
  {
    var cur := st.values;
    var lo := if InRange(cur.lower, min, max) then cur.lower else min;
    var hi := if InRange(cur.upper, min, max) then cur.upper else max;
    var ranged := st.(range := Pair(min, max), lower := st.lower.(min := min), upper := st.upper.(max := max));
    AdaptRange(ranged, lo, hi, true, true)
  }

  /** A `selectedValues` argument that passes the checks: two finite values inside [min, max], in either order. */
  predicate ValidSelection(v: seq<Number>, min: real, max: real) {
    && |v| == 2
    && v[0].Finite? && v[1].Finite?
    && InRange(v[0].value, min, max) && InRange(v[1].value, min, max)
  }

  /**
   * The internal range setter: checks `selectedValues` when given (length,
   * finiteness, inside [min, max]; not the order), stores it, then applies the range.
   */
  function SetRangeInternal(st: State, min: real, max: real, selected: Option<seq<Number>>): (r: Result<State, Error>)
    ensures r.Failure? <==> selected.Some? && !ValidSelection(selected.value, min, max)
    ensures r.Failure? && |selected.value| != 2 ==> r.error == WrongLength
    ensures r.Failure? && |selected.value| == 2 && (selected.value[0].NonFinite? || selected.value[1].NonFinite?) ==>
      r.error == InvalidNumber
    ensures r.Failure? && |selected.value| == 2 && selected.value[0].Finite? && selected.value[1].Finite? ==>
      r.error == NotInRange
    ensures r.Success? && selected.Some? ==>
      r.value.values == Pair(selected.value[0].value, selected.value[1].value)
    ensures r.Success? && selected.None? ==> r.value == ApplyRange(st, min, max)
    ensures r.Success? ==>
      && r.value.range == Pair(min, max) && r.value.step == st.step
      && Wired(r.value) && Synced(r.value) && Solved(r.value, StepOf(st.step)) && Drawn(r.value)
  {
    match selected
    case None => Success(ApplyRange(st, min, max))
    case Some(v) =>
      if |v| != 2 then Failure(WrongLength)
      else if v[0].NonFinite? || v[1].NonFinite? then Failure(InvalidNumber)
      else if !InRange(v[0].value, min, max) || !InRange(v[1].value, min, max) then Failure(NotInRange)
      else Success(ApplyRange(st.(values := Pair(v[0].value, v[1].value)), min, max))
  }

  /** The state a call leaves behind: the new state, or the one before with the error. */
  function Settle(before: State, r: Result<State, Error>): (o: Outcome)
    ensures r.Success? ==> o == Outcome(r.value, None)
    ensures r.Failure? ==> o == Outcome(before, Some(r.error))
  {
    match r
    case Success(s) => Outcome(s, None)
    case Failure(e) => Outcome(before, Some(e))
  }

  /**
   * `setRange(min, max, {selectedValues, step})`: a given step is set first, so
   * it stays set when the range checks that follow throw; min <= max is not checked.
   */
  function SetRange(st: State, min: real, max: real, selected: Option<seq<Number>>, step: Option<Number>): (r: Outcome)
    ensures step.Some? && SetStep(st, step).Failure? ==> r == Outcome(st, Some(InvalidStep))
    ensures step.None? ==> r == Settle(st, SetRangeInternal(st, min, max, selected))
    ensures r.thrown.None? <==>
      && (step.None? || SetStep(st, step).Success?)
      && (selected.None? || ValidSelection(selected.value, min, max))
    ensures step.Some? && SetStep(st, step).Success? && r.thrown.Some? ==>
      r.state == st.(step := Parsed(step.value.value))
    ensures step.Some? && SetStep(st, step).Success? ==>
      r == Settle(SetStep(st, step).value, SetRangeInternal(SetStep(st, step).value, min, max, selected))
    ensures r.thrown.None? ==>
      && r.state.range == Pair(min, max) && Wired(r.state) && Synced(r.state)
      && Solved(r.state, StepOf(r.state.step)) && Drawn(r.state)
    ensures r.thrown.None? && step.Some? ==> r.state.step == Parsed(step.value.value)
    ensures r.thrown.None? && step.None? ==> r.state.step == st.step
    ensures r.thrown.None? && selected.Some? && |selected.value| == 2 ==>
      r.state.values == Pair(selected.value[0].value, selected.value[1].value)
    ensures r.thrown.None? && selected.None? && InRange(st.values.lower, min, max) ==> r.state.values.lower == st.values.lower
    ensures r.thrown.None? && selected.None? && !InRange(st.values.lower, min, max) ==> r.state.values.lower == min
    ensures r.thrown.None? && selected.None? && InRange(st.values.upper, min, max) ==> r.state.values.upper == st.values.upper
    ensures r.thrown.None? && selected.None? && !InRange(st.values.upper, min, max) ==> r.state.values.upper == max
  {
    if step.Some? then
      match SetStep(st, step)
      case Failure(e) => Outcome(st, Some(e))
      case Success(stepped) => Settle(stepped, SetRangeInternal(stepped, min, max, selected))
    else Settle(st, SetRangeInternal(st, min, max, selected))
  }

  /**
   * The `min`/`max` branch of the attribute callback: the range is applied only
   * when both host attributes parse to finite numbers with min <= max.
   */
  function RangeAttributeChanged(st: State, minAttr: Number, maxAttr: Number): (r: State)
    ensures minAttr.Finite? && maxAttr.Finite? && minAttr.value <= maxAttr.value ==>
      && r == ApplyRange(st, minAttr.value, maxAttr.value)
      && r.range == Pair(minAttr.value, maxAttr.value)
      && InRange(r.values.lower, r.range.lower, r.range.upper)
      && InRange(r.values.upper, r.range.lower, r.range.upper)
    ensures !(minAttr.Finite? && maxAttr.Finite? && minAttr.value <= maxAttr.value) ==> r == st
    ensures st.range.lower <= st.range.upper ==> r.range.lower <= r.range.upper
    ensures Drawn(st) ==> Drawn(r)
  {
    if minAttr.Finite? && maxAttr.Finite? && minAttr.value <= maxAttr.value then
      ApplyRange(st, minAttr.value, maxAttr.value)
    else st
  }

  /** The browser moves one native thumb to `v`; nothing else changes. */
  function Drag(st: State, thumb: Thumb, v: real): (r: State)
    ensures r.values == st.values && r.range == st.range && r.midPoint == st.midPoint
    ensures thumb == LowerThumb ==> r.lower.value == v && r.upper == st.upper
    ensures thumb == UpperThumb ==> r.upper.value == v && r.lower == st.lower
  {
    match thumb
    case LowerThumb => st.(lower := st.lower.(value := v))
    case UpperThumb => st.(upper := st.upper.(value := v))
  }

  /**
   * The `input`/`change` handler: when the inputs show the stored pair nothing
   * changes; otherwise the midpoint is solved from the lower input's min and
   * stored with the inputs' pair. Either way the event is dispatched with the
   * inputs' pair.
   */
  function Changed(st: State, kind: EventKind): (r: (State, Event))
    ensures r.1 == Event(kind, Pair(st.lower.value, st.upper.value))
    ensures r.0.values == Pair(st.lower.value, st.upper.value) && Synced(r.0)
    ensures Synced(st) ==> r.0 == st
    ensures r.0.range == st.range && r.0.step == st.step
    ensures Wired(st) ==> Wired(r.0)
    ensures !Synced(st) && st.lower.min == st.range.lower ==> Solved(r.0, StepOf(st.step))
    ensures !Synced(st) ==> Drawn(r.0)
    ensures Drawn(st) ==> Drawn(r.0)
  {
    var v0 := st.lower.value;
    var v1 := st.upper.value;
    if v0 == st.values.lower && v1 == st.values.upper then (st, Event(kind, st.values))
    else
      var center := FindMidpoint(st.lower.min, v0, v1, StepOf(st.step), false);
      var next := SetMidpoint(st, center, v0, v1);
      (next, Event(kind, next.values))
  }
}
