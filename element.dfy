/**
 * The slider element as an object: its private fields and the two native range
 * inputs it owns, updated in place. Each method is tied to the function of
 * SliderState or TooltipFlags that says what it does to the state.
 */
module Element {
  import opened Wrappers
  import opened Midpoint
  import opened SliderState
  import TooltipFlags

  /** One of the two native single-thumb range inputs the element composes. */
  class RangeInput {
    var min: real
    var max: real
    var value: real
    var width: Option<real>
    var step: StepAttr

    constructor (min: real, max: real, value: real)
      ensures this.min == min && this.max == max && this.value == value
      ensures width == Some(50.0) && step == Absent
    {
      this.min := min;
      this.max := max;
      this.value := value;
      width := Some(50.0);
      step := Absent;
    }

    function View(): Control
      reads this
    {
      Control(min, max, value, width)
    }
  }

  /** A change of one of the observed host attributes, with the values the callback reads. */
  datatype Attribute =
    | MinMax(minAttr: Number, maxAttr: Number)
    | StepAttribute(text: StepAttr)
    | DisabledAttribute(present: bool)

  class DoubleRangeSlider {
    var range: Pair
    var values: Pair
    var midPoint: real
    const lowerInput: RangeInput
    const upperInput: RangeInput
    var fill0: Option<real>
    var fill1: Option<real>
    var formatter: bool
    var disabled: bool
    var interactionActive: bool
    var hoverActive: bool
    /** The step the midpoint was last solved under; changing the step attribute alone does not solve it again. */
    ghost var solvedStep: Option<real>

    ghost function Model(): State
      reads this, lowerInput, upperInput
    {
      State(range, values, midPoint, lowerInput.View(), upperInput.View(), fill0, fill1, lowerInput.step)
    }

    function Flags(): TooltipFlags.Flags
      reads this
    {
      TooltipFlags.Flags(formatter, disabled, interactionActive, hoverActive)
    }

    ghost predicate Valid()
      reads this, lowerInput, upperInput
    {
      && lowerInput != upperInput
      && lowerInput.step == upperInput.step
      && Wired(Model())
      && Solved(Model(), solvedStep)
      && Drawn(Model())
      && TooltipFlags.Inv(Flags())
    }

    /** The `step` getter, read from the lower input's attribute. */
    function Step(): (r: Option<real>)
      reads this, lowerInput
      ensures r.None? <==> lowerInput.step == AnyStep
      ensures r.Some? ==> r.value != 0.0
      ensures lowerInput.step.Parsed? && lowerInput.step.value != 0.0 ==> r == Some(lowerInput.step.value)
      ensures lowerInput.step != AnyStep && !(lowerInput.step.Parsed? && lowerInput.step.value != 0.0) ==> r == Some(1.0)
    {
      StepOf(lowerInput.step)
    }

    constructor ()
      ensures Valid() && fresh(lowerInput) && fresh(upperInput)
      ensures Model() == Initial && Flags() == TooltipFlags.Idle
    {
      range := Pair(0.0, 100.0);
      values := Pair(0.0, 100.0);
      midPoint := 50.0;
      lowerInput := new RangeInput(0.0, 50.0, 0.0);
      upperInput := new RangeInput(50.0, 100.0, 100.0);
      fill0 := Some(0.0);
      fill1 := Some(100.0);
      formatter, disabled, interactionActive, hoverActive := false, false, false, false;
      solvedStep := Some(1.0);
      new;
      InitialMidpoint();
    }

    method GetValues() returns (r: Pair)
      ensures r == values
    {
      r := values;
    }

    /** `#setMidpoint`: stores the pair and the midpoint and rewires the two inputs. */
    method SetMidpoint(mid: real, v0: real, v1: real)
      requires lowerInput != upperInput
      modifies this, lowerInput, upperInput
      ensures Model() == SliderState.SetMidpoint(old(Model()), mid, v0, v1)
      ensures Flags() == old(Flags()) && solvedStep == old(solvedStep)
      ensures upperInput.step == old(upperInput.step)
    {
      midPoint := mid;
      values := Pair(v0, v1);
      lowerInput.max := mid;
      upperInput.min := mid;
      var r0, r1 := range.lower, range.upper;
      lowerInput.width := Width(mid - r0, r1 - r0);
      upperInput.width := Width(r1 - mid, r1 - r0);
      fill0 := Percent(v0 - r0, mid - r0);
      fill1 := Percent(v1 - mid, r1 - mid);
    }

    /** `#adaptRange`: solves the midpoint for (v0, v1) and writes the values asked for. */
    method AdaptRange(v0: real, v1: real, setLower: bool, setUpper: bool)
      requires lowerInput != upperInput && lowerInput.step == upperInput.step
      modifies this, lowerInput, upperInput
      ensures Model() == SliderState.AdaptRange(old(Model()), v0, v1, setLower, setUpper)
      ensures Flags() == old(Flags()) && solvedStep == Step()
      ensures lowerInput.step == upperInput.step
    {
      var mid := FindMidpoint(range.lower, v0, v1, Step(), false);
      SetMidpoint(mid, v0, v1);
      if setLower {
        lowerInput.value := v0;
      }
      if setUpper {
        upperInput.value := v1;
      }
      solvedStep := Step();
    }

    /** `setValues(lower, upper)`; a thrown error leaves the element as it was. */
    method SetValues(lower: Number, upper: Number) returns (thrown: Option<Error>)
      requires Valid()
      modifies this, lowerInput, upperInput
      ensures Valid() && Flags() == old(Flags())
      ensures Outcome(Model(), thrown) == Settle(old(Model()), SliderState.SetValues(old(Model()), lower, upper))
    {
      if lower.NonFinite? || upper.NonFinite? {
        return Some(InvalidNumbers);
      }
      if lower.value > upper.value {
        return Some(LowerAboveUpper);
      }
      var lo, hi := lower.value, upper.value;
      if lo < range.lower {
        lo := range.lower;
      }
      if hi > range.upper {
        hi := range.upper;
      }
      AdaptRange(lo, hi, true, true);
      thrown := None;
    }

    /** `#setRangeInternal`: checks a given selection, then moves the range and clamps the pair into it. */
    method SetRangeInternal(min: real, max: real, selected: Option<seq<Number>>) returns (thrown: Option<Error>)
      requires Valid()
      modifies this, lowerInput, upperInput
      ensures Valid() && Flags() == old(Flags())
      ensures Outcome(Model(), thrown) == Settle(old(Model()), SliderState.SetRangeInternal(old(Model()), min, max, selected))
    {
      if selected.Some? {
        var v := selected.value;
        if |v| != 2 {
          return Some(WrongLength);
        }
        if v[0].NonFinite? || v[1].NonFinite? {
          return Some(InvalidNumber);
        }
        if !InRange(v[0].value, min, max) || !InRange(v[1].value, min, max) {
          return Some(NotInRange);
        }
        values := Pair(v[0].value, v[1].value);
      }
      var cur := values;
      var lo := if InRange(cur.lower, min, max) then cur.lower else min;
      var hi := if InRange(cur.upper, min, max) then cur.upper else max;
      range := Pair(min, max);
      lowerInput.min := min;
      upperInput.max := max;
      AdaptRange(lo, hi, true, true);
      thrown := None;
    }

    /** The `step` setter, on both native inputs. */
    method SetStep(step: Option<Number>) returns (thrown: Option<Error>)
      requires Valid()
      modifies lowerInput, upperInput
      ensures Valid()
      ensures Outcome(Model(), thrown) == Settle(old(Model()), SliderState.SetStep(old(Model()), step))
    {
      match step
      case None =>
        lowerInput.step, upperInput.step := AnyStep, AnyStep;
        thrown := None;
      case Some(Finite(s)) =>
        if s > 0.0 {
          lowerInput.step, upperInput.step := Parsed(s), Parsed(s);
          thrown := None;
        } else {
          thrown := Some(InvalidStep);
        }
      case Some(NonFinite) =>
        thrown := Some(InvalidStep);
    }

    /** `setRange(min, max, {selectedValues, step})`: the step first, then the range. */
    method SetRange(min: real, max: real, selected: Option<seq<Number>>, step: Option<Number>) returns (thrown: Option<Error>)
      requires Valid()
      modifies this, lowerInput, upperInput
      ensures Valid() && Flags() == old(Flags())
      ensures Outcome(Model(), thrown) == SliderState.SetRange(old(Model()), min, max, selected, step)
    {
      if step.Some? {
        thrown := SetStep(step);
        if thrown.Some? {
          return;
        }
      }
      thrown := SetRangeInternal(min, max, selected);
    }

    /** `attributeChangedCallback` for min/max, step and disabled. */
    method AttributeChanged(change: Attribute)
      requires Valid()
      modifies this, lowerInput, upperInput
      ensures Valid()
      ensures change.MinMax? ==>
        Model() == RangeAttributeChanged(old(Model()), change.minAttr, change.maxAttr) && Flags() == old(Flags())
      ensures change.StepAttribute? ==>
        Model() == old(Model()).(step := change.text) && Flags() == old(Flags())
      ensures change.DisabledAttribute? ==>
        Model() == old(Model()) && Flags() == TooltipFlags.DisabledChanged(old(Flags()), change.present)
    {
      match change
      case MinMax(a, b) =>
        if a.Finite? && b.Finite? && a.value <= b.value {
          var _ := SetRangeInternal(a.value, b.value, None);
        }
      case StepAttribute(text) =>
        lowerInput.step, upperInput.step := text, text;
      case DisabledAttribute(present) =>
        disabled := present;
        if present {
          InteractionEnd();
        }
    }

    /**
     * `changed`, the `input`/`change` handler: reads both inputs, solves the
     * midpoint when the pair moved, and returns the event it dispatches.
     */
    method Changed(kind: EventKind) returns (ev: Event)
      requires Valid()
      modifies this, lowerInput, upperInput
      ensures Valid() && Flags() == old(Flags())
      ensures (Model(), ev) == SliderState.Changed(old(Model()), kind)
    {
      var v0, v1 := lowerInput.value, upperInput.value;
      if v0 == values.lower && v1 == values.upper {
        return Event(kind, values);
      }
      var center := FindMidpoint(lowerInput.min, v0, v1, Step(), false);
      SetMidpoint(center, v0, v1);
      solvedStep := Step();
      ev := Event(kind, values);
    }

    /** `#interactionStart` (pointer down). */
    method InteractionStart()
      requires Valid()
      modifies this`interactionActive, this`hoverActive
      ensures Valid() && Model() == old(Model())
      ensures Flags() == TooltipFlags.InteractionStart(old(Flags()))
    {
      if disabled {
        return;
      }
      if formatter {
        interactionActive := true;
      }
      HoverEnd();
    }

    /** `#interactionEnd` (pointer up). */
    method InteractionEnd()
      modifies this`interactionActive
      ensures Flags() == TooltipFlags.InteractionEnd(old(Flags()))
    {
      interactionActive := false;
    }

    /** `#hoverStart` (pointer enters an input). */
    method HoverStart()
      requires Valid()
      modifies this`hoverActive
      ensures Valid() && Model() == old(Model())
      ensures Flags() == TooltipFlags.HoverStart(old(Flags()))
    {
      if interactionActive || disabled {
        return;
      }
      if formatter {
        hoverActive := true;
      }
    }

    /** `#hoverEnd` (pointer leaves an input). */
    method HoverEnd()
      modifies this`hoverActive
      ensures Flags() == TooltipFlags.HoverEnd(old(Flags()))
    {
      hoverActive := false;
    }

    /** `#disableTooltip`: ends hover, then the drag. */
    method DisableTooltip()
      modifies this`interactionActive, this`hoverActive
      ensures Flags() == TooltipFlags.DisableTooltip(old(Flags()))
    {
      HoverEnd();
      InteractionEnd();
    }

    /** `setTooltipFormatter`, with "a formatter is given" as a boolean. */
    method SetTooltipFormatter(present: bool)
      requires Valid()
      modifies this`interactionActive, this`hoverActive, this`formatter
      ensures Valid() && Model() == old(Model())
      ensures Flags() == TooltipFlags.FormatterChanged(old(Flags()), present)
    {
      if !present {
        DisableTooltip();
      }
      formatter := present;
    }
  }
}
