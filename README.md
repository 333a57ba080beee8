# Double range slider: a verified model of its numeric core

`DoubleRangeSlider` is a web component with two thumbs over one interval
`[min, max]`. Internally it is two native single-thumb range inputs placed side
by side. They meet at a *midpoint*. The lower input runs over `[min, midPoint]`
and the upper input over `[midPoint, max]`. The component keeps the range, the
selected pair and the midpoint in private fields. It solves the midpoint again
whenever the pair or the range changes, and it shows tooltips while a thumb is
dragged or hovered.

This project models that core in Dafny and proves properties of it:

- `midpoint.dfy` (module `Midpoint`): the midpoint solver `FindMidpoint`, as
  pure functions, and lemmas about it. Without a step the midpoint is the
  average. With a step it lies on the lattice `min + k·step`, between
  `floor((x0-min)/step)` and `ceil((x1-min)/step)`, and less than one step
  outside `[x0, x1]`. For lattice values it lies inside `[x0, x1]`. The
  "prefer upper" tie-break moves it one step up exactly when the distance is odd.
- `slider_state.dfy` (module `SliderState`): the element's numeric state as a
  value. It holds the range, the pair, the midpoint, both inputs' `min`, `max`,
  `value` and width, the two fill positions, and the step attribute. Each
  operation is written as a function from the state before to the state after,
  with a `Result` or `Outcome` for the paths that throw.
- `slider_properties.dfy` (module `SliderProperties`): properties that relate
  several calls or hold in every state the operations reach:
  - repeating `setValues` gives the same state;
  - a *healthy* state stays healthy under a thumb drag or a `setValues`. In a
    healthy state each input can show its own value, and the widths and fills
    are drawn for the stored pair and lie between 0 and 100 percent;
  - lemmas that make visible where the code does less than one might expect.
- `tooltip_flags.dfy` (module `TooltipFlags`): the state machine over
  `#interactionActive` and `#hoverActive`, with "a formatter is set" and
  "disabled" as booleans. It is proved that the two tooltips never show at once
  after any sequence of pointer, attribute and formatter events.
- `element.dfy` (module `Element`): the element as a class with the same fields
  and two `RangeInput` objects. Each method updates the fields in place. Its
  postcondition ties the new state to the matching function of `SliderState`
  or `TooltipFlags`. The public operations and the event handlers keep the
  invariant `Valid()`: the inputs meet at the midpoint, the midpoint is solved,
  the widths and fills are drawn for it, and the tooltip flags are consistent. `GetValues` only reads the pair. `InteractionEnd`,
  `HoverEnd` and `DisableTooltip` are also called from inside other methods
  while the fields are mid-update, so their contracts state only their effect
  on the tooltip flags.

Numbers are `real`. A number passed to the public API is a `Number`, either
`Finite(value)` or `NonFinite`, so the checks that reject NaN and infinities
stay in the model. `Math.floor` is `.Floor`, and `Math.ceil` is written through it.

Where the code does less than one might expect, the model follows the code:

- A value that falls outside a new range goes to the bound on its own side, not
  to the nearest bound (`SliderProperties.ClampBySide`).
- `setValues` only raises `lower` and only lowers `upper`, so a `lower` above
  the range's max is kept (`SliderProperties.SetValuesLowerAboveMaxKept`).
- `selectedValues` is not checked for order
  (`SliderProperties.SelectionOrderUnchecked`).
- `setRange` does not check `min <= max`, and a step passed to it stays set
  when the range checks throw (`SliderProperties.SetRangeStepSticks`).
- A step attribute of zero, or a missing or unparsable one, reads as step 1.
  A negative one reads as that negative number.
- Setting `disabled` ends a drag tooltip but leaves a hover tooltip showing.
- Values that are not on the step lattice can put the midpoint outside the pair
  (`Midpoint.OffLatticeMidpointBelowLower`).

## Model

| member | source | states |
|---|---|---|
| `Midpoint.Floor` | src/double-range-slider.ts:360 | `Math.floor` gives the integer f with f <= x < f + 1 |
| `Midpoint.Ceil` | src/double-range-slider.ts:361 | `Math.ceil` gives the integer c with x <= c < x + 1 |
| `Midpoint.MidpointIndex` | src/double-range-slider.ts:360-365 | the number of steps above min: twice it is floor((x0-min)/step) + ceil((x1-min)/step) on an even distance, one less on an odd one, or one more when the upper neighbour is preferred |
| `Midpoint.FindMidpoint` | src/double-range-slider.ts:357-366 | without a step the midpoint is equally far from both values; with a non-zero step it is on the lattice min + k·step |
| `Midpoint.AverageWithoutStep` | src/double-range-slider.ts:358-359 | with no step the midpoint is (x0+x1)/2; it lies in [x0, x1] when x0 <= x1 and is equally far from both |
| `Midpoint.IndexBetween` | src/double-range-slider.ts:360-365 | for step > 0 and x0 <= x1 the step index k satisfies floor((x0-min)/step) <= k <= ceil((x1-min)/step), in both parity branches and with either tie-break |
| `Midpoint.MidpointOnLattice` | src/double-range-slider.ts:357-366 | with a positive step the midpoint is min + k·step for that k, with floor((x0-min)/step) <= k <= ceil((x1-min)/step), so it is on the lattice |
| `Midpoint.MidpointWithinOneStep` | src/double-range-slider.ts:357-366 | with a positive step the midpoint is strictly less than one step outside [x0, x1] |
| `Midpoint.LatticePoint` | src/double-range-slider.ts:364-365 | min + k·step is on the lattice, exactly k steps above min |
| `Midpoint.LatticeIndex` | src/double-range-slider.ts:360-361 | for a lattice value, floor and ceil of its step count agree, and the value is min plus that many steps |
| `Midpoint.MidpointBetweenLatticeValues` | src/double-range-slider.ts:357-366 | for x0 <= x1 both on the lattice, the midpoint is on the lattice and inside [x0, x1] |
| `Midpoint.PreferUpperTieBreak` | src/double-range-slider.ts:363-365 | on an even distance the tie-break changes nothing; on an odd one the preferUpper midpoint is exactly one step above the default |
| `Midpoint.InitialMidpoint` | src/double-range-slider.ts:8-10 | range [0, 100], pair (0, 100) and the default step 1 give midpoint 50, the initial field value |
| `Midpoint.DragScenario` | src/double-range-slider.ts:360-364 | pair (30, 100) over [0, 100] with step 1 gives midpoint 65 |
| `Midpoint.OffLatticeMidpointBelowLower` | src/double-range-slider.ts:360-365 | pair (12, 13) with step 10 gives midpoint 10, below the lower value |
| `SliderState.StepOf` | src/double-range-slider.ts:399-404 | the step getter: "any" is no step; a missing, unparsable or zero attribute gives 1; any other number is returned as is; the result is never 0 |
| `SliderState.SetStep` | src/double-range-slider.ts:390-397 | the step setter: undefined stores "any" and a finite positive step is stored as parsed and read back unchanged; anything else throws InvalidStep and changes nothing; only the step attribute changes |
| `SliderState.SetMidpoint` | src/double-range-slider.ts:330-346 | the pair and the midpoint are stored; the lower input's max and the upper input's min equal the midpoint; range, step, the inputs' outer bounds and values are untouched; for a non-empty range the lower input's width is the midpoint's share of the range and the upper input's the rest, both finite and adding up to 100; over an empty range both widths are 0 when the midpoint is min and not finite otherwise; each fill is its value's share of its own input, and not finite when that input is empty |
| `SliderState.Width` | src/double-range-slider.ts:336-338 | an input's width in percent: for a non-zero range it is the share (width · range == part · 100); over an empty range it is 0 when the part is 0 (the fallback for a NaN share) and not finite otherwise |
| `SliderState.Percent` | src/double-range-slider.ts:341-342 | a fill position in percent: for a non-zero input it is the share (fill · span == part · 100); over an empty input it is not finite |
| `SliderState.AdaptRange` | src/double-range-slider.ts:348-355 | the pair is stored, and the midpoint is the solver's answer for the range's min and the current step; the inputs meet at it; the values are written to the inputs asked for; the widths and fills are redrawn for the new pair and midpoint |
| `SliderState.SetValues` | src/double-range-slider.ts:423-434 | throws exactly on a non-finite bound (InvalidNumbers) or lower > upper (LowerAboveUpper); otherwise stores (max(lower, min), min(upper, max)), writes it to both inputs, solves the midpoint and redraws the widths and fills; range and step are unchanged |
| `SliderState.ApplyRange` | src/double-range-slider.ts:320-327 | the range becomes (min, max); a value inside it is kept; an outside lower value becomes min and an outside upper value becomes max; for min <= max both end inside; the inputs are rewired, synced and solved, and the widths and fills redrawn |
| `SliderState.SetRangeInternal` | src/double-range-slider.ts:309-328 | throws exactly when a given selection is not two finite values inside [min, max] (order not checked), with WrongLength for a wrong length, then InvalidNumber for a non-finite value, then NotInRange; otherwise the selection (or the clamped old pair) is stored under the new range, with the widths and fills redrawn |
| `SliderState.SetRange` | src/double-range-slider.ts:417-421 | an invalid step throws first and changes nothing; a valid step stays set when the range checks throw; otherwise the range setter runs on the stepped state; it succeeds exactly when the step and the selection are valid, and then the range is (min, max), the step is the given one (or the old one), the pair is the selection (or the old pair clamped side by side), the inputs are wired and synced and the midpoint is the solver's for that step |
| `SliderState.RangeAttributeChanged` | src/double-range-slider.ts:285-292 | the range changes only when both attributes are finite with min <= max, and then the pair ends inside it; otherwise the state is unchanged; an ordered range stays ordered |
| `SliderState.Changed` | src/double-range-slider.ts:139-165 | the event always carries the inputs' pair; when the inputs show the stored pair nothing changes; otherwise the pair is stored, and in a state whose lower input starts at the range's min the midpoint is the solver's for that pair; the widths and fills are redrawn on a change and stay drawn otherwise |
| `SliderProperties.HealthyThumbsFit` | src/double-range-slider.ts:330-334 | in a healthy state the midpoint is on the lattice between the pair, so each input's value lies within its own [min, max] |
| `SliderProperties.SharesWithinBounds` | src/double-range-slider.ts:336-345 | over a non-empty range with min <= v0 <= mid <= v1 <= max, both widths are between 0 and 100 percent, and so is each fill whose input is not empty |
| `SliderProperties.HealthySharesWithinBounds` | src/double-range-slider.ts:336-345 | in a healthy state with min < mid < max, the state's own widths and fills are all between 0 and 100 percent |
| `SliderProperties.InitialHealthy` | src/double-range-slider.ts:108-118 | the initial state is healthy under its default step 1 |
| `SliderProperties.DragKeepsHealthy` | src/double-range-slider.ts:139-151 | dragging either thumb to a lattice value its input allows, then handling the event, keeps the state healthy |
| `SliderProperties.SetValuesKeepsHealthy` | src/double-range-slider.ts:423-434 | setting ordered lattice values inside the range succeeds and leaves a healthy state |
| `SliderProperties.SetValuesIdempotent` | src/double-range-slider.ts:423-434 | repeating a successful setValues call leaves the same state |
| `SliderProperties.SetValuesRejectsInverted` | src/double-range-slider.ts:424-427 | setValues(5, 2) throws LowerAboveUpper; a non-finite bound throws InvalidNumbers |
| `SliderProperties.SetValuesLowerAboveMaxKept` | src/double-range-slider.ts:428-432 | over an ordered range, a lower value above max is kept while upper is lowered to max, so the stored pair is inverted |
| `SliderProperties.ClampBySide` | src/double-range-slider.ts:321-322 | pair (20, 30) under new range [50, 100] becomes (50, 100): each value goes to the bound of its own side |
| `SliderProperties.SelectionOrderUnchecked` | src/double-range-slider.ts:310-318 | selection (80, 20) over [0, 100] is accepted and stored as given |
| `SliderProperties.SelectionRejectedKeepsState` | src/double-range-slider.ts:310-317 | a rejected selection throws and leaves the state as it was |
| `SliderProperties.SetRangeStepSticks` | src/double-range-slider.ts:417-421 | setRange with step 5 and an out-of-range selection throws NotInRange but leaves step 5 set |
| `SliderProperties.DragScenarioState` | src/double-range-slider.ts:139-165 | from the initial state, dragging the lower thumb to 30 gives midpoint 65 and dispatches (30, 100) |
| `SliderProperties.ContinuousScenario` | src/double-range-slider.ts:358-359 | with step "any" over [0, 100], setValues(20, 80) puts the midpoint at 50 |
| `TooltipFlags.InteractionStart` | src/double-range-slider.ts:201-217 | ignored when disabled; otherwise the drag tooltip shows if a formatter is set, and hover ends; the invariant is kept |
| `TooltipFlags.InteractionEnd` | src/double-range-slider.ts:231-234 | the drag flag is cleared and nothing else changes; the invariant is kept |
| `TooltipFlags.HoverStart` | src/double-range-slider.ts:236-247 | no change during a drag, when disabled or without a formatter; otherwise the hover flag is set; the invariant is kept |
| `TooltipFlags.HoverEnd` | src/double-range-slider.ts:270-274 | the hover flag is cleared and nothing else changes; the invariant is kept |
| `TooltipFlags.DisableTooltip` | src/double-range-slider.ts:190-199 | both flags are cleared |
| `TooltipFlags.DisabledChanged` | src/double-range-slider.ts:295-304 | setting disabled ends a drag but leaves the hover flag; removing it changes no flag; the invariant is kept |
| `TooltipFlags.FormatterChanged` | src/double-range-slider.ts:440-452 | removing the formatter clears both flags; setting one changes no flag; the invariant is kept |
| `TooltipFlags.Step` | src/double-range-slider.ts:201-274 | one pointer, disabled or formatter event keeps the tooltip invariant; only a formatter event changes the formatter and only a disabled event the disabled flag |
| `TooltipFlags.Run` | src/double-range-slider.ts:201-274 | the flags after a sequence of events: no events change nothing, and a sequence without formatter (or disabled) events leaves the formatter (or disabled) flag as it was |
| `TooltipFlags.RunKeepsInv` | src/double-range-slider.ts:201-274 | every sequence of pointer, disabled and formatter events keeps the invariant: the flags are never both set, neither is set without a formatter, and no drag flag is set while disabled |
| `TooltipFlags.ReachableFromIdle` | src/double-range-slider.ts:49-52 | every state reachable from the initial flags satisfies the invariant |
| `Element.RangeInput.constructor` | src/double-range-slider.ts:106-118 | a native input starts with the given min, max and value, width 50% and no step attribute |
| `Element.DoubleRangeSlider.constructor` | src/double-range-slider.ts:8-10 | the element starts in the initial state with fresh inputs, no tooltip flags, and its invariant holds |
| `Element.DoubleRangeSlider.Step` | src/double-range-slider.ts:399-404 | the step getter reads the lower input's attribute: "any" gives no step; a non-zero number is returned as it is; a missing, unparsable or zero attribute gives 1 |
| `Element.DoubleRangeSlider.GetValues` | src/double-range-slider.ts:368-370 | returns the stored pair |
| `Element.DoubleRangeSlider.SetMidpoint` | src/double-range-slider.ts:330-346 | updates the fields and both inputs as `SliderState.SetMidpoint` says |
| `Element.DoubleRangeSlider.AdaptRange` | src/double-range-slider.ts:348-355 | updates the fields and both inputs as `SliderState.AdaptRange` says, and records the step the midpoint was solved under |
| `Element.DoubleRangeSlider.SetValues` | src/double-range-slider.ts:423-434 | does what `SliderState.SetValues` says, leaves the element unchanged when it throws, and keeps the invariant |
| `Element.DoubleRangeSlider.SetRangeInternal` | src/double-range-slider.ts:309-328 | does what `SliderState.SetRangeInternal` says, leaves the element unchanged when it throws, and keeps the invariant |
| `Element.DoubleRangeSlider.SetStep` | src/double-range-slider.ts:390-397 | writes the step attribute of both inputs as `SliderState.SetStep` says |
| `Element.DoubleRangeSlider.SetRange` | src/double-range-slider.ts:417-421 | does what `SliderState.SetRange` says, including the step that stays set when the range checks throw |
| `Element.DoubleRangeSlider.AttributeChanged` | src/double-range-slider.ts:281-307 | min/max as `SliderState.RangeAttributeChanged`; a step attribute is copied to the inputs without solving the midpoint again; disabled as `TooltipFlags.DisabledChanged` |
| `Element.DoubleRangeSlider.Changed` | src/double-range-slider.ts:139-165 | does what `SliderState.Changed` says and returns the dispatched event |
| `Element.DoubleRangeSlider.InteractionStart` | src/double-range-slider.ts:201-217 | flags as `TooltipFlags.InteractionStart`; the numeric state is unchanged |
| `Element.DoubleRangeSlider.InteractionEnd` | src/double-range-slider.ts:231-234 | flags as `TooltipFlags.InteractionEnd` |
| `Element.DoubleRangeSlider.HoverStart` | src/double-range-slider.ts:236-247 | flags as `TooltipFlags.HoverStart`; the numeric state is unchanged |
| `Element.DoubleRangeSlider.HoverEnd` | src/double-range-slider.ts:270-274 | flags as `TooltipFlags.HoverEnd` |
| `Element.DoubleRangeSlider.DisableTooltip` | src/double-range-slider.ts:190-199 | flags as `TooltipFlags.DisableTooltip` |
| `Element.DoubleRangeSlider.SetTooltipFormatter` | src/double-range-slider.ts:440-452 | flags as `TooltipFlags.FormatterChanged`; the numeric state is unchanged |

## Left out

- Shadow DOM construction, the inline stylesheet and `createElement` (src/double-range-slider.ts:54-105, 456-491; src/utils.ts) are host scaffolding with no logic to verify. Registration (`register`, `tag`) only wraps `customElements.define`.
- The widths and the `--dri-position-0`/`--dri-position-1` fill positions are kept as their percentages (`fill0`, `fill1`). Only the CSS text around them is not modelled (`calc(… + var(--dri-thumb-width))` and the `%` suffix, lines 339-345). A non-finite percentage, which CSS would reject, is `None`.
- Tooltip content and placement are not modelled: `#setTooltipContent`, `#setTooltipPosition`, the geometry in `#hoverMove`, and the tooltip refresh inside `changed` (lines 152-162). Only the two flags are modelled.
- Adding and removing event listeners (`#enableTooltip`, the listener parts of `#disableTooltip` and `#hoverStart`) is not modelled. The tooltip handlers can be called at any time, which covers every order the listeners allow. The `hoverActive` and `clickActive` options only choose which listeners are attached.
- `dispatchEvent` is not modelled. The dispatched event is returned as an `Event` value.
- Element.DoubleRangeSlider.Changed: the guard that skips a non-finite midpoint (line 150) is not modelled. With real numbers the solver's result is always finite. In the source the midpoint becomes NaN or infinite in several ways: a step attribute that parses to +-Infinity; an accepted step so small that `(x - min) / step` overflows (for example `1e-320`); and a non-finite bound passed to `setRange` (`setRange(NaN, 100)` or `setRange(-Infinity, 100)`), which line 325 writes into the lower input's `min` and line 149 reads back. The model's step attribute and `setRange` bounds are reals, so none of these can occur.
- IEEE-754 behaviour is not modelled: NaN, infinities, signed zero, rounding, and the `toString`/`parseFloat` round trips through the inputs' attributes. A number at the API is `Finite(real)` or `NonFinite`. `setRange` takes real bounds, so its unchecked non-finite `min`/`max` are not modelled.
- The browser's own sanitising of a native input's value is not modelled: clamping it into `[min, max]` and snapping it to the step. A user's drag is an assignment to the input's `value`. The lemmas that need it assume the dragged value lies inside the input's bounds and on the lattice.
- The `min`/`max` getters (lines 372-378) return the stored range; the model reads `range` directly wherever the code calls them, as in `#adaptRange` (line 349). The `min`/`max` setters (lines 380-388) only write host attributes when given a finite number, and they are not modelled, nor are the `disabled` getter and setter (lines 406-415). The callback receives the parsed `min`/`max` attributes as `Number`s. `disabled` is a boolean, without the string truthiness of `getAttribute`.
- The `list` attribute is only copied to the inputs and is not modelled.
- The type check in `setTooltipFormatter` that throws for a non-function (lines 444-445) and the getter `getTooltipFormatter` are not modelled. A formatter is only "present or absent".
