/**
 * The two tooltip flags of the slider: a drag tooltip shown while a thumb is
 * pressed and a hover tooltip shown while the pointer rests on an input.
 * Whether a formatter is set and whether the widget is disabled are booleans.
 */
module TooltipFlags {

  datatype Flags = Flags(formatter: bool, disabled: bool, interactionActive: bool, hoverActive: bool)

  /** No formatter, enabled, no tooltip shown. */
  const Idle: Flags := Flags(false, false, false, false)

  /**
   * The two tooltips never show at once, neither shows without a formatter,
   * and no drag tooltip shows on a disabled widget.
   */
  predicate Inv(f: Flags) {
    && !(f.interactionActive && f.hoverActive)
    && (f.interactionActive ==> f.formatter)
    && (f.hoverActive ==> f.formatter)
    && (f.disabled ==> !f.interactionActive)
  }

  /** Pointer released: the drag tooltip hides. */
  function InteractionEnd(f: Flags): (r: Flags)
    ensures !r.interactionActive
    ensures r.hoverActive == f.hoverActive && r.formatter == f.formatter && r.disabled == f.disabled
    ensures Inv(f) ==> Inv(r)
  {
    f.(interactionActive := false)
  }

  /** Pointer left the input: the hover tooltip hides. */
  function HoverEnd(f: Flags): (r: Flags)
    ensures !r.hoverActive
    ensures r.interactionActive == f.interactionActive && r.formatter == f.formatter && r.disabled == f.disabled
    ensures Inv(f) ==> Inv(r)
  {
    f.(hoverActive := false)
  }

  /**
   * Pointer pressed: ignored on a disabled widget; otherwise the drag tooltip
   * shows when a formatter is set, and the hover tooltip ends either way.
   */
  function InteractionStart(f: Flags): (r: Flags)
    ensures f.disabled ==> r == f
    ensures !f.disabled ==> !r.hoverActive
    ensures !f.disabled ==> (r.interactionActive <==> f.interactionActive || f.formatter)
    ensures r.formatter == f.formatter && r.disabled == f.disabled
    ensures Inv(f) ==> Inv(r)
  {
    if f.disabled then f
    else HoverEnd(if f.formatter then f.(interactionActive := true) else f)
  }

  /**
   * Pointer entered an input: ignored during a drag or on a disabled widget;
   * otherwise the hover tooltip shows when a formatter is set.
   */
  function HoverStart(f: Flags): (r: Flags)
    ensures f.interactionActive || f.disabled || !f.formatter ==> r == f
    ensures !f.interactionActive && !f.disabled && f.formatter ==> r == f.(hoverActive := true)
    ensures Inv(f) ==> Inv(r)
  {
    if f.interactionActive || f.disabled then f
    else if f.formatter then f.(hoverActive := true)
    else f
  }

  /** Tooltips switched off: hover ends, then the drag ends. */
  function DisableTooltip(f: Flags): (r: Flags)
    ensures !r.interactionActive && !r.hoverActive
    ensures r.formatter == f.formatter && r.disabled == f.disabled
  {
    InteractionEnd(HoverEnd(f))
  }

  /**
   * The `disabled` attribute changed: setting it ends a drag, but leaves a
   * hover tooltip that is showing; removing it changes no flag.
   */
  function DisabledChanged(f: Flags, present: bool): (r: Flags)
    ensures r.disabled == present && r.formatter == f.formatter
    ensures present ==> !r.interactionActive
    ensures r.hoverActive == f.hoverActive
    ensures !present ==> r.interactionActive == f.interactionActive
    ensures Inv(f) ==> Inv(r)
  {
    if present then InteractionEnd(f.(disabled := true)) else f.(disabled := false)
  }

  /** A formatter set or removed; removing it switches the tooltips off first. */
  function FormatterChanged(f: Flags, present: bool): (r: Flags)
    ensures r.formatter == present && r.disabled == f.disabled
    ensures !present ==> !r.interactionActive && !r.hoverActive
    ensures present ==> r.interactionActive == f.interactionActive && r.hoverActive == f.hoverActive
    ensures Inv(f) ==> Inv(r)
  {
    if present then f.(formatter := true) else DisableTooltip(f).(formatter := false)
  }

  /** The host events that drive the flags. */
  datatype Input =
    | PointerDown
    | PointerUp
    | PointerEnter
    | PointerLeave
    | SetDisabled(present: bool)
    | SetFormatter(present: bool)

  /** One host event: only a formatter event changes the formatter, only a disabled event the disabled flag. */
  function Step(f: Flags, e: Input): (g: Flags)
    ensures Inv(f) ==> Inv(g)
    ensures !e.SetFormatter? ==> g.formatter == f.formatter
    ensures !e.SetDisabled? ==> g.disabled == f.disabled
  {
    match e
    case PointerDown => InteractionStart(f)
    case PointerUp => InteractionEnd(f)
    case PointerEnter => HoverStart(f)
    case PointerLeave => HoverEnd(f)
    case SetDisabled(p) => DisabledChanged(f, p)
    case SetFormatter(p) => FormatterChanged(f, p)
  }

  /** The flags after a sequence of host events. */
  function Run(f: Flags, es: seq<Input>): (g: Flags)
    ensures es == [] ==> g == f
    ensures (forall i :: 0 <= i < |es| ==> !es[i].SetFormatter?) ==> g.formatter == f.formatter
    ensures (forall i :: 0 <= i < |es| ==> !es[i].SetDisabled?) ==> g.disabled == f.disabled
    decreases |es|
  {
    if es == [] then f else Run(Step(f, es[0]), es[1..])
  }

  /** Every sequence of host events from a state satisfying the invariant keeps it. */
  lemma {:induction false} RunKeepsInv(f: Flags, es: seq<Input>)
    requires Inv(f)
    ensures Inv(Run(f, es))
    decreases |es|
  {
    if es != [] {
      var g := Step(f, es[0]);
      assert Inv(g);
      RunKeepsInv(g, es[1..]);
    }
  }

  /** So the invariant holds in every state reachable from the start. */
  lemma ReachableFromIdle(es: seq<Input>)
    ensures Inv(Run(Idle, es))
    ensures !Run(Idle, es).formatter ==> !Run(Idle, es).interactionActive && !Run(Idle, es).hoverActive
  {
    RunKeepsInv(Idle, es);
  }
}
