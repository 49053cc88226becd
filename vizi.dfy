/**
 * The visibility engine of one tracked element: its settings, the state it
 * keeps between recomputes, the recompute pipeline, the callback firing,
 * and the public operations refresh, visible, percent and offset.
 *
 * The layout engine is not modelled: every operation that reads the
 * container's or the element's bounding rectangle takes it as a parameter.
 */
module Vizi {
  import opened Wrappers
  import opened Geometry
  import opened Dispatch

  /**
   * An offset argument, by the shape of the value passed. In `Plain`, a
   * field is None when the object lacks it or holds a non-numeric value.
   * `NonNumeric` is any value that is neither a number nor a plain object
   * (a function, a non-numeric string).
   */
  datatype OffsetArg =
    | Undefined
    | Number(n: real)
    | Plain(left: Option<real>, top: Option<real>, right: Option<real>, bottom: Option<real>)
    | NonNumeric

  /** The plugin's options after merging with the defaults. */
  datatype Settings = Settings(
    percentVisible: bool,
    percentProgress: bool,
    ignoreOverflow: bool,
    offset: OffsetArg,
    partiallyVisible: bool,
    callbacks: Callbacks)

  /** The defaults: both ratios reported, real overflow ratios, no offset,
    * partial visibility, and all three callbacks set (to no-ops). */
  const Defaults := Settings(true, true, false, Number(0.0), true, Callbacks(true, true, true))

  /** All four sides at 0. */
  const NoOffset := Offset(0.0, 0.0, 0.0, 0.0)

  /** Why the callbacks are being run. */
  datatype Trigger = Initial | Scroll | Resize | Refresh

  /** The argument of `percent`: anything but 'x' or 'y' asks for both axes. */
  datatype AxisArg = AxisX | AxisY | BothAxes

  datatype PercentReading = Single(value: real) | Both(x: real, y: real)

  /** Under the defaults the rebuilt offset is zero and leaves the element's rectangle as it is. */
  lemma DefaultsKeepRectangle(raw: Rect)
    ensures SettingsOffset(Defaults.offset) == Some(NoOffset)
    ensures ApplyOffset(raw, SettingsOffset(Defaults.offset).value) == raw
  {
  }

  /**
   * The offset every recompute rebuilds from the configured setting. A
   * number `n` becomes -n on the near sides and n on the far sides; a value
   * that is neither a number nor a plain object leaves all four at 0. A plain
   * object or an undefined setting reaches a property read of an undefined
   * argument, which throws: None.
   */
  function SettingsOffset(a: OffsetArg): (r: Option<Offset>)
    ensures r.None? <==> a.Undefined? || a.Plain?
    ensures r.Some? ==> r.value.left == r.value.top == -r.value.right && r.value.right == r.value.bottom
    ensures a.Number? ==> r.Some? && r.value.right == a.n
    ensures a.NonNumeric? ==> r == Some(NoOffset)
  {
    match a
    case Number(n) => Some(NumberOffset(n))
    case NonNumeric => Some(NoOffset)
    case _ => None
  }

  /**
   * The stored offset after the public `offset(args)`. Only a plain object
   * changes it, and only in the fields it carries as numbers, `left` and
   * `top` negated; any other argument, a number included, changes nothing.
   */
  function UpdateOffset(o: Offset, a: OffsetArg): (r: Offset)
    ensures !a.Plain? ==> r == o
    ensures a.Plain? ==> r.left == (if a.left.Some? then -a.left.value else o.left)
    ensures a.Plain? ==> r.top == (if a.top.Some? then -a.top.value else o.top)
    ensures a.Plain? ==> r.right == (if a.right.Some? then a.right.value else o.right)
    ensures a.Plain? ==> r.bottom == (if a.bottom.Some? then a.bottom.value else o.bottom)
  {
    match a
    case Plain(l, t, rt, b) =>
      Offset(if l.Some? then -l.value else o.left,
             if t.Some? then -t.value else o.top,
             if rt.Some? then rt.value else o.right,
             if b.Some? then b.value else o.bottom)
    case _ => o
  }

  /** Setting all four fields to `n` stores what the configured number `n` stands for. */
  lemma UniformObjectIsNumber(o: Offset, n: real)
    ensures UpdateOffset(o, Plain(Some(n), Some(n), Some(n), Some(n))) == SettingsOffset(Number(n)).value
  {
  }

  /** The element's state after a recompute. */
  datatype Snapshot = Snapshot(
    container: Rect,
    rect: Rect,
    offset: Offset,
    position: Position,
    visible: bool,
    percent: Pair,
    progress: Pair)

  /** The divisions of the percent and progress ratios have non-zero divisors. */
  predicate Divisible(c: Rect, e: Rect) {
    e.width != 0.0 && e.height != 0.0 && c.width + e.width != 0.0 && c.height + e.height != 0.0
  }

  /** A recompute neither throws nor divides by zero. */
  predicate Computable(s: Settings, c: Rect, raw: Rect) {
    SettingsOffset(s.offset).Some? && Divisible(c, ApplyOffset(raw, SettingsOffset(s.offset).value))
  }

  /**
   * The state a recompute produces: offset from the settings, element
   * rectangle, edge flags, visibility, percent, then progress. It depends on
   * the settings and the two rectangles only, never on the state before.
   */
  function Recompute(s: Settings, c: Rect, raw: Rect): (r: Snapshot)
    requires Computable(s, c, raw)
    ensures r.offset == SettingsOffset(s.offset).value && r.container == c
    ensures r.position.all ==> r.visible
    ensures !s.partiallyVisible ==> r.visible == r.position.all
    ensures 0.0 <= r.progress.x <= 1.0 && 0.0 <= r.progress.y <= 1.0
  {
    var o := SettingsOffset(s.offset).value;
    var e := ApplyOffset(raw, o);
    var p := ComputePosition(c, e);
    Snapshot(c, e, o, p,
             ComputeVisible(c, e, p, s.partiallyVisible),
             Pair(PercentX(c, e, p, s.ignoreOverflow), PercentY(c, e, p, s.ignoreOverflow)),
             Pair(ProgressX(c, e), ProgressY(c, e)))
  }

  /**
   * In the window with a numeric offset and a well-formed element of positive
   * size, both percents lie in [0,1], and under the partial policy the element
   * is visible exactly when it shares an area of positive size with the window.
   */
  lemma WindowRecompute(s: Settings, viewportWidth: real, viewportHeight: real, raw: Rect)
    requires s.offset.Number? && WellFormed(raw)
    requires viewportWidth > 0.0 && viewportHeight > 0.0
    requires ApplyOffset(raw, NumberOffset(s.offset.n)).width > 0.0
    requires ApplyOffset(raw, NumberOffset(s.offset.n)).height > 0.0
    ensures Computable(s, WindowRect(viewportWidth, viewportHeight), raw)
    ensures var r := Recompute(s, WindowRect(viewportWidth, viewportHeight), raw);
            && 0.0 <= r.percent.x <= 1.0 && 0.0 <= r.percent.y <= 1.0
            && (s.partiallyVisible ==>
                  (r.visible <==> (OverlapX(r.container, r.rect) > 0.0 && OverlapY(r.container, r.rect) > 0.0)))
  {
    var c := WindowRect(viewportWidth, viewportHeight);
    var e := ApplyOffset(raw, NumberOffset(s.offset.n));
    NumberOffsetExpands(raw, s.offset.n);
    PercentXInUnit(c, e, s.ignoreOverflow);
    PercentYInUnit(c, e, s.ignoreOverflow);
    VisibleIffOverlap(c, e);
  }

  /** The callback payload: `percent` and `progress` only when requested. */
  function MakePayload(s: Settings, st: Snapshot): (p: Payload)
    ensures p.position == st.position && p.visible == st.visible
    ensures p.percent.Some? <==> s.percentVisible
    ensures p.progress.Some? <==> s.percentProgress
    ensures p.percent.Some? ==> p.percent.value == st.percent
    ensures p.progress.Some? ==> p.progress.value == st.progress
  {
    Payload(st.position, st.visible,
            if s.percentVisible then Some(st.percent) else None,
            if s.percentProgress then Some(st.progress) else None)
  }

  /** The invocations of the given callbacks, in order, all with one payload. */
  function Calls(hooks: seq<Hook>, payload: Payload): (r: seq<Call>)
    ensures |r| == |hooks|
    ensures forall i :: 0 <= i < |r| ==> r[i].hook == hooks[i] && r[i].payload == payload
  {
    seq(|hooks|, i requires 0 <= i < |hooks| => Call(hooks[i], payload))
  }

  /** One tracked element. Each field is overwritten by one step of the recompute. */
  class Plugin {
    const settings: Settings
    /** The container's rectangle at the last recompute. */
    var container: Rect
    /** The element's rectangle with the offset applied. */
    var rect: Rect
    var offset: Offset
    var position: Position
    var visible: bool
    var percent: Pair
    var progress: Pair
    /** Every callback invocation so far, oldest first. */
    var calls: seq<Call>

    function State(): Snapshot
      reads this
    {
      Snapshot(container, rect, offset, position, visible, percent, progress)
    }

    /**
     * Sets up the state, runs a first recompute, then runs the callbacks
     * once with a second recompute. With the geometry unchanged between the
     * two, the visibility cannot change: only onVisible can fire.
     */
    constructor (s: Settings, c: Rect, raw: Rect)
      requires Computable(s, c, raw)
      ensures settings == s && State() == Recompute(s, c, raw)
      ensures calls == Calls(Fired(visible, visible, s.callbacks), MakePayload(s, State()))
      ensures forall k :: 0 <= k < |calls| ==> calls[k].hook == OnVisible
    {
      settings := s;
      container := Rect(0.0, 0.0, 0.0, 0.0, 0.0, 0.0);
      rect := Rect(0.0, 0.0, 0.0, 0.0, 0.0, 0.0);
      offset := NoOffset;
      position := Position(false, false, false, false, false);
      visible := false;
      percent := Pair(0.0, 0.0);
      progress := Pair(0.0, 0.0);
      calls := [];
      new;
      UpdateElementVisibility(c, raw);
      var ignored := Event(c, raw, Initial);
    }

    method SetContainerData(c: Rect)
      modifies this`container
      ensures container == c
    {
      container := c;
    }

    method SetElementOffset()
      requires SettingsOffset(settings.offset).Some?
      modifies this`offset
      ensures offset == SettingsOffset(settings.offset).value
    {
      match settings.offset {
        case Number(n) =>
          offset := NumberOffset(n);
        case NonNumeric =>
          offset := NoOffset;
      }
    }

    method SetElementData(raw: Rect)
      modifies this`rect
      ensures rect == ApplyOffset(raw, offset)
    {
      rect := Rect(raw.left + offset.left,
                   raw.top + offset.top,
                   raw.right + offset.right,
                   raw.bottom + offset.bottom,
                   raw.width + (-offset.left + offset.bottom),
                   raw.height + (-offset.top + offset.bottom));
    }

    method SetElementPosition()
      modifies this`position
      ensures position == ComputePosition(container, rect)
    {
      position := ComputePosition(container, rect);
    }

    method SetElementVisibility()
      modifies this`visible
      ensures visible == ComputeVisible(container, rect, position, settings.partiallyVisible)
    {
      visible := ComputeVisible(container, rect, position, settings.partiallyVisible);
    }

    method SetElementPercent()
      requires rect.width != 0.0 && rect.height != 0.0
      modifies this`percent
      ensures percent == Pair(PercentX(container, rect, position, settings.ignoreOverflow),
                              PercentY(container, rect, position, settings.ignoreOverflow))
    {
      var y := PercentY(container, rect, position, settings.ignoreOverflow);
      var x := PercentX(container, rect, position, settings.ignoreOverflow);
      percent := Pair(x, y);
    }

    method SetElementProgress()
      requires container.width + rect.width != 0.0 && container.height + rect.height != 0.0
      modifies this`progress
      ensures progress == Pair(ProgressX(container, rect), ProgressY(container, rect))
      ensures 0.0 <= progress.x <= 1.0 && 0.0 <= progress.y <= 1.0
    {
      var y := ProgressY(container, rect);
      var x := ProgressX(container, rect);
      progress := Pair(x, y);
    }

    /** The recompute: every step in order. The offset is rebuilt from the
      * settings, so whatever `offset(args)` stored before is discarded. */
    method UpdateElementVisibility(c: Rect, raw: Rect)
      requires Computable(settings, c, raw)
      modifies this`container, this`offset, this`rect, this`position, this`visible, this`percent, this`progress
      ensures State() == Recompute(settings, c, raw)
    {
      SetContainerData(c);
      SetElementOffset();
      SetElementData(raw);
      SetElementPosition();
      SetElementVisibility();
      SetElementPercent();
      SetElementProgress();
    }

    /**
     * Remembers the visibility, recomputes, builds the payload and fires the
     * callbacks that Fired names, in that order. The payload is returned only
     * for a refresh.
     */
    method Event(c: Rect, raw: Rect, kind: Trigger) returns (r: Option<Payload>)
      requires Computable(settings, c, raw)
      modifies this
      ensures State() == Recompute(settings, c, raw)
      ensures calls == old(calls) + Calls(Fired(old(visible), visible, settings.callbacks),
                                          MakePayload(settings, State()))
      ensures r == if kind == Trigger.Refresh then Some(MakePayload(settings, State())) else None
    {
      var previouslyVisible := visible;
      UpdateElementVisibility(c, raw);
      var percentOut: Option<Pair> := None;
      if settings.percentVisible {
        percentOut := Some(percent);
      }
      var progressOut: Option<Pair> := None;
      if settings.percentProgress {
        progressOut := Some(progress);
      }
      var payload := Payload(position, visible, percentOut, progressOut);
      var isVisible := visible;
      if isVisible != previouslyVisible {
        if isVisible && settings.callbacks.onEnter {
          calls := calls + [Call(OnEnter, payload)];
        } else if !isVisible && settings.callbacks.onLeave {
          calls := calls + [Call(OnLeave, payload)];
        }
      }
      if isVisible && settings.callbacks.onVisible {
        calls := calls + [Call(OnVisible, payload)];
      }
      r := if kind == Trigger.Refresh then Some(payload) else None;
    }

    /** Recomputes and runs the callbacks now, and returns the payload. */
    method Refresh(c: Rect, raw: Rect) returns (p: Payload)
      requires Computable(settings, c, raw)
      modifies this
      ensures State() == Recompute(settings, c, raw)
      ensures calls == old(calls) + Calls(Fired(old(visible), visible, settings.callbacks),
                                          MakePayload(settings, State()))
      ensures p == MakePayload(settings, State())
    {
      var r := Event(c, raw, Trigger.Refresh);
      p := r.value;
    }

    /** Whether the element was visible at the last recompute. */
    method Visible() returns (v: bool)
      ensures v == visible
    {
      v := visible;
    }

    /** The percent of the last recompute on one axis, or on both. */
    method Percent(axis: AxisArg) returns (r: PercentReading)
      ensures axis == AxisX ==> r == Single(percent.x)
      ensures axis == AxisY ==> r == Single(percent.y)
      ensures axis == BothAxes ==> r == Both(percent.x, percent.y)
    {
      match axis {
        case AxisX => r := Single(percent.x);
        case AxisY => r := Single(percent.y);
        case BothAxes => r := Both(percent.x, percent.y);
      }
    }

    /**
     * Without an argument, or with anything but a plain object (a number
     * included), returns the stored offset and changes nothing. With a plain
     * object, updates the fields it carries as numbers and returns nothing.
     */
    method Offset(args: OffsetArg) returns (r: Option<Offset>)
      modifies this`offset
      ensures offset == UpdateOffset(old(offset), args)
      ensures r == if args.Plain? then None else Some(old(offset))
    {
      if args.Undefined? || !args.Plain? {
        return Some(offset);
      }
      r := None;
      if args.left.Some? {
        offset := offset.(left := -args.left.value);
      }
      if args.top.Some? {
        offset := offset.(top := -args.top.value);
      }
      if args.right.Some? {
        offset := offset.(right := args.right.value);
      }
      if args.bottom.Some? {
        offset := offset.(bottom := args.bottom.value);
      }
    }
  }
}
