/**
 * The geometry of the visibility engine: bounding rectangles, the offset
 * that widens the element's rectangle, the per-edge "in view" flags, the
 * visibility policy, and the percent and progress ratios of each axis.
 * Everything here is a pure function of its arguments.
 */
module Geometry {

  /** A bounding rectangle as the layout engine reports it. Nothing ties
    * `right` to `left + width`: the offset arithmetic can break that link. */
  datatype Rect = Rect(left: real, top: real, right: real, bottom: real, width: real, height: real)

  /** Per-side offset as the engine stores it: `left` and `top` hold the
    * negated configured value, so a positive configuration expands. */
  datatype Offset = Offset(left: real, top: real, right: real, bottom: real)

  /** Which edges of the element lie inside the container. */
  datatype Position = Position(top: bool, bottom: bool, left: bool, right: bool, all: bool)

  /** One value per axis. */
  datatype Pair = Pair(x: real, y: real)

  /** A rectangle whose far edges are its near edges plus its extents. */
  predicate WellFormed(r: Rect) {
    r.right == r.left + r.width && r.bottom == r.top + r.height
  }

  function Abs(x: real): real {
    if x < 0.0 then -x else x
  }

  function Min(a: real, b: real): real {
    if a <= b then a else b
  }

  function Max(a: real, b: real): real {
    if a <= b then b else a
  }

  /** The rectangle standing in for the browser window, which has none of its own. */
  function WindowRect(viewportWidth: real, viewportHeight: real): (r: Rect)
    ensures WellFormed(r) && r.left == 0.0 && r.top == 0.0
    ensures r.width == viewportWidth && r.height == viewportHeight
  {
    Rect(0.0, 0.0, viewportWidth, viewportHeight, viewportWidth, viewportHeight)
  }

  /** The offset a single configured number `n` stands for. */
  function NumberOffset(n: real): (o: Offset)
    ensures o.left == o.top == -n && o.right == o.bottom == n
  {
    Offset(-n, -n, n, n)
  }

  /**
   * The element's rectangle with the offset added to every edge. The width
   * is grown by `offset.bottom`, not by `offset.right`, exactly as the
   * element's data is computed; so the result keeps `right == left + width`
   * exactly when the offset's right and bottom agree.
   */
  function ApplyOffset(raw: Rect, o: Offset): (r: Rect)
    ensures WellFormed(raw) ==> r.bottom == r.top + r.height
    ensures WellFormed(raw) ==> (r.right == r.left + r.width <==> o.right == o.bottom)
  {
    Rect(raw.left + o.left,
         raw.top + o.top,
         raw.right + o.right,
         raw.bottom + o.bottom,
         raw.width + (-o.left + o.bottom),
         raw.height + (-o.top + o.bottom))
  }

  /** A numeric offset moves every edge outward by `n` and grows both extents by `2n`. */
  lemma NumberOffsetExpands(raw: Rect, n: real)
    ensures ApplyOffset(raw, NumberOffset(n))
         == Rect(raw.left - n, raw.top - n, raw.right + n, raw.bottom + n,
                 raw.width + 2.0 * n, raw.height + 2.0 * n)
    ensures WellFormed(raw) ==> WellFormed(ApplyOffset(raw, NumberOffset(n)))
  {
  }

  /**
   * The edge flags. Each compares an edge with the container's edge of the
   * same name, and bounds the distance by the container's extent: an edge
   * lying on the container's top or left counts as in view, one lying on
   * its bottom or right does not.
   */
  function ComputePosition(c: Rect, e: Rect): (p: Position)
    ensures p.top <==> c.top <= e.top < c.top + c.height
    ensures p.bottom <==> c.bottom - c.height < e.bottom < c.bottom
    ensures p.left <==> c.left <= e.left < c.left + c.width
    ensures p.right <==> c.right - c.width < e.right < c.right
    ensures p.all <==> p.top && p.bottom && p.left && p.right
  {
    var top := c.top - e.top <= 0.0 && Abs(c.top - e.top) < c.height;
    var bottom := c.bottom - e.bottom > 0.0 && Abs(c.bottom - e.bottom) < c.height;
    var left := c.left - e.left <= 0.0 && Abs(c.left - e.left) < c.width;
    var right := c.right - e.right > 0.0 && Abs(c.right - e.right) < c.width;
    Position(top, bottom, left, right, left && top && right && bottom)
  }

  /** The element overflows the container on both sides horizontally; the
    * test measures against 0 and the container's width, not its left edge. */
  predicate StraddlesX(c: Rect, e: Rect) {
    e.left < 0.0 && e.right >= c.width
  }

  /** The vertical analogue of StraddlesX, measured against 0 and the height. */
  predicate StraddlesY(c: Rect, e: Rect) {
    e.top < 0.0 && e.bottom >= c.height
  }

  /**
   * The visibility policy. Without `partiallyVisible` only a fully contained
   * element is visible; with it, a corner in view, one axis in view while
   * the other overflows, or overflow on both axes is enough.
   */
  function ComputeVisible(c: Rect, e: Rect, p: Position, partiallyVisible: bool): (v: bool)
    ensures !partiallyVisible ==> (v <==> p.all)
    ensures p.all == (p.top && p.bottom && p.left && p.right) && p.all ==> v
  {
    if partiallyVisible then
      if (p.top || p.bottom) && (p.right || p.left) then true
      else if (p.top || p.bottom) && StraddlesX(c, e) then true
      else if StraddlesY(c, e) && (p.right || p.left) then true
      else if !p.all && StraddlesX(c, e) && StraddlesY(c, e) then true
      else false
    else
      p.all
  }

  /** Length of the horizontal intersection of the two rectangles (0 when disjoint). */
  function OverlapX(c: Rect, e: Rect): real {
    Max(0.0, Min(e.right, c.right) - Max(e.left, c.left))
  }

  /** Length of the vertical intersection of the two rectangles (0 when disjoint). */
  function OverlapY(c: Rect, e: Rect): real {
    Max(0.0, Min(e.bottom, c.bottom) - Max(e.top, c.top))
  }

  /**
   * For well-formed rectangles of positive extent and a container at the
   * origin, the partial policy calls an element visible exactly when it
   * shares an area of positive size with the container.
   */
  lemma VisibleIffOverlap(c: Rect, e: Rect)
    requires WellFormed(c) && WellFormed(e)
    requires c.left == 0.0 && c.top == 0.0
    requires c.width > 0.0 && c.height > 0.0 && e.width > 0.0 && e.height > 0.0
    ensures ComputeVisible(c, e, ComputePosition(c, e), true)
        <==> OverlapX(c, e) > 0.0 && OverlapY(c, e) > 0.0
  {
  }

  /** Requiring full containment never makes more elements visible. */
  lemma AllOrNothingIsStricter(c: Rect, e: Rect)
    ensures ComputeVisible(c, e, ComputePosition(c, e), false)
        ==> ComputeVisible(c, e, ComputePosition(c, e), true)
  {
  }

  /**
   * Share of the element's width inside the container. One edge in view:
   * the part from that edge to the container's edge; both: 1; straddling:
   * 1 or the container-to-element ratio; otherwise 0. Never clamped.
   */
  function PercentX(c: Rect, e: Rect, p: Position, ignoreOverflow: bool): (r: real)
    requires e.width != 0.0
    ensures p.left && p.right ==> r == 1.0
    ensures !p.left && !p.right && StraddlesX(c, e) && ignoreOverflow ==> r == 1.0
    ensures !p.left && !p.right && !StraddlesX(c, e) ==> r == 0.0
  {
    if (p.left && !p.right) || (!p.left && p.right) then
      if p.left then (c.width - (e.left - c.left)) / e.width
      else (e.right - c.left) / e.width
    else if p.left && p.right then 1.0
    else if !p.left && !p.right && StraddlesX(c, e) then
      if ignoreOverflow then 1.0 else c.width / e.width
    else 0.0
  }

  /**
   * Share of the element's height inside the container, by the same regimes
   * as PercentX, except that the partial ratios do not subtract the
   * container's top.
   */
  function PercentY(c: Rect, e: Rect, p: Position, ignoreOverflow: bool): (r: real)
    requires e.height != 0.0
    ensures p.top && p.bottom ==> r == 1.0
    ensures !p.top && !p.bottom && StraddlesY(c, e) && ignoreOverflow ==> r == 1.0
    ensures !p.top && !p.bottom && !StraddlesY(c, e) ==> r == 0.0
  {
    if (p.top && !p.bottom) || (!p.top && p.bottom) then
      if p.top then (c.height - e.top) / e.height
      else e.bottom / e.height
    else if p.top && p.bottom then 1.0
    else if !p.top && !p.bottom && StraddlesY(c, e) then
      if ignoreOverflow then 1.0 else c.height / e.height
    else 0.0
  }

  lemma FractionInUnit(a: real, b: real)
    requires 0.0 <= a <= b && b > 0.0
    ensures 0.0 <= a / b <= 1.0
  {
    assert a / b * b == a;
  }

  /**
   * For well-formed rectangles and a container at the origin, PercentX is
   * the visible share of the element's width, except that an element
   * overflowing both sides counts as 1 under `ignoreOverflow`.
   */
  lemma PercentXIsVisibleShare(c: Rect, e: Rect, ignoreOverflow: bool)
    requires WellFormed(c) && WellFormed(e)
    requires c.left == 0.0 && c.width >= 0.0 && e.width > 0.0
    ensures PercentX(c, e, ComputePosition(c, e), ignoreOverflow)
         == if ignoreOverflow && StraddlesX(c, e) then 1.0 else OverlapX(c, e) / e.width
  {
    var p := ComputePosition(c, e);
    if p.left && !p.right {
      assert OverlapX(c, e) == c.width - e.left;
    } else if !p.left && p.right {
      assert OverlapX(c, e) == e.right;
    } else if p.left && p.right {
      assert OverlapX(c, e) == e.width;
      assert e.width / e.width == 1.0;
    } else if StraddlesX(c, e) {
      assert OverlapX(c, e) == c.width;
    } else {
      assert OverlapX(c, e) == 0.0;
    }
  }

  /** The vertical analogue of PercentXIsVisibleShare. */
  lemma PercentYIsVisibleShare(c: Rect, e: Rect, ignoreOverflow: bool)
    requires WellFormed(c) && WellFormed(e)
    requires c.top == 0.0 && c.height >= 0.0 && e.height > 0.0
    ensures PercentY(c, e, ComputePosition(c, e), ignoreOverflow)
         == if ignoreOverflow && StraddlesY(c, e) then 1.0 else OverlapY(c, e) / e.height
  {
    var p := ComputePosition(c, e);
    if p.top && !p.bottom {
      assert OverlapY(c, e) == c.height - e.top;
    } else if !p.top && p.bottom {
      assert OverlapY(c, e) == e.bottom;
    } else if p.top && p.bottom {
      assert OverlapY(c, e) == e.height;
      assert e.height / e.height == 1.0;
    } else if StraddlesY(c, e) {
      assert OverlapY(c, e) == c.height;
    } else {
      assert OverlapY(c, e) == 0.0;
    }
  }

  /**
   * For well-formed rectangles the horizontal percent lies in [0,1] wherever
   * the container sits: the one-edge ratios measure from the container's left.
   */
  lemma PercentXInUnit(c: Rect, e: Rect, ignoreOverflow: bool)
    requires WellFormed(c) && WellFormed(e)
    requires c.width >= 0.0 && e.width > 0.0
    ensures 0.0 <= PercentX(c, e, ComputePosition(c, e), ignoreOverflow) <= 1.0
  {
    var p := ComputePosition(c, e);
    if p.left && !p.right {
      FractionInUnit(c.width - (e.left - c.left), e.width);
    } else if !p.left && p.right {
      FractionInUnit(e.right - c.left, e.width);
    } else if !p.left && !p.right && StraddlesX(c, e) && !ignoreOverflow {
      FractionInUnit(c.width, e.width);
    }
  }

  /** Under the conditions of PercentYIsVisibleShare the vertical percent lies in [0,1]. */
  lemma PercentYInUnit(c: Rect, e: Rect, ignoreOverflow: bool)
    requires WellFormed(c) && WellFormed(e)
    requires c.top == 0.0 && c.height >= 0.0 && e.height > 0.0
    ensures 0.0 <= PercentY(c, e, ComputePosition(c, e), ignoreOverflow) <= 1.0
  {
    PercentYIsVisibleShare(c, e, ignoreOverflow);
    FractionInUnit(OverlapY(c, e), e.height);
  }

  /** A container that does not start at the top leaves the vertical percent
    * unbounded: here the element's top is in view and percent.y is 1.5. */
  lemma PercentYExceedsOneOffOrigin()
    ensures var c := Rect(0.0, -100.0, 100.0, 100.0, 100.0, 200.0);
            var e := Rect(0.0, 50.0, 10.0, 150.0, 10.0, 100.0);
            WellFormed(c) && WellFormed(e) && PercentY(c, e, ComputePosition(c, e), false) == 1.5
  {
  }

  /**
   * The overflow tests measure against 0, not the container's left or top: a
   * container away from the origin can overlap an element by a positive area
   * while the element counts as hidden, with a horizontal percent of 0.
   */
  lemma StraddleOffOriginHidesOverlap()
    ensures var c := Rect(100.0, 0.0, 200.0, 100.0, 100.0, 100.0);
            var e := Rect(50.0, 10.0, 250.0, 60.0, 200.0, 50.0);
            && WellFormed(c) && WellFormed(e)
            && OverlapX(c, e) > 0.0 && OverlapY(c, e) > 0.0
            && !ComputeVisible(c, e, ComputePosition(c, e), true)
            && PercentX(c, e, ComputePosition(c, e), false) == 0.0
  {
  }

  /** Clamps a ratio into [0,1]. */
  function NormalizePercent(ratio: real): (r: real)
    ensures 0.0 <= r <= 1.0
    ensures 0.0 <= ratio <= 1.0 ==> r == ratio
    ensures r == 0.0 <==> ratio <= 0.0
    ensures r == 1.0 <==> ratio >= 1.0
  {
    if ratio > 1.0 then 1.0
    else if ratio < 0.0 then 0.0
    else ratio
  }

  /** Clamping preserves order. */
  lemma NormalizeMonotone(a: real, b: real)
    requires a <= b
    ensures NormalizePercent(a) <= NormalizePercent(b)
  {
  }

  /**
   * How far an element has travelled through the container on one axis:
   * the distance of the element's far edge past the container's near edge,
   * over the combined extents, clamped into [0,1].
   */
  function Progress(elementFar: real, containerNear: real, containerExtent: real, elementExtent: real): (r: real)
    requires containerExtent + elementExtent != 0.0
    ensures 0.0 <= r <= 1.0
  {
    NormalizePercent((elementFar - containerNear) / (containerExtent + elementExtent))
  }

  function ProgressX(c: Rect, e: Rect): (r: real)
    requires c.width + e.width != 0.0
    ensures 0.0 <= r <= 1.0
  {
    Progress(e.right, c.left, c.width, e.width)
  }

  function ProgressY(c: Rect, e: Rect): (r: real)
    requires c.height + e.height != 0.0
    ensures 0.0 <= r <= 1.0
  {
    Progress(e.bottom, c.top, c.height, e.height)
  }

  /** Progress is 0 exactly while the element's far edge has not passed the container's near edge. */
  lemma ProgressZeroIff(elementFar: real, containerNear: real, containerExtent: real, elementExtent: real)
    requires containerExtent + elementExtent > 0.0
    ensures Progress(elementFar, containerNear, containerExtent, elementExtent) == 0.0
        <==> elementFar <= containerNear
  {
    var d := containerExtent + elementExtent;
    var q := (elementFar - containerNear) / d;
    assert q * d == elementFar - containerNear;
  }

  /** Progress is 1 exactly once the far edge is the combined extents past the near edge. */
  lemma ProgressOneIff(elementFar: real, containerNear: real, containerExtent: real, elementExtent: real)
    requires containerExtent + elementExtent > 0.0
    ensures Progress(elementFar, containerNear, containerExtent, elementExtent) == 1.0
        <==> elementFar - containerNear >= containerExtent + elementExtent
  {
    var d := containerExtent + elementExtent;
    var q := (elementFar - containerNear) / d;
    assert q * d == elementFar - containerNear;
  }

  /** Progress never decreases as the element's far edge moves forward. */
  lemma ProgressMonotone(far1: real, far2: real, containerNear: real, containerExtent: real, elementExtent: real)
    requires containerExtent + elementExtent > 0.0
    requires far1 <= far2
    ensures Progress(far1, containerNear, containerExtent, elementExtent)
         <= Progress(far2, containerNear, containerExtent, elementExtent)
  {
    var d := containerExtent + elementExtent;
    var q1 := (far1 - containerNear) / d;
    var q2 := (far2 - containerNear) / d;
    assert q1 * d == far1 - containerNear && q2 * d == far2 - containerNear;
    assert q1 <= q2;
    NormalizeMonotone(q1, q2);
  }

  /** The vertical progress is 0 while the element's bottom is at or above the
    * container's top, and does not decrease as the element's bottom moves down. */
  lemma ProgressYFromContainerTop(c: Rect, e1: Rect, e2: Rect)
    requires c.height + e1.height > 0.0 && e2.height == e1.height
    requires e1.bottom <= e2.bottom
    ensures ProgressY(c, e1) == 0.0 <==> e1.bottom <= c.top
    ensures ProgressY(c, e1) <= ProgressY(c, e2)
  {
    ProgressZeroIff(e1.bottom, c.top, c.height, e1.height);
    ProgressMonotone(e1.bottom, e2.bottom, c.top, c.height, e1.height);
  }
}
