/**
 * Grid geometry (`drawLines` without the canvas): the gridline of every
 * stop with a truthy colour, the tick of every stop away from the opposite
 * axis's origin, the label anchors, and the axis line, all in pixels of
 * the padded surface.
 */
module Geometry {
  import opened JsValues
  import opened Axes
  import opened Resolver

  /** A straight stroke from `(x1, y1)` to `(x2, y2)`. */
  datatype Segment = Segment(x1: real, y1: real, x2: real, y2: real, stroke: Paint, width: real)

  /** What `drawLines` adds to the canvas, by kind, in drawing order. */
  datatype Drawing = Drawing(gridlines: seq<Segment>, ticks: seq<Segment>, axisLine: Option<Segment>)

  function UsableWidth(l: Layout): real
  {
    l.shape.width - l.padding.right - l.padding.left
  }

  function UsableHeight(l: Layout): real
  {
    l.shape.height - l.padding.bottom - l.padding.top
  }

  /** Normalised to pixel coordinates, through the padding. */
  function PixelX(l: Layout, u: real): real
  {
    l.padding.left + u * UsableWidth(l)
  }

  function PixelY(l: Layout, v: real): real
  {
    l.padding.top + v * UsableHeight(l)
  }

  /** A layout `drawLines` can draw against its opposite: both windows and
      the usable area are non-empty. */
  predicate Drawable(l: Layout, opp: Layout)
  {
    l.range > 0.0 && opp.range > 0.0 && UsableWidth(l) > 0.0 && UsableHeight(l) > 0.0
  }

  /** The stops `getCoords` iterates: none when `lines` is not an array. */
  function Stops(l: Layout): seq<real>
  {
    if l.lists.lines.Some? then l.lists.lines.value else []
  }

  function QuadAt(l: Layout, k: nat): (q: seq<real>)
    requires l.range > 0.0 && k < |Stops(l)|
    ensures |q| == 4
  {
    Quad(l.orientation, Ratio(l.orientation, Stops(l)[k], l.offset, l.range))
  }

  /** `lineColors[k]`, `undefined` (falsy) past the end. */
  function ColorAt(l: Layout, k: nat): Paint
  {
    if k < |l.lists.colors| then l.lists.colors[k] else Null
  }

  function Gridline(l: Layout, k: nat): Segment
    requires l.range > 0.0 && k < |Stops(l)|
  {
    var q := QuadAt(l, k);
    Segment(PixelX(l, q[0]), PixelY(l, q[1]), PixelX(l, q[2]), PixelY(l, q[3]), ColorAt(l, k), 1.0)
  }

  /** The gridlines of the first `m` stops. */
  function Gridlines(l: Layout, m: nat): seq<Segment>
    requires l.range > 0.0 && m <= |Stops(l)|
  {
    if m == 0 then []
    else Gridlines(l, m - 1) + (if Truthy(ColorAt(l, m - 1)) then [Gridline(l, m - 1)] else [])
  }

  /** The stops among the first `m` whose colour is truthy. */
  function GridIndices(l: Layout, m: nat): seq<nat>
  {
    if m == 0 then []
    else GridIndices(l, m - 1) + (if Truthy(ColorAt(l, m - 1)) then [m - 1] else [])
  }

  /** One gridline per stop with a truthy colour, in stop order, and none
      for a stop whose colour is falsy. */
  lemma {:induction false} GridlinesAreKept(l: Layout, m: nat)
    requires l.range > 0.0 && m <= |Stops(l)|
    ensures |Gridlines(l, m)| == |GridIndices(l, m)|
    ensures forall i :: 0 <= i < |GridIndices(l, m)| ==>
      GridIndices(l, m)[i] < m && Gridlines(l, m)[i] == Gridline(l, GridIndices(l, m)[i])
    ensures forall k: nat :: k in GridIndices(l, m) <==> k < m && Truthy(ColorAt(l, k))
    ensures forall i, j :: 0 <= i < j < |GridIndices(l, m)| ==> GridIndices(l, m)[i] < GridIndices(l, m)[j]
  {
    if m > 0 {
      GridlinesAreKept(l, m - 1);
    }
  }

  /** With `u` in `[0, 1]` the pixel stays inside the padded area. */
  lemma PixelInsidePadding(l: Layout, u: real, v: real)
    requires UsableWidth(l) > 0.0 && UsableHeight(l) > 0.0
    requires 0.0 <= u <= 1.0 && 0.0 <= v <= 1.0
    ensures l.padding.left <= PixelX(l, u) <= l.shape.width - l.padding.right
    ensures l.padding.top <= PixelY(l, v) <= l.shape.height - l.padding.bottom
  {
    Affine(l.padding.left, UsableWidth(l), u);
    assert PixelX(l, u) == l.padding.left + u * UsableWidth(l);
    assert l.padding.left + UsableWidth(l) == l.shape.width - l.padding.right;
    Affine(l.padding.top, UsableHeight(l), v);
    assert PixelY(l, v) == l.padding.top + v * UsableHeight(l);
    assert l.padding.top + UsableHeight(l) == l.shape.height - l.padding.bottom;
  }

  /** A fraction `u` of a positive span `w` from `lo` stays in the span. */
  lemma Affine(lo: real, w: real, u: real)
    requires w > 0.0 && 0.0 <= u <= 1.0
    ensures lo <= lo + u * w <= lo + w
  {
    MulBounds(u, w);
  }

  /** An `x` gridline is vertical at its stop's ratio across the padded
      height; a `y` gridline is horizontal across the padded width. */
  lemma GridlinePixels(l: Layout, k: nat)
    requires l.range > 0.0 && k < |Stops(l)|
    ensures var g := Gridline(l, k);
      var t := Ratio(l.orientation, Stops(l)[k], l.offset, l.range);
      && (l.orientation == X ==>
            g.x1 == g.x2 == PixelX(l, t) && g.y1 == l.padding.top && g.y2 == l.shape.height - l.padding.bottom)
      && (l.orientation == Y ==>
            g.y1 == g.y2 == PixelY(l, t) && g.x1 == l.padding.left && g.x2 == l.shape.width - l.padding.right)
  {
  }

  /** `axisRatio`: where this axis's origin sits on the opposite axis,
      clamped to the window. */
  function AxisRatio(l: Layout, opp: Layout): (r: real)
    requires opp.range > 0.0
    ensures 0.0 <= r <= 1.0
  {
    Clamp(Ratio(opp.orientation, l.axisOrigin, opp.offset, opp.range), 0.0, 1.0)
  }

  /** The tick length of stop `k`: `null` counts as 0 (`null * n`). */
  function TickLength(l: Layout, k: nat): real
  {
    if k < |l.lists.ticks| && l.lists.ticks[k].Length? then l.lists.ticks[k].length else 0.0
  }

  /** Tick endpoints `[x1, y1, x2, y2]` in normalised coordinates for a
      quad `q`, the clamped `axisRatio` `a`, tick length `t` and usable
      size `uw` by `uh`: from the crossing at `a`, `align` of the tick on
      one side of the line and the rest on the other.  The normal is the
      quad's own direction, whose length is 1 (`QuadAlongNormal`). */
  function TickEndsOf(q: seq<real>, a: real, t: real, uw: real, uh: real, align: real): (e: seq<real>)
    requires |q| == 4 && uw > 0.0 && uh > 0.0
    ensures |e| == 4
  {
    var n0, n1 := q[2] - q[0], q[3] - q[1];
    var xDif, yDif := (q[2] - q[0]) * a, (q[3] - q[1]) * a;
    var tick0, tick1 := n0 * t / uw, n1 * t / uh;
    [n0 * (xDif + tick0 * align) + q[0],
     n1 * (yDif + tick1 * align) + q[1],
     n0 * (xDif - tick0 * (1.0 - align)) + q[0],
     n1 * (yDif - tick1 * (1.0 - align)) + q[1]]
  }

  /** The label anchor for quad `q`: its point at `axisRatio` `a`. */
  function AnchorOf(q: seq<real>, a: real): (real, real)
    requires |q| == 4
  {
    var n0, n1 := q[2] - q[0], q[3] - q[1];
    (n0 * ((q[2] - q[0]) * a) + q[0], n1 * ((q[3] - q[1]) * a) + q[1])
  }

  function TickEnds(l: Layout, opp: Layout, k: nat): (e: seq<real>)
    requires Drawable(l, opp) && k < |Stops(l)|
    ensures |e| == 4
  {
    TickEndsOf(QuadAt(l, k), AxisRatio(l, opp), TickLength(l, k), UsableWidth(l), UsableHeight(l), l.tickAlign)
  }

  function Anchor(l: Layout, opp: Layout, k: nat): (real, real)
    requires Drawable(l, opp) && k < |Stops(l)|
  {
    AnchorOf(QuadAt(l, k), AxisRatio(l, opp))
  }

  function TickSegment(l: Layout, opp: Layout, k: nat): Segment
    requires Drawable(l, opp) && k < |Stops(l)|
  {
    var e := TickEnds(l, opp, k);
    Segment(PixelX(l, e[0]), PixelY(l, e[1]), PixelX(l, e[2]), PixelY(l, e[3]), l.axisColor, 0.5)
  }

  /** A stop gets a tick when it has a numeric or `null` tick entry and
      does not sit at the opposite axis's origin. */
  predicate TickShown(l: Layout, opp: Layout, almost: (real, real) -> bool, k: nat)
    requires k < |Stops(l)|
  {
    k < |l.lists.ticks| && !l.lists.ticks[k].ObjectTick? && !almost(Stops(l)[k], opp.axisOrigin)
  }

  function Ticks(l: Layout, opp: Layout, almost: (real, real) -> bool, m: nat): seq<Segment>
    requires Drawable(l, opp) && m <= |Stops(l)|
  {
    if m == 0 then []
    else
      var last := if TickShown(l, opp, almost, m - 1) then [TickSegment(l, opp, m - 1)] else [];
      Ticks(l, opp, almost, m - 1) + last
  }

  function TickIndices(l: Layout, opp: Layout, almost: (real, real) -> bool, m: nat): seq<nat>
    requires m <= |Stops(l)|
  {
    if m == 0 then []
    else TickIndices(l, opp, almost, m - 1) + (if TickShown(l, opp, almost, m - 1) then [m - 1] else [])
  }

  /** One tick per shown stop, in stop order; a stop at the opposite
      origin (or without a tick entry) gets none. */
  lemma {:induction false} TicksAreShown(l: Layout, opp: Layout, almost: (real, real) -> bool, m: nat)
    requires Drawable(l, opp) && m <= |Stops(l)|
    ensures |Ticks(l, opp, almost, m)| == |TickIndices(l, opp, almost, m)|
    ensures forall i :: 0 <= i < |TickIndices(l, opp, almost, m)| ==>
      TickIndices(l, opp, almost, m)[i] < m &&
      Ticks(l, opp, almost, m)[i] == TickSegment(l, opp, TickIndices(l, opp, almost, m)[i])
    ensures forall k: nat :: k in TickIndices(l, opp, almost, m) <==>
      k < m && k < |l.lists.ticks| && !l.lists.ticks[k].ObjectTick? && !almost(Stops(l)[k], opp.axisOrigin)
    ensures forall i, j :: 0 <= i < j < |TickIndices(l, opp, almost, m)| ==>
      TickIndices(l, opp, almost, m)[i] < TickIndices(l, opp, almost, m)[j]
  {
    if m > 0 {
      TicksAreShown(l, opp, almost, m - 1);
    }
  }

  /** The closed forms of a stop's tick endpoints and anchor: on `x` the
      tick is vertical at the stop's ratio `r` and spans `t / uh` around
      `a`; on `y` it is horizontal and spans `t / uw`. */
  lemma TickEndsClosedForm(o: Orientation, r: real, a: real, t: real, uw: real, uh: real, al: real)
    requires uw > 0.0 && uh > 0.0
    ensures o == X ==>
      && TickEndsOf(Quad(o, r), a, t, uw, uh, al) == [r, a + t / uh * al, r, a - t / uh * (1.0 - al)]
      && AnchorOf(Quad(o, r), a) == (r, a)
    ensures o == Y ==>
      && TickEndsOf(Quad(o, r), a, t, uw, uh, al) == [a + t / uw * al, r, a - t / uw * (1.0 - al), r]
      && AnchorOf(Quad(o, r), a) == (a, r)
  {
    if o == X {
      TickEndsOnX(r, a, t, uw, uh, al);
    } else {
      TickEndsOnY(r, a, t, uw, uh, al);
    }
  }

  lemma TickEndsOnX(r: real, a: real, t: real, uw: real, uh: real, al: real)
    requires uw > 0.0 && uh > 0.0
    ensures TickEndsOf([r, 0.0, r, 1.0], a, t, uw, uh, al) == [r, a + t / uh * al, r, a - t / uh * (1.0 - al)]
    ensures AnchorOf([r, 0.0, r, 1.0], a) == (r, a)
  {
    var e := TickEndsOf([r, 0.0, r, 1.0], a, t, uw, uh, al);
    assert e[0] == 0.0 * ((r - r) * a + 0.0 * t / uw * al) + r == r;
    assert e[1] == 1.0 * (1.0 * a + 1.0 * t / uh * al) + 0.0 == a + t / uh * al;
    assert e[2] == 0.0 * ((r - r) * a - 0.0 * t / uw * (1.0 - al)) + r == r;
    assert e[3] == 1.0 * (1.0 * a - 1.0 * t / uh * (1.0 - al)) + 0.0 == a - t / uh * (1.0 - al);
    assert |e| == 4;
    var c := AnchorOf([r, 0.0, r, 1.0], a);
    assert c.0 == 0.0 * ((r - r) * a) + r == r;
    assert c.1 == 1.0 * (1.0 * a) + 0.0 == a;
  }

  lemma TickEndsOnY(r: real, a: real, t: real, uw: real, uh: real, al: real)
    requires uw > 0.0 && uh > 0.0
    ensures TickEndsOf([0.0, r, 1.0, r], a, t, uw, uh, al) == [a + t / uw * al, r, a - t / uw * (1.0 - al), r]
    ensures AnchorOf([0.0, r, 1.0, r], a) == (a, r)
  {
    var e := TickEndsOf([0.0, r, 1.0, r], a, t, uw, uh, al);
    assert e[0] == 1.0 * (1.0 * a + 1.0 * t / uw * al) + 0.0 == a + t / uw * al;
    assert e[1] == 0.0 * ((r - r) * a + 0.0 * t / uh * al) + r == r;
    assert e[2] == 1.0 * (1.0 * a - 1.0 * t / uw * (1.0 - al)) + 0.0 == a - t / uw * (1.0 - al);
    assert e[3] == 0.0 * ((r - r) * a - 0.0 * t / uh * (1.0 - al)) + r == r;
    assert |e| == 4;
    var c := AnchorOf([0.0, r, 1.0, r], a);
    assert c.0 == 1.0 * (1.0 * a) + 0.0 == a;
    assert c.1 == 0.0 * ((r - r) * a) + r == r;
  }

  /** With `tickAlign` in `[0, 1]` the label anchor lies between the two
      tick endpoints. */
  lemma AnchorBetweenTickEnds(l: Layout, opp: Layout, k: nat)
    requires Drawable(l, opp) && k < |Stops(l)|
    requires 0.0 <= l.tickAlign <= 1.0
    ensures var e, c := TickEnds(l, opp, k), Anchor(l, opp, k);
      && (e[0] <= c.0 <= e[2] || e[2] <= c.0 <= e[0])
      && (e[1] <= c.1 <= e[3] || e[3] <= c.1 <= e[1])
  {
    QuadBetween(l.orientation, Ratio(l.orientation, Stops(l)[k], l.offset, l.range), AxisRatio(l, opp),
                TickLength(l, k), UsableWidth(l), UsableHeight(l), l.tickAlign);
  }

  /** `AnchorBetweenTickEnds` for one quad. */
  lemma QuadBetween(o: Orientation, r: real, a: real, t: real, uw: real, uh: real, al: real)
    requires uw > 0.0 && uh > 0.0 && 0.0 <= al <= 1.0
    ensures var e, c := TickEndsOf(Quad(o, r), a, t, uw, uh, al), AnchorOf(Quad(o, r), a);
      && (e[0] <= c.0 <= e[2] || e[2] <= c.0 <= e[0])
      && (e[1] <= c.1 <= e[3] || e[3] <= c.1 <= e[1])
  {
    if o == X {
      assert Quad(o, r) == [r, 0.0, r, 1.0];
      BetweenOnX(r, a, t, uw, uh, al);
    } else {
      assert Quad(o, r) == [0.0, r, 1.0, r];
      BetweenOnY(r, a, t, uw, uh, al);
    }
  }

  lemma BetweenOnX(r: real, a: real, t: real, uw: real, uh: real, al: real)
    requires uw > 0.0 && uh > 0.0 && 0.0 <= al <= 1.0
    ensures var e, c := TickEndsOf([r, 0.0, r, 1.0], a, t, uw, uh, al), AnchorOf([r, 0.0, r, 1.0], a);
      && (e[0] <= c.0 <= e[2] || e[2] <= c.0 <= e[0])
      && (e[1] <= c.1 <= e[3] || e[3] <= c.1 <= e[1])
  {
    var e := TickEndsOf([r, 0.0, r, 1.0], a, t, uw, uh, al);
    TickEndsOnX(r, a, t, uw, uh, al);
    SameSign(t / uh, al, 1.0 - al);
    Order(a, t / uh * al, t / uh * (1.0 - al), e[1], e[3]);
  }

  lemma BetweenOnY(r: real, a: real, t: real, uw: real, uh: real, al: real)
    requires uw > 0.0 && uh > 0.0 && 0.0 <= al <= 1.0
    ensures var e, c := TickEndsOf([0.0, r, 1.0, r], a, t, uw, uh, al), AnchorOf([0.0, r, 1.0, r], a);
      && (e[0] <= c.0 <= e[2] || e[2] <= c.0 <= e[0])
      && (e[1] <= c.1 <= e[3] || e[3] <= c.1 <= e[1])
  {
    var e := TickEndsOf([0.0, r, 1.0, r], a, t, uw, uh, al);
    TickEndsOnY(r, a, t, uw, uh, al);
    SameSign(t / uw, al, 1.0 - al);
    Order(a, t / uw * al, t / uw * (1.0 - al), e[0], e[2]);
  }

  /** `a` lies between `a + p` and `a - q` when `p` and `q` agree in sign. */
  lemma Order(a: real, p: real, q: real, e1: real, e2: real)
    requires (p >= 0.0 && q >= 0.0) || (p <= 0.0 && q <= 0.0)
    requires e1 == a + p && e2 == a - q
    ensures e1 <= a <= e2 || e2 <= a <= e1
  {
  }

  lemma SameSign(s: real, a: real, b: real)
    requires a >= 0.0 && b >= 0.0
    ensures (s * a >= 0.0 && s * b >= 0.0) || (s * a <= 0.0 && s * b <= 0.0)
  {
    if s >= 0.0 {
      MulNonNeg(s, a);
      MulNonNeg(s, b);
    } else {
      MulNonNeg(-s, a);
      MulNonNeg(-s, b);
    }
  }

  lemma MulNonNeg(s: real, a: real)
    requires s >= 0.0 && a >= 0.0
    ensures s * a >= 0.0
  {
  }

  /** The tick runs along the normal only, and its two endpoints are
      `ticks[k]` apart in pixels: `ticks[k]` over the usable dimension in
      normalised units. */
  lemma TickLengthAlongNormal(l: Layout, opp: Layout, k: nat)
    requires Drawable(l, opp) && k < |Stops(l)|
    ensures var e, t := TickEnds(l, opp, k), TickLength(l, k);
      && (l.orientation == X ==>
            e[0] == e[2] && e[1] - e[3] == t / UsableHeight(l) && PixelY(l, e[1]) - PixelY(l, e[3]) == t)
      && (l.orientation == Y ==>
            e[1] == e[3] && e[0] - e[2] == t / UsableWidth(l) && PixelX(l, e[0]) - PixelX(l, e[2]) == t)
  {
    var e, t, w, h := TickEnds(l, opp, k), TickLength(l, k), UsableWidth(l), UsableHeight(l);
    QuadSpan(l.orientation, Ratio(l.orientation, Stops(l)[k], l.offset, l.range), AxisRatio(l, opp),
             t, w, h, l.tickAlign);
    if l.orientation == X {
      PixelSpan(l.padding.top, e[1], e[3], h, t);
    } else {
      PixelSpan(l.padding.left, e[0], e[2], w, t);
    }
  }

  /** `TickLengthAlongNormal` for one quad, in normalised units. */
  lemma QuadSpan(o: Orientation, r: real, a: real, t: real, uw: real, uh: real, al: real)
    requires uw > 0.0 && uh > 0.0
    ensures var e := TickEndsOf(Quad(o, r), a, t, uw, uh, al);
      && (o == X ==> e[0] == e[2] && e[1] - e[3] == t / uh)
      && (o == Y ==> e[1] == e[3] && e[0] - e[2] == t / uw)
  {
    if o == X {
      TickEndsOnX(r, a, t, uw, uh, al);
      Span(a, t / uh, al);
    } else {
      TickEndsOnY(r, a, t, uw, uh, al);
      Span(a, t / uw, al);
    }
  }

  /** The two ends around the crossing are `s` apart. */
  lemma Span(a: real, s: real, al: real)
    ensures (a + s * al) - (a - s * (1.0 - al)) == s
  {
    assert s * al + s * (1.0 - al) == s * (al + (1.0 - al));
  }

  lemma PixelSpan(p: real, u1: real, u2: real, w: real, t: real)
    requires w > 0.0 && u1 - u2 == t / w
    ensures (p + u1 * w) - (p + u2 * w) == t
  {
    assert (p + u1 * w) - (p + u2 * w) == (u1 - u2) * w;
  }

  /** The label anchors of the first `m` stops, two numbers each. */
  function Anchors(l: Layout, opp: Layout, m: nat): seq<real>
    requires Drawable(l, opp) && m <= |Stops(l)|
  {
    if m == 0 then []
    else Anchors(l, opp, m - 1) + [Anchor(l, opp, m - 1).0, Anchor(l, opp, m - 1).1]
  }

  /** Two anchor numbers per stop; on `x` the anchor is at the stop's ratio
      and `axisRatio` down, on `y` at `axisRatio` across and the stop's
      ratio down. */
  lemma {:induction false} AnchorsAtCrossing(l: Layout, opp: Layout, m: nat)
    requires Drawable(l, opp) && m <= |Stops(l)|
    ensures |Anchors(l, opp, m)| == 2 * m
    ensures forall k :: 0 <= k < m ==>
      var t := Ratio(l.orientation, Stops(l)[k], l.offset, l.range);
      && (l.orientation == X ==> Anchors(l, opp, m)[2 * k] == t && Anchors(l, opp, m)[2 * k + 1] == AxisRatio(l, opp))
      && (l.orientation == Y ==> Anchors(l, opp, m)[2 * k] == AxisRatio(l, opp) && Anchors(l, opp, m)[2 * k + 1] == t)
  {
    if m > 0 {
      AnchorsAtCrossing(l, opp, m - 1);
      var k := m - 1;
      TickEndsClosedForm(l.orientation, Ratio(l.orientation, Stops(l)[k], l.offset, l.range),
                         AxisRatio(l, opp), TickLength(l, k), UsableWidth(l), UsableHeight(l), l.tickAlign);
    }
  }

  /** The axis line: the opposite axis's quad at this axis's origin,
      clamped to `[0, 1]`, drawn only when `axis` is set and the axis
      colour is truthy. */
  function AxisSegment(l: Layout, opp: Layout): Option<Segment>
    requires opp.range > 0.0
  {
    if l.axis && Truthy(l.axisColor) then
      var q := Quad(opp.orientation, Ratio(opp.orientation, l.axisOrigin, opp.offset, opp.range));
      Some(Segment(PixelX(l, Clamp(q[0], 0.0, 1.0)), PixelY(l, Clamp(q[1], 0.0, 1.0)),
                   PixelX(l, Clamp(q[2], 0.0, 1.0)), PixelY(l, Clamp(q[3], 0.0, 1.0)),
                   l.axisColor, 0.5))
    else None
  }

  /** There is an axis line exactly when `axis` is set and the axis colour
      is truthy; it spans the padded area across the opposite axis at
      `axisRatio`, and so stays inside it. */
  lemma AxisLineInside(l: Layout, opp: Layout)
    requires Drawable(l, opp)
    ensures AxisSegment(l, opp).Some? <==> l.axis && Truthy(l.axisColor)
    ensures AxisSegment(l, opp).Some? ==>
      var s := AxisSegment(l, opp).value;
      && l.padding.left <= s.x1 <= l.shape.width - l.padding.right
      && l.padding.left <= s.x2 <= l.shape.width - l.padding.right
      && l.padding.top <= s.y1 <= l.shape.height - l.padding.bottom
      && l.padding.top <= s.y2 <= l.shape.height - l.padding.bottom
    ensures AxisSegment(l, opp).Some? && opp.orientation == Y ==>
      var s := AxisSegment(l, opp).value;
      s.y1 == s.y2 == PixelY(l, AxisRatio(l, opp)) &&
      s.x1 == l.padding.left && s.x2 == l.shape.width - l.padding.right
    ensures AxisSegment(l, opp).Some? && opp.orientation == X ==>
      var s := AxisSegment(l, opp).value;
      s.x1 == s.x2 == PixelX(l, AxisRatio(l, opp)) &&
      s.y1 == l.padding.top && s.y2 == l.shape.height - l.padding.bottom
  {
    if l.axis && Truthy(l.axisColor) {
      var q := Quad(opp.orientation, Ratio(opp.orientation, l.axisOrigin, opp.offset, opp.range));
      PixelInsidePadding(l, Clamp(q[0], 0.0, 1.0), Clamp(q[1], 0.0, 1.0));
      PixelInsidePadding(l, Clamp(q[2], 0.0, 1.0), Clamp(q[3], 0.0, 1.0));
    }
  }

  /** :314-340: one gridline per stop with a truthy colour. */
  method DrawGridlines(l: Layout, coords: seq<real>) returns (gridlines: seq<Segment>)
    requires l.range > 0.0
    requires coords == Coords(l.orientation, Stops(l), l.offset, l.range)
    ensures gridlines == Gridlines(l, |Stops(l)|)
  {
    var stops := Stops(l);
    CoordsShape(l.orientation, stops, l.offset, l.range);
    gridlines := [];
    var j := 0;
    while j < |stops|
      invariant 0 <= j <= |stops|
      invariant gridlines == Gridlines(l, j)
    {
      var color := if j < |l.lists.colors| then l.lists.colors[j] else Null;
      if Truthy(color) {
        var q := coords[4 * j..4 * j + 4];
        assert q == QuadAt(l, j);
        assert color == ColorAt(l, j);
        gridlines := gridlines + [Segment(PixelX(l, q[0]), PixelY(l, q[1]), PixelX(l, q[2]), PixelY(l, q[3]),
                                          color, 1.0)];
      }
      assert Gridlines(l, j + 1) == Gridlines(l, j) + (if Truthy(ColorAt(l, j)) then [Gridline(l, j)] else []);
      j := j + 1;
    }
  }

  /** :357-384: one stop's tick endpoints and label anchor, from its quad
      in `coords`, the clamped `axisRatio` and its tick length. */
  method TickAt(l: Layout, opp: Layout, coords: seq<real>, axisRatio: real, k: nat)
    returns (e: seq<real>, anchor: (real, real))
    requires Drawable(l, opp) && k < |Stops(l)|
    requires |coords| == 4 * |Stops(l)| && coords[4 * k..4 * k + 4] == QuadAt(l, k)
    requires axisRatio == AxisRatio(l, opp)
    ensures e == TickEnds(l, opp, k) && anchor == Anchor(l, opp, k)
  {
    var q := coords[4 * k..4 * k + 4];
    var lengths := l.lists.ticks;
    var t := if k < |lengths| && lengths[k].Length? then lengths[k].length else 0.0;
    assert t == TickLength(l, k);
    e := TickEndsOf(q, axisRatio, t, UsableWidth(l), UsableHeight(l), l.tickAlign);
    anchor := AnchorOf(q, axisRatio);
  }

  /** :341-403: per stop, the tick endpoints and the label anchor; the
      tick is drawn unless the stop sits at the opposite origin.  The
      source's normals, coordinates and drawing loops run over the same
      stops in the same order and are fused here. */
  method DrawTicks(l: Layout, opp: Layout, almost: (real, real) -> bool, coords: seq<real>)
    returns (ticks: seq<Segment>, labelCoords: seq<real>)
    requires Drawable(l, opp)
    requires coords == Coords(l.orientation, Stops(l), l.offset, l.range)
    ensures ticks == Ticks(l, opp, almost, |Stops(l)|)
    ensures labelCoords == Anchors(l, opp, |Stops(l)|)
  {
    var stops := Stops(l);
    CoordsShape(l.orientation, stops, l.offset, l.range);
    var axisRatio := Clamp(Ratio(opp.orientation, l.axisOrigin, opp.offset, opp.range), 0.0, 1.0);
    ticks, labelCoords := [], [];
    var k := 0;
    while k < |stops|
      invariant 0 <= k <= |stops|
      invariant ticks == Ticks(l, opp, almost, k)
      invariant labelCoords == Anchors(l, opp, k)
    {
      assert coords[4 * k..4 * k + 4] == QuadAt(l, k);
      var e, anchor := TickAt(l, opp, coords, axisRatio, k);
      labelCoords := labelCoords + [anchor.0, anchor.1];
      if k < |l.lists.ticks| && !l.lists.ticks[k].ObjectTick? && !almost(stops[k], opp.axisOrigin) {
        ticks := ticks + [Segment(PixelX(l, e[0]), PixelY(l, e[1]), PixelX(l, e[2]), PixelY(l, e[3]),
                                  l.axisColor, 0.5)];
      }
      k := k + 1;
    }
  }

  /** :405-425: the axis line, from the opposite axis's coordinates of
      this axis's origin, clamped to the window. */
  method DrawAxisLine(l: Layout, opp: Layout) returns (axisLine: Option<Segment>)
    requires opp.range > 0.0
    ensures axisLine == AxisSegment(l, opp)
  {
    axisLine := None;
    if l.axis && Truthy(l.axisColor) {
      var ac := GetCoords(opp.orientation, [l.axisOrigin], opp.offset, opp.range);
      assert [l.axisOrigin][0] == l.axisOrigin && ac[0..4] == ac;
      axisLine := Some(Segment(PixelX(l, Clamp(ac[0], 0.0, 1.0)), PixelY(l, Clamp(ac[1], 0.0, 1.0)),
                               PixelX(l, Clamp(ac[2], 0.0, 1.0)), PixelY(l, Clamp(ac[3], 0.0, 1.0)),
                               l.axisColor, 0.5));
    }
  }

  /** `drawLines(state)` (:299-425): the gridlines, the ticks and the axis
      line it adds, and the label anchors it leaves in `labelCoords`. */
  method DrawLines(state: LayoutState, host: Host) returns (drawing: Drawing)
    requires state.opposite != null
    requires Drawable(state.View(), state.opposite.View())
    modifies state`labelCoords
    ensures drawing.gridlines == Gridlines(state.View(), |Stops(state.View())|)
    ensures drawing.ticks == Ticks(state.View(), state.opposite.View(), host.almost, |Stops(state.View())|)
    ensures drawing.axisLine == AxisSegment(state.View(), state.opposite.View())
    ensures state.labelCoords == Anchors(state.View(), state.opposite.View(), |Stops(state.View())|)
  {
    var l, ol := state.View(), state.opposite.View();
    var coords := GetCoords(l.orientation, Stops(l), l.offset, l.range);
    var gridlines := DrawGridlines(l, coords);
    var ticks, labelCoords := DrawTicks(l, ol, host.almost, coords);
    state.labelCoords := labelCoords;
    var axisLine := DrawAxisLine(l, ol);
    drawing := Drawing(gridlines, ticks, axisLine);
  }
}
