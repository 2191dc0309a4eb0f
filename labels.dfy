/**
 * Label placement (`drawLabels` without the 2D context): the position of
 * every label text, from the label anchors `drawLines` leaves in
 * `labelCoords`, pushed off the axis by the text offset and kept on the
 * surface by clamps.
 */
module Labels {
  import opened JsValues
  import opened Axes
  import opened Resolver
  import opened Geometry

  /** A label text placed at `(left, top)`, for the stop at `index`. */
  datatype Placement = Placement(index: nat, text: string, left: real, top: real)

  /** The gap between the axis line and the text, horizontally. */
  function Indent(l: Layout): real
  {
    l.axisWidth + 1.5
  }

  /** The vertical shift of the text off its anchor: above the anchor by
      the text height when ticks lean backwards (`tickAlign < 0.5`),
      below it otherwise. */
  function TextOffset(l: Layout): real
  {
    if l.tickAlign < 0.5 then -l.fontSize - l.axisWidth * 2.0 else l.axisWidth * 2.0
  }

  /** `measureText(label).width` in the state's font. */
  function TextWidth(l: Layout, text: string, host: Host): real
  {
    host.measureText(text, l.fontSize, l.fontFamily)
  }

  /** The clamps of `drawLabels` need ordered bounds: on `y` for every
      label text, on `x` for the text height and offset. */
  predicate ClampBoundsOrdered(l: Layout, host: Host)
  {
    && (l.orientation == X ==> 0.0 <= l.shape.height - l.fontSize - TextOffset(l))
    && (l.orientation == Y ==> forall i :: 0 <= i < |l.lists.labels| && l.lists.labels[i].Some? ==>
          Indent(l) <= l.shape.width - TextWidth(l, l.lists.labels[i].value, host) - 1.0 - l.axisWidth)
  }

  /** Label `i` is drawn when it is not `null`, it has a stop and an
      anchor, and, on a `y` axis whose opposite is enabled (`isOpp`), its
      stop is not at the opposite axis's origin. */
  predicate LabelShown(l: Layout, labelCoords: seq<real>, isOpp: bool, oppOrigin: real,
                       almost: (real, real) -> bool, i: nat)
    requires i < |l.lists.labels|
  {
    && l.lists.labels[i].Some?
    && i < |Stops(l)| && 2 * i + 1 < |labelCoords|
    && !(isOpp && almost(Stops(l)[i], oppOrigin))
  }

  function Place(l: Layout, labelCoords: seq<real>, host: Host, i: nat): Placement
    requires i < |l.lists.labels| && l.lists.labels[i].Some? && 2 * i + 1 < |labelCoords|
    requires ClampBoundsOrdered(l, host)
  {
    var text := l.lists.labels[i].value;
    var indent := Indent(l);
    var left := labelCoords[2 * i] * UsableWidth(l) + indent + l.padding.left;
    var top := labelCoords[2 * i + 1] * UsableHeight(l) + TextOffset(l) + l.padding.top;
    Placement(i, text,
      if l.orientation == Y then Clamp(left, indent, l.shape.width - TextWidth(l, text, host) - 1.0 - l.axisWidth)
      else left,
      if l.orientation == X then Clamp(top, 0.0, l.shape.height - l.fontSize - TextOffset(l))
      else top)
  }

  /** The placements of the first `m` labels. */
  function Placements(l: Layout, labelCoords: seq<real>, isOpp: bool, oppOrigin: real, host: Host, m: nat)
    : seq<Placement>
    requires m <= |l.lists.labels| && ClampBoundsOrdered(l, host)
  {
    if m == 0 then []
    else
      var last := if LabelShown(l, labelCoords, isOpp, oppOrigin, host.almost, m - 1)
                  then [Place(l, labelCoords, host, m - 1)] else [];
      Placements(l, labelCoords, isOpp, oppOrigin, host, m - 1) + last
  }

  function LabelIndices(l: Layout, labelCoords: seq<real>, isOpp: bool, oppOrigin: real,
                        almost: (real, real) -> bool, m: nat): seq<nat>
    requires m <= |l.lists.labels|
  {
    if m == 0 then []
    else
      var last := if LabelShown(l, labelCoords, isOpp, oppOrigin, almost, m - 1) then [m - 1] else [];
      LabelIndices(l, labelCoords, isOpp, oppOrigin, almost, m - 1) + last
  }

  /** One placement per shown label, in label order: `null` labels, labels
      without a stop or an anchor, and (under `isOpp`) labels at the
      opposite origin are skipped, and no others. */
  lemma {:induction false} LabelsAreShown(l: Layout, labelCoords: seq<real>, isOpp: bool, oppOrigin: real,
                                          host: Host, m: nat)
    requires m <= |l.lists.labels| && ClampBoundsOrdered(l, host)
    ensures forall k: nat :: k in LabelIndices(l, labelCoords, isOpp, oppOrigin, host.almost, m) <==>
      && k < m && l.lists.labels[k].Some?
      && k < |Stops(l)| && 2 * k + 1 < |labelCoords|
      && !(isOpp && host.almost(Stops(l)[k], oppOrigin))
    ensures var p, ix := Placements(l, labelCoords, isOpp, oppOrigin, host, m),
                         LabelIndices(l, labelCoords, isOpp, oppOrigin, host.almost, m);
      && |p| == |ix|
      && forall j :: 0 <= j < |ix| ==>
           && ix[j] < m && LabelShown(l, labelCoords, isOpp, oppOrigin, host.almost, ix[j])
           && p[j] == Place(l, labelCoords, host, ix[j])
    ensures var ix := LabelIndices(l, labelCoords, isOpp, oppOrigin, host.almost, m);
      forall i, j :: 0 <= i < j < |ix| ==> ix[i] < ix[j]
  {
    if m > 0 {
      LabelsAreShown(l, labelCoords, isOpp, oppOrigin, host, m - 1);
    }
  }

  /** Where a label goes: on `y` its left edge is clamped between the
      indent and the room its text leaves at the right edge, and its top is
      the anchor shifted by the text offset; on `x` its left edge is the
      anchor plus the indent, and its top is clamped between the top edge
      and the room the text height and offset leave.  The offset is
      `-fontSize - 2 axisWidth` below a `tickAlign` of 0.5 and
      `2 axisWidth` from it on. */
  lemma PlacementBounds(l: Layout, labelCoords: seq<real>, host: Host, i: nat)
    requires i < |l.lists.labels| && l.lists.labels[i].Some? && 2 * i + 1 < |labelCoords|
    requires ClampBoundsOrdered(l, host)
    ensures var p := Place(l, labelCoords, host, i);
      p.index == i && p.text == l.lists.labels[i].value
    ensures var p, w := Place(l, labelCoords, host, i), TextWidth(l, l.lists.labels[i].value, host);
      var left := labelCoords[2 * i] * UsableWidth(l) + Indent(l) + l.padding.left;
      var top := labelCoords[2 * i + 1] * UsableHeight(l) + TextOffset(l) + l.padding.top;
      && (l.orientation == Y ==>
            && Indent(l) <= p.left <= l.shape.width - w - 1.0 - l.axisWidth
            && (Indent(l) <= left <= l.shape.width - w - 1.0 - l.axisWidth ==> p.left == left)
            && p.top == top)
      && (l.orientation == X ==>
            && 0.0 <= p.top <= l.shape.height - l.fontSize - TextOffset(l)
            && (0.0 <= top <= l.shape.height - l.fontSize - TextOffset(l) ==> p.top == top)
            && p.left == left)
    ensures TextOffset(l) == (if l.tickAlign < 0.5 then -l.fontSize - 2.0 * l.axisWidth else 2.0 * l.axisWidth)
  {
  }

  /** The body of the `drawLabels` loop for one shown label: the text
      width, the left edge from the anchor plus indent (clamped on `y`) and
      the top edge from the anchor plus text offset (clamped on `x`). */
  method PlaceLabel(l: Layout, labelCoords: seq<real>, host: Host, i: nat) returns (p: Placement)
    requires i < |l.lists.labels| && l.lists.labels[i].Some? && 2 * i + 1 < |labelCoords|
    requires ClampBoundsOrdered(l, host)
    ensures p == Place(l, labelCoords, host, i)
  {
    var width, height := l.shape.width, l.shape.height;
    var pt, pr, pb, pl := l.padding.top, l.padding.right, l.padding.bottom, l.padding.left;
    var textHeight := l.fontSize;
    var indent := l.axisWidth + 1.5;
    var textOffset := if l.tickAlign < 0.5 then -textHeight - l.axisWidth * 2.0 else l.axisWidth * 2.0;
    var text := l.lists.labels[i].value;
    var textWidth := host.measureText(text, l.fontSize, l.fontFamily);
    assert width - pl - pr == UsableWidth(l) && height - pt - pb == UsableHeight(l);
    var textLeft := labelCoords[i * 2] * (width - pl - pr) + indent + pl;
    if l.orientation == Y {
      assert Indent(l) <= l.shape.width - TextWidth(l, l.lists.labels[i].value, host) - 1.0 - l.axisWidth;
      textLeft := Clamp(textLeft, indent, width - textWidth - 1.0 - l.axisWidth);
    }
    var textTop := labelCoords[i * 2 + 1] * (height - pt - pb) + textOffset + pt;
    if l.orientation == X {
      textTop := Clamp(textTop, 0.0, height - textHeight - textOffset);
    }
    p := Placement(i, text, textLeft, textTop);
  }

  /** `drawLabels(state)` (:431-466): the labels it writes and where.  The
      opposite state is only consulted on a `y` axis. */
  method DrawLabels(state: LayoutState, host: Host) returns (placed: seq<Placement>)
    requires state.coordinate.orientation == Y ==> state.opposite != null
    requires ClampBoundsOrdered(state.View(), host)
    ensures placed == Placements(state.View(), state.labelCoords,
                                 state.coordinate.orientation == Y && !state.opposite.disabled,
                                 if state.coordinate.orientation == Y then state.opposite.coordinate.axisOrigin else 0.0,
                                 host, |state.labels.items|)
  {
    var l := state.View();
    var isOpp := l.orientation == Y && !state.opposite.disabled;
    var oppOrigin := if l.orientation == Y then state.opposite.coordinate.axisOrigin else 0.0;
    var labelCoords := state.labelCoords;
    var stops := Stops(l);
    var labels := l.lists.labels;
    placed := [];
    var i := 0;
    while i < |labels|
      invariant 0 <= i <= |labels|
      invariant placed == Placements(l, labelCoords, isOpp, oppOrigin, host, i)
    {
      if labels[i].Some? && i < |stops| && 2 * i + 1 < |labelCoords| && !(isOpp && host.almost(stops[i], oppOrigin)) {
        var p := PlaceLabel(l, labelCoords, host, i);
        placed := placed + [p];
      }
      i := i + 1;
    }
  }
}
