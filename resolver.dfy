/**
 * Coordinate resolution (`calcCoordinate`): from an axis definition and
 * the surface shape, build the layout state of one axis: the visible
 * window, the resolved style and padding, and the parallel lists of stops,
 * line colours, tick lengths and labels, including the stops that sparse
 * tick and label maps append.
 *
 * The lists of the state are JavaScript arrays.  Where the definition
 * gives an array, the state holds that very array, and the sparse merge
 * pushes into it: resolving mutates the definition.
 */
module Resolver {
  import opened JsValues
  import opened Axes

  /** `padding`: a number, a function of the state (given by its result)
      or an explicit `[top, right, bottom, left]`. */
  datatype PaddingSpec = PadNumber(side: real) | PadFn(result: Padding) | PadSides(sides: Padding)

  /** `fontSize`: a number of pixels or a string with a unit. */
  datatype FontSpec = FontPx(px: real) | FontText(text: string)

  /** `axisColor`: a number is an opacity against `color`; anything else
      is used as a colour value. */
  datatype AxisColorSpec = AxisOpacity(opacity: real) | AxisPaint(paint: Paint)

  /** `lines`: a function (given by its result), an array, a falsy value,
      or `true` (any truthy non-array), which passes through unexpanded. */
  datatype LinesSpec = LinesFn(result: seq<real>) | LinesArray(arr: JsArray<real>) | LinesOff | LinesTrue

  /** `lineColor`: a function, an array, a number (an opacity), `false` or
      `null`, or any other value (which selects `color`). */
  datatype LineColorSpec =
    | ColorsFn(result: seq<Paint>)
    | ColorsArray(arr: JsArray<Paint>)
    | ColorOpacity(opacity: real)
    | ColorOff
    | ColorOther

  /** A sparse map from stop values to properties, in `for ... in`
      enumeration order, each key already parsed with `parseFloat`. */
  type TickEntries = seq<(real, real)>
  type LabelEntries = seq<(real, Option<string>)>

  /** A tick entry: `null` (a zero-length tick), a length, or an object.
      The object is what a plain-object `ticks` option becomes when it is
      broadcast: arithmetic on it gives NaN. */
  datatype Tick = NullTick | Length(length: real) | ObjectTick

  /** What a `ticks` function returns: a parallel array or a sparse map. */
  datatype TicksResult = TickList(values: seq<Tick>) | TickMapResult(entries: TickEntries)

  /** `ticks`: a function, an array, `true`, a number, a falsy value, or a
      plain object mapping stop values to tick lengths. */
  datatype TicksSpec =
    | TicksFn(result: TicksResult)
    | TicksArray(arr: JsArray<Tick>)
    | TicksTrue
    | TicksNumber(length: real)
    | TicksOff
    | TicksMap(entries: TickEntries)

  datatype LabelsResult = LabelList(values: seq<Option<string>>) | LabelMapResult(entries: LabelEntries)

  /** `labels`: `true`, a function, an array, a plain object mapping stop
      values to texts, or anything else (no labels). */
  datatype LabelsSpec =
    | LabelsTrue
    | LabelsFn(result: LabelsResult)
    | LabelsArray(arr: JsArray<Option<string>>)
    | LabelsMap(entries: LabelEntries)
    | LabelsOff

  /** The exceptions resolution throws: `labels: true` reads the undeclared
      `sublines`; pushing a map key into `lines` fails when `lines` passed
      through as `true`. */
  datatype ResolveError = LabelsTrueUndefined | PushIntoNonArray

  datatype Result<T> = Success(value: T) | Failure(error: ResolveError)

  /** `state.lines`: an array, or the non-array value `true` passed through. */
  datatype Lines = LineArray(arr: JsArray<real>) | NotAnArray

  /** The contents of the arrays an axis definition holds (empty where it
      holds none). */
  datatype ArrayContents = ArrayContents(
    lines: seq<real>, colors: seq<Paint>, ticks: seq<Tick>, labels: seq<Option<string>>)

  /** The four parallel lists of a layout state, by value. */
  datatype Lists = Lists(
    lines: Option<seq<real>>, colors: seq<Paint>, ticks: seq<Tick>, labels: seq<Option<string>>)

  /** A layout state by value. */
  datatype Layout = Layout(
    orientation: Orientation, axis: bool, axisOrigin: real,
    shape: Shape, range: real, offset: real, zoom: real,
    axisColor: Paint, axisWidth: real, lineWidth: real, tickAlign: real,
    padding: Padding, fontSize: real, fontFamily: string,
    lists: Lists)

  /** An axis definition (merged defaults and options), mutated in place:
      by pan/zoom (offset, zoom) and by the pushes of resolution into the
      arrays it holds. */
  class AxisDef {
    const orientation: Orientation
    var min: Option<real>
    var max: Option<real>
    var offset: real
    var zoom: real
    var axis: bool
    var axisOrigin: real
    var color: Paint
    var axisColor: AxisColorSpec
    var axisWidth: real
    var lineWidth: real
    var tickAlign: real
    var padding: PaddingSpec
    var fontSize: FontSpec
    var fontFamily: string
    var lines: LinesSpec
    var lineColor: LineColorSpec
    var ticks: TicksSpec
    var labels: LabelsSpec

    constructor (orientation: Orientation)
      ensures this.orientation == orientation
    {
      this.orientation := orientation;
    }

    /** The arrays this definition holds. */
    ghost function Arrays(): set<object>
      reads this
    {
      (if lines.LinesArray? then {lines.arr as object} else {}) +
      (if lineColor.ColorsArray? then {lineColor.arr as object} else {}) +
      (if ticks.TicksArray? then {ticks.arr as object} else {}) +
      (if labels.LabelsArray? then {labels.arr as object} else {})
    }

    ghost function Contents(): ArrayContents
      reads this, Arrays()
    {
      ArrayContents(
        if lines.LinesArray? then lines.arr.items else [],
        if lineColor.ColorsArray? then lineColor.arr.items else [],
        if ticks.TicksArray? then ticks.arr.items else [],
        if labels.LabelsArray? then labels.arr.items else [])
    }

    /** The contents read only the four array options and their arrays:
        moving the definition's offset or zoom, or writing anything else,
        leaves them alone. */
    twostate lemma ContentsFramed()
      requires lines == old(lines) && lineColor == old(lineColor)
      requires ticks == old(ticks) && labels == old(labels)
      requires unchanged(Arrays())
      ensures Contents() == old(Contents())
    {
    }

    /** A pan/zoom move (:49-53): only the offset and the zoom change. */
    method MoveTo(offset: real, zoom: real)
      modifies this`offset, this`zoom
      ensures this.offset == offset && this.zoom == zoom
      ensures Contents() == old(Contents())
    {
      this.offset := offset;
      this.zoom := zoom;
      ContentsFramed();
    }
  }

  /** A layout state, as `calcCoordinate` returns it.  The resolved values
      are fixed at construction; `opposite` and `labelCoords` are set later
      by the grid and by `drawLines`; `disabled` is read by `drawLabels`
      but nothing in the grid sets it. */
  class LayoutState {
    const coordinate: AxisDef
    const shape: Shape
    const range: real
    const offset: real
    const zoom: real
    const axisColor: Paint
    const axisWidth: real
    const lineWidth: real
    const tickAlign: real
    const padding: Padding
    const fontSize: real
    const fontFamily: string
    const lines: Lines
    const lineColors: JsArray<Paint>
    const ticks: JsArray<Tick>
    const labels: JsArray<Option<string>>
    var opposite: LayoutState?
    var labelCoords: seq<real>
    var disabled: bool

    constructor (coordinate: AxisDef, shape: Shape, range: real, offset: real, zoom: real,
                 axisColor: Paint, axisWidth: real, lineWidth: real, tickAlign: real,
                 padding: Padding, fontSize: real, fontFamily: string,
                 lines: Lines, lineColors: JsArray<Paint>, ticks: JsArray<Tick>,
                 labels: JsArray<Option<string>>)
      ensures this.coordinate == coordinate && this.shape == shape
      ensures this.range == range && this.offset == offset && this.zoom == zoom
      ensures this.axisColor == axisColor && this.axisWidth == axisWidth
      ensures this.lineWidth == lineWidth && this.tickAlign == tickAlign
      ensures this.padding == padding && this.fontSize == fontSize && this.fontFamily == fontFamily
      ensures this.lines == lines && this.lineColors == lineColors
      ensures this.ticks == ticks && this.labels == labels
      ensures opposite == null && labelCoords == [] && !disabled
    {
      this.coordinate := coordinate;
      this.shape := shape;
      this.range := range;
      this.offset := offset;
      this.zoom := zoom;
      this.axisColor := axisColor;
      this.axisWidth := axisWidth;
      this.lineWidth := lineWidth;
      this.tickAlign := tickAlign;
      this.padding := padding;
      this.fontSize := fontSize;
      this.fontFamily := fontFamily;
      this.lines := lines;
      this.lineColors := lineColors;
      this.ticks := ticks;
      this.labels := labels;
      opposite := null;
      labelCoords := [];
      disabled := false;
    }

    /** The arrays the state holds. */
    function Repr(): set<object>
    {
      (if lines.LineArray? then {lines.arr as object} else {}) +
      {lineColors as object, ticks as object, labels as object}
    }

    function Contents(): Lists
      reads Repr()
    {
      Lists(if lines.LineArray? then Some(lines.arr.items) else None,
            lineColors.items, ticks.items, labels.items)
    }

    /** The state by value; `axis` and `axisOrigin` are read from the
      definition, as the source reads them through `state.coordinate`. */
    function View(): Layout
      reads coordinate, Repr()
    {
      Layout(coordinate.orientation, coordinate.axis, coordinate.axisOrigin,
             shape, range, offset, zoom, axisColor, axisWidth, lineWidth, tickAlign,
             padding, fontSize, fontFamily, Contents())
    }

    /** The view reads only the definition's `axis` and `axisOrigin`, so
        moving the definition's offset or zoom leaves it alone. */
    twostate lemma ViewKeptOverMove()
      requires unchanged(lineColors, ticks, labels)
      requires lines.LineArray? ==> unchanged(lines.arr)
      requires coordinate.axis == old(coordinate.axis) && coordinate.axisOrigin == old(coordinate.axisOrigin)
      ensures View() == old(View())
    {
    }
  }

  // ---------------------------------------------------------------------
  // The individual resolution rules, by value.

  /** Offset clamp: the window `[offset, offset + range]` is centred on the
      declared offset (the origin is fixed at 0.5) and pushed inside
      `[min, max]`. */
  function ResolvedOffset(offset: real, range: real, min: Option<real>, max: Option<real>): (r: real)
    requires min.Some? && max.Some? ==> min.value <= max.value - range
    ensures min.Some? ==> min.value <= r
    ensures max.Some? ==> r + range <= max.value
    ensures ((min.None? || min.value <= offset - range / 2.0) &&
             (max.None? || offset + range / 2.0 <= max.value)) ==> r == offset - range / 2.0
    ensures min.Some? && offset - range / 2.0 < min.value ==> r == min.value
    ensures max.Some? && offset + range / 2.0 > max.value ==> r == max.value - range
  {
    ClampBounds(offset - range * Clamp(0.5, 0.0, 1.0), min,
                if max.Some? then Some(max.value - range) else None)
  }

  /** :72-75: a numeric `axisColor` is an opacity applied to `color`;
      otherwise `axisColor || color`. */
  function AxisColorOf(spec: AxisColorSpec, color: Paint, alpha: (Paint, real) -> Paint): (r: Paint)
    ensures spec.AxisOpacity? ==> r == alpha(color, spec.opacity)
    ensures spec.AxisPaint? && Truthy(spec.paint) ==> r == spec.paint
    ensures spec.AxisPaint? && !Truthy(spec.paint) ==> r == color
  {
    match spec
    case AxisOpacity(a) => alpha(color, a)
    case AxisPaint(p) => if Truthy(p) then p else color
  }

  /** :76: `axisWidth || lineWidth`; 0 is the only falsy number here. */
  function AxisWidthOf(axisWidth: real, lineWidth: real): (r: real)
    ensures axisWidth != 0.0 ==> r == axisWidth
    ensures axisWidth == 0.0 ==> r == lineWidth
  {
    if axisWidth != 0.0 then axisWidth else lineWidth
  }

  /** Padding: a number stands for four equal sides. */
  function PaddingOf(spec: PaddingSpec): (p: Padding)
    ensures spec.PadNumber? ==> p.top == p.right == p.bottom == p.left == spec.side
    ensures !spec.PadNumber? ==> p == (if spec.PadFn? then spec.result else spec.sides)
  {
    match spec
    case PadNumber(side) => Padding(side, side, side, side)
    case PadFn(result) => result
    case PadSides(sides) => sides
  }

  /** :89-94: a number is a size in pixels; a string is parsed into a
      number and a unit, and the unit converted to pixels. */
  function FontSizeOf(spec: FontSpec, host: Host): (r: real)
    ensures spec.FontPx? ==> r == spec.px
    ensures spec.FontText? ==> r == host.parseUnit(spec.text).0 * host.toPx(host.parseUnit(spec.text).1)
  {
    match spec
    case FontPx(px) => px
    case FontText(text) =>
      var units := host.parseUnit(text);
      units.0 * host.toPx(units.1)
  }

  /** :95: `fontFamily || 'sans-serif'`. */
  function FontFamilyOf(family: string): (r: string)
    ensures r != ""
    ensures family != "" ==> r == family
    ensures family == "" ==> r == "sans-serif"
  {
    if family == "" then "sans-serif" else family
  }

  /** The stops before the merge: `held` is the content of the
      definition's array. `None` is the non-array `true`. */
  function InitialLines(spec: LinesSpec, held: seq<real>): Option<seq<real>>
  {
    match spec
    case LinesFn(result) => Some(result)
    case LinesArray(_) => Some(held)
    case LinesOff => Some([])
    case LinesTrue => None
  }

  /** `Array(lines.length)`: the stop count, or one entry when `lines` is
      not an array (`Array(undefined)` is `[undefined]`). */
  function BroadcastCount(lines: Option<seq<real>>): nat
  {
    if lines.Some? then |lines.value| else 1
  }

  function ScalarLineColor(spec: LineColorSpec, color: Paint, alpha: (Paint, real) -> Paint): Paint
  {
    match spec
    case ColorOpacity(a) => alpha(color, a)
    case ColorOff => Null
    case _ => color
  }

  /** Line colours: a function's result or the held array pass through; a
      scalar is broadcast to one colour per line: `false`/`null` to
      `null`, a number to `color` at that opacity, anything else to
      `color`. */
  function InitialColors(spec: LineColorSpec, held: seq<Paint>, color: Paint,
                         alpha: (Paint, real) -> Paint, n: nat): (r: seq<Paint>)
    ensures spec.ColorsFn? ==> r == spec.result
    ensures spec.ColorsArray? ==> r == held
    ensures !spec.ColorsFn? && !spec.ColorsArray? ==> |r| == n
    ensures spec.ColorOff? ==> forall i :: 0 <= i < n ==> r[i] == Null
    ensures spec.ColorOther? ==> forall i :: 0 <= i < n ==> r[i] == color
    ensures spec.ColorOpacity? ==> forall i :: 0 <= i < n ==> r[i] == alpha(color, spec.opacity)
  {
    match spec
    case ColorsFn(result) => result
    case ColorsArray(_) => held
    case _ => Broadcast(n, ScalarLineColor(spec, color, alpha))
  }

  /** The sparse tick map the merge reads.  Only a map that a `ticks`
      function returned reaches it: :119-128 send a plain-object `ticks`
      option down the scalar branch (`coord.ticks || 0` is the object
      itself), and the broadcast array is no plain object. */
  function TickMap(spec: TicksSpec): Option<TickEntries>
  {
    match spec
    case TicksFn(TickMapResult(entries)) => Some(entries)
    case _ => None
  }

  /** The evidently intended reading of a plain-object `ticks` option: as a
      sparse map, the way a plain-object `labels` option is read
      (:137-138), and the way a `ticks` function returning that map is. */
  function IntendedTicks(spec: TicksSpec): (r: TicksSpec)
    ensures !r.TicksMap?
    ensures spec.TicksMap? ==> TickMap(r) == Some(spec.entries)
    ensures !spec.TicksMap? ==> r == spec
  {
    match spec
    case TicksMap(entries) => TicksFn(TickMapResult(entries))
    case _ => spec
  }

  function LabelMap(spec: LabelsSpec): Option<LabelEntries>
  {
    match spec
    case LabelsFn(LabelMapResult(entries)) => Some(entries)
    case LabelsMap(entries) => Some(entries)
    case _ => None
  }

  function ScalarTick(spec: TicksSpec, axisWidth: real): Tick
  {
    match spec
    case TicksTrue => Length(axisWidth * 2.0)
    case TicksNumber(length) => Length(length)
    case TicksMap(_) => ObjectTick
    case _ => Length(0.0)
  }

  /** Tick lengths before the merge: with a sparse map every line gets 0;
      otherwise a function's list or the held array pass through, and a
      scalar is broadcast: `true` to twice the axis width, a number to
      itself, a falsy value to 0, and a plain object to itself. */
  function InitialTicks(spec: TicksSpec, held: seq<Tick>, axisWidth: real, n: nat): (r: seq<Tick>)
    ensures TickMap(spec).Some? ==> r == Broadcast(n, Length(0.0))
    ensures spec.TicksFn? && spec.result.TickList? ==> r == spec.result.values
    ensures spec.TicksArray? ==> r == held
    ensures spec.TicksTrue? ==> r == Broadcast(n, Length(axisWidth * 2.0))
    ensures spec.TicksNumber? ==> r == Broadcast(n, Length(spec.length))
    ensures spec.TicksOff? ==> r == Broadcast(n, Length(0.0))
    ensures spec.TicksMap? ==> r == Broadcast(n, ObjectTick)
  {
    if TickMap(spec).Some? then Broadcast(n, Length(0.0))
    else match spec
      case TicksFn(result) => result.values
      case TicksArray(_) => held
      case _ => Broadcast(n, ScalarTick(spec, axisWidth))
  }

  /** Labels before the merge: with a sparse map every line gets `null`;
      a function's list or the held array pass through; anything else is
      `null` per line. */
  function InitialLabels(spec: LabelsSpec, held: seq<Option<string>>, n: nat): (r: seq<Option<string>>)
    ensures LabelMap(spec).Some? || spec.LabelsOff? || spec.LabelsTrue? ==> r == Broadcast(n, None)
    ensures spec.LabelsFn? && spec.result.LabelList? ==> r == spec.result.values
    ensures spec.LabelsArray? ==> r == held
  {
    match spec
    case LabelsFn(LabelList(values)) => values
    case LabelsArray(_) => held
    case _ => Broadcast(n, None)
  }

  function Keys<V>(m: seq<(real, V)>): (r: seq<real>)
    ensures |r| == |m|
    ensures forall i :: 0 <= i < |m| ==> r[i] == m[i].0
  {
    seq(|m|, i requires 0 <= i < |m| => m[i].0)
  }

  function TickValues(m: TickEntries): (r: seq<Tick>)
    ensures |r| == |m|
    ensures forall i :: 0 <= i < |m| ==> r[i] == Length(m[i].1)
  {
    seq(|m|, i requires 0 <= i < |m| => Length(m[i].1))
  }

  function LabelValues(m: LabelEntries): (r: seq<Option<string>>)
    ensures |r| == |m|
    ensures forall i :: 0 <= i < |m| ==> r[i] == m[i].1
  {
    seq(|m|, i requires 0 <= i < |m| => m[i].1)
  }

  /** The sparse merge (:150-165): every tick-map key, then every
      label-map key, becomes an extra stop with a `null` colour and `null`
      for the property its map does not give. */
  function MergeSparse(l: Lists, tm: TickEntries, lm: LabelEntries): (r: Lists)
    requires l.lines.Some? || |tm| + |lm| == 0
    ensures r.lines.Some? <==> l.lines.Some?
  {
    Lists(if l.lines.Some? then Some(l.lines.value + Keys(tm) + Keys(lm)) else None,
          l.colors + Broadcast(|tm|, Null) + Broadcast(|lm|, Null),
          l.ticks + TickValues(tm) + Broadcast(|lm|, NullTick),
          l.labels + Broadcast(|tm|, None) + LabelValues(lm))
  }

  /** The merge keeps the four lists as they were and appends, per key,
      one entry to each: the key to the stops, `null` to the colours, the
      map's value to its own list and `null` to the other. */
  lemma MergeSparseAppends(l: Lists, tm: TickEntries, lm: LabelEntries)
    requires l.lines.Some? || |tm| + |lm| == 0
    ensures var r := MergeSparse(l, tm, lm);
      && (r.lines.Some? ==> |r.lines.value| == |l.lines.value| + |tm| + |lm|)
      && |r.colors| == |l.colors| + |tm| + |lm|
      && |r.ticks| == |l.ticks| + |tm| + |lm|
      && |r.labels| == |l.labels| + |tm| + |lm|
      && (r.lines.Some? ==> r.lines.value[..|l.lines.value|] == l.lines.value)
      && r.colors[..|l.colors|] == l.colors
      && r.ticks[..|l.ticks|] == l.ticks
      && r.labels[..|l.labels|] == l.labels
    ensures var r := MergeSparse(l, tm, lm);
      forall k :: 0 <= k < |tm| ==>
        && (r.lines.Some? ==> r.lines.value[|l.lines.value| + k] == tm[k].0)
        && r.colors[|l.colors| + k] == Null
        && r.ticks[|l.ticks| + k] == Length(tm[k].1)
        && r.labels[|l.labels| + k] == None
    ensures var r := MergeSparse(l, tm, lm);
      forall k :: 0 <= k < |lm| ==>
        && (r.lines.Some? ==> r.lines.value[|l.lines.value| + |tm| + k] == lm[k].0)
        && r.colors[|l.colors| + |tm| + k] == Null
        && r.ticks[|l.ticks| + |tm| + k] == NullTick
        && r.labels[|l.labels| + |tm| + k] == lm[k].1
  {
  }

  function EntriesOr<E>(m: Option<seq<E>>): seq<E>
  {
    if m.Some? then m.value else []
  }

  // ---------------------------------------------------------------------
  // Whole resolution, by value.

  /** The clamp of the offset needs ordered bounds. */
  predicate WindowFits(d: AxisDef, shape: Shape)
    reads d
  {
    d.min.Some? && d.max.Some? ==> d.min.value <= d.max.value - Range(d.orientation, shape, d.zoom)
  }

  /** No sparse map reaches the merge, so resolving pushes nothing. */
  predicate NoSparseMaps(d: AxisDef)
    reads d
  {
    TickMap(d.ticks).None? && LabelMap(d.labels).None?
  }

  /** The exception resolving `d` throws, if any.  It depends on the
      kinds of the options only, never on the contents of the arrays:
      `labels: true` always throws, and a sparse map with `lines: true`
      throws at its first key. */
  function Failing(d: AxisDef): Option<ResolveError>
    reads d
  {
    if d.labels.LabelsTrue? then Some(LabelsTrueUndefined)
    else if d.lines.LinesTrue? && |EntriesOr(TickMap(d.ticks))| + |EntriesOr(LabelMap(d.labels))| > 0
    then Some(PushIntoNonArray)
    else None
  }

  /** `calcCoordinate` by value, reading the definition's own fields except
      `ticks`, which is given as `ticks`, and taking the contents of its
      arrays as `c`. */
  function ResolvedWith(d: AxisDef, ticks: TicksSpec, c: ArrayContents, shape: Shape, host: Host): Result<Layout>
    requires WindowFits(d, shape)
    reads d
  {
    if d.labels.LabelsTrue? then Failure(LabelsTrueUndefined)
    else
      var range := Range(d.orientation, shape, d.zoom);
      var offset := ResolvedOffset(d.offset, range, d.min, d.max);
      var axisWidth := AxisWidthOf(d.axisWidth, d.lineWidth);
      var lines := InitialLines(d.lines, c.lines);
      var n := BroadcastCount(lines);
      var tm := EntriesOr(TickMap(ticks));
      var lm := EntriesOr(LabelMap(d.labels));
      if lines.None? && |tm| + |lm| > 0 then Failure(PushIntoNonArray)
      else
        var initial := Lists(lines, InitialColors(d.lineColor, c.colors, d.color, host.alpha, n),
                             InitialTicks(ticks, c.ticks, axisWidth, n),
                             InitialLabels(d.labels, c.labels, n));
        Success(Layout(d.orientation, d.axis, d.axisOrigin, shape, range, offset, d.zoom,
                       AxisColorOf(d.axisColor, d.color, host.alpha), axisWidth, d.lineWidth, d.tickAlign,
                       PaddingOf(d.padding), FontSizeOf(d.fontSize, host), FontFamilyOf(d.fontFamily),
                       MergeSparse(initial, tm, lm)))
  }

  /** `calcCoordinate` by value, as written, from array contents `c`. */
  function Resolved(d: AxisDef, c: ArrayContents, shape: Shape, host: Host): (r: Result<Layout>)
    requires WindowFits(d, shape)
    reads d
    ensures r.Failure? <==> (d.labels.LabelsTrue? ||
      (d.lines.LinesTrue? && |EntriesOr(TickMap(d.ticks))| + |EntriesOr(LabelMap(d.labels))| > 0))
    ensures r.Failure? <==> Failing(d).Some?
    ensures r.Failure? ==> r.error == Failing(d).value
    ensures r.Success? ==> (r.value.lists.lines.Some? <==> !d.lines.LinesTrue?)
  {
    ResolvedWith(d, d.ticks, c, shape, host)
  }

  /** `calcCoordinate` as evidently intended: a plain-object `ticks` option
      is a sparse map whose keys join the stops, as for `labels`; every
      other option reads as written. */
  function IntendedResolved(d: AxisDef, c: ArrayContents, shape: Shape, host: Host): (r: Result<Layout>)
    requires WindowFits(d, shape)
    reads d
    ensures !d.ticks.TicksMap? ==> r == Resolved(d, c, shape, host)
    ensures d.ticks.TicksMap? && !d.labels.LabelsTrue? && !d.lines.LinesTrue? ==>
      && r.Success?
      && r.value.lists.lines.Some?
      && r.value.lists.lines.value ==
           InitialLines(d.lines, c.lines).value + Keys(d.ticks.entries) + Keys(EntriesOr(LabelMap(d.labels)))
      && r.value.lists.ticks ==
           Broadcast(BroadcastCount(InitialLines(d.lines, c.lines)), Length(0.0)) + TickValues(d.ticks.entries)
           + Broadcast(|EntriesOr(LabelMap(d.labels))|, NullTick)
    ensures d.ticks.TicksMap? && d.lines.LinesTrue? && |d.ticks.entries| > 0 ==> r.Failure?
  {
    ResolvedWith(d, IntendedTicks(d.ticks), c, shape, host)
  }

  /** What the definition's arrays hold after resolving it from contents
      `c`: each array the state shares receives the merged list. */
  function AfterContents(d: AxisDef, c: ArrayContents, shape: Shape, host: Host): ArrayContents
    requires WindowFits(d, shape)
    reads d
  {
    var r := Resolved(d, c, shape, host);
    if r.Failure? then c
    else ArrayContents(
      if d.lines.LinesArray? then r.value.lists.lines.value else c.lines,
      if d.lineColor.ColorsArray? then r.value.lists.colors else c.colors,
      if d.ticks.TicksArray? then r.value.lists.ticks else c.ticks,
      if d.labels.LabelsArray? then r.value.lists.labels else c.labels)
  }

  /** Without sparse maps, resolving leaves the definition's arrays as
      they were, so resolving again gives the same layout state. */
  lemma ResolveWithoutMapsIsIdempotent(d: AxisDef, c: ArrayContents, shape: Shape, host: Host)
    requires WindowFits(d, shape) && NoSparseMaps(d)
    ensures AfterContents(d, c, shape, host) == c
    ensures Resolved(d, AfterContents(d, c, shape, host), shape, host) == Resolved(d, c, shape, host)
  {
    var r := Resolved(d, c, shape, host);
    if r.Success? {
      var lines := InitialLines(d.lines, c.lines);
      var n := BroadcastCount(lines);
      var initial := Lists(lines, InitialColors(d.lineColor, c.colors, d.color, host.alpha, n),
                           InitialTicks(d.ticks, c.ticks, AxisWidthOf(d.axisWidth, d.lineWidth), n),
                           InitialLabels(d.labels, c.labels, n));
      assert r.value.lists == MergeSparse(initial, [], []);
      MergeSparseEmpty(initial);
    }
  }

  lemma MergeSparseEmpty(l: Lists)
    ensures MergeSparse(l, [], []) == l
  {
    var r := MergeSparse(l, [], []);
    assert Keys<real>([]) == [] && Keys<Option<string>>([]) == [];
    assert Broadcast<Paint>(0, Null) == [];
    assert TickValues([]) == [] && LabelValues([]) == [];
    assert Broadcast<Tick>(0, NullTick) == [] && Broadcast<Option<string>>(0, None) == [];
    if l.lines.Some? {
      assert l.lines.value + [] + [] == l.lines.value;
    }
    assert l.colors + [] + [] == l.colors;
    assert l.ticks + [] + [] == l.ticks;
    assert l.labels + [] + [] == l.labels;
  }

  /** With sparse maps and a `lines` array of the definition's own,
      resolving is not idempotent: every resolution pushes the map keys
      into the definition's array again, so the next one sees them twice. */
  lemma {:induction false} ReResolveRepeatsKeys(d: AxisDef, c: ArrayContents, shape: Shape, host: Host)
    requires WindowFits(d, shape) && d.lines.LinesArray? && Failing(d).None?
    ensures var tm, lm := EntriesOr(TickMap(d.ticks)), EntriesOr(LabelMap(d.labels));
      var r1 := Resolved(d, c, shape, host);
      var r2 := Resolved(d, AfterContents(d, c, shape, host), shape, host);
      && r1.Success? && r2.Success?
      && r1.value.lists.lines == Some(c.lines + Keys(tm) + Keys(lm))
      && r2.value.lists.lines == Some(c.lines + Keys(tm) + Keys(lm) + Keys(tm) + Keys(lm))
  {
    var r1 := Resolved(d, c, shape, host);
    var c2 := AfterContents(d, c, shape, host);
    assert c2.lines == r1.value.lists.lines.value;
  }

  /** Where none of `lineColor`, `ticks` and `labels` is an array or a
      function, the four lists are parallel: one colour, one tick and one
      label per stop. */
  lemma BroadcastListsAreParallel(d: AxisDef, c: ArrayContents, shape: Shape, host: Host)
    requires WindowFits(d, shape) && Failing(d).None? && !d.lines.LinesTrue?
    requires !d.lineColor.ColorsFn? && !d.lineColor.ColorsArray?
    requires !d.ticks.TicksArray? && !(d.ticks.TicksFn? && d.ticks.result.TickList?)
    requires !d.labels.LabelsArray? && !(d.labels.LabelsFn? && d.labels.result.LabelList?)
    ensures var r := Resolved(d, c, shape, host);
      && r.Success? && r.value.lists.lines.Some?
      && |r.value.lists.colors| == |r.value.lists.ticks| == |r.value.lists.labels|
         == |r.value.lists.lines.value|
  {
    var lines := InitialLines(d.lines, c.lines);
    var n := BroadcastCount(lines);
    var tm, lm := EntriesOr(TickMap(d.ticks)), EntriesOr(LabelMap(d.labels));
    var initial := Lists(lines, InitialColors(d.lineColor, c.colors, d.color, host.alpha, n),
                         InitialTicks(d.ticks, c.ticks, AxisWidthOf(d.axisWidth, d.lineWidth), n),
                         InitialLabels(d.labels, c.labels, n));
    assert |initial.ticks| == n by {
      if TickMap(d.ticks).None? {
        assert d.ticks.TicksTrue? || d.ticks.TicksNumber? || d.ticks.TicksOff? || d.ticks.TicksMap?;
      }
    }
    MergeSparseAppends(initial, tm, lm);
  }

  /** Read as intended, a tick map `{1.5: 10}` over the stops `[0, 1, 2]`
      appends the stop 1.5 with tick 10 and gives the original stops tick 0. */
  lemma SparseTicksExample(d: AxisDef, c: ArrayContents, shape: Shape, host: Host)
    requires WindowFits(d, shape) && d.lines.LinesArray? && c.lines == [0.0, 1.0, 2.0]
    requires d.ticks == TicksMap([(1.5, 10.0)]) && d.labels == LabelsOff
    ensures var r := IntendedResolved(d, c, shape, host);
      && r.Success?
      && r.value.lists.lines == Some([0.0, 1.0, 2.0, 1.5])
      && r.value.lists.ticks == [Length(0.0), Length(0.0), Length(0.0), Length(10.0)]
      && r.value.lists.labels == [None, None, None, None]
  {
    var tm: TickEntries := [(1.5, 10.0)];
    var lm: LabelEntries := [];
    assert Keys(tm) == [1.5] && Keys(lm) == [];
    assert [0.0, 1.0, 2.0] + [1.5] + [] == [0.0, 1.0, 2.0, 1.5];
    assert TickValues(tm) == [Length(10.0)];
    assert Broadcast(3, Length(0.0)) == [Length(0.0), Length(0.0), Length(0.0)];
    assert Broadcast<Tick>(0, NullTick) == [];
    assert Broadcast<Option<string>>(3, None) + Broadcast(1, None) == [None, None, None, None];
  }

  /** As written, the same plain-object tick map never reaches the merge
      (:119-128 broadcast the object itself): the stops stay `[0, 1, 2]`,
      each with the object as its tick, and the definition's stop array is
      left as it was. */
  lemma SparseTicksLostAsWritten(d: AxisDef, c: ArrayContents, shape: Shape, host: Host)
    requires WindowFits(d, shape) && d.lines.LinesArray? && c.lines == [0.0, 1.0, 2.0]
    requires d.ticks == TicksMap([(1.5, 10.0)]) && d.labels == LabelsOff
    ensures var r := Resolved(d, c, shape, host);
      && r.Success?
      && r.value.lists.lines == Some([0.0, 1.0, 2.0])
      && r.value.lists.ticks == [ObjectTick, ObjectTick, ObjectTick]
      && r.value.lists.labels == [None, None, None]
    ensures AfterContents(d, c, shape, host) == c
  {
    var initial := Lists(Some(c.lines), InitialColors(d.lineColor, c.colors, d.color, host.alpha, 3),
                         Broadcast(3, ObjectTick), Broadcast(3, None));
    MergeSparseEmpty(initial);
    assert Broadcast(3, ObjectTick) == [ObjectTick, ObjectTick, ObjectTick];
    assert Broadcast<Option<string>>(3, None) == [None, None, None];
  }

  /** As written, a plain-object tick map over non-array stops (`lines:
      true`) resolves, to one stop entry whose tick is the object; read as
      intended, its first key is pushed into `true` and throws. */
  lemma PlainTickMapOverTrueLines(d: AxisDef, c: ArrayContents, shape: Shape, host: Host)
    requires WindowFits(d, shape) && d.lines == LinesTrue
    requires d.ticks == TicksMap([(1.5, 10.0)]) && d.labels == LabelsOff
    ensures var r := Resolved(d, c, shape, host);
      && r.Success? && r.value.lists.lines == None
      && r.value.lists.ticks == [ObjectTick] && r.value.lists.labels == [None]
    ensures IntendedResolved(d, c, shape, host).Failure?
  {
    var initial := Lists(None, InitialColors(d.lineColor, c.colors, d.color, host.alpha, 1),
                         Broadcast(1, ObjectTick), Broadcast(1, None));
    MergeSparseEmpty(initial);
    assert Broadcast(1, ObjectTick) == [ObjectTick];
    assert Broadcast<Option<string>>(1, None) == [None];
  }

  // ---------------------------------------------------------------------
  // calcCoordinate

  /** :97-103: the state's stop array: a function's result or `[]` in a
      new array, the definition's own array, or `true` passed through. */
  method NewLines(spec: LinesSpec) returns (lines: Lines)
    ensures lines.NotAnArray? <==> spec.LinesTrue?
    ensures spec.LinesArray? ==> lines == LineArray(spec.arr)
    ensures !spec.LinesArray? && lines.LineArray? ==> fresh(lines.arr)
    ensures lines.LineArray? ==>
      Some(lines.arr.items) == InitialLines(spec, if spec.LinesArray? then spec.arr.items else [])
  {
    match spec {
      case LinesFn(result) =>
        var a := new JsArray(result);
        lines := LineArray(a);
      case LinesArray(a) =>
        lines := LineArray(a);
      case LinesOff =>
        var a := new JsArray([]);
        lines := LineArray(a);
      case LinesTrue =>
        lines := NotAnArray;
    }
  }

  /** :104-117: the state's colour array. */
  method NewColors(spec: LineColorSpec, color: Paint, alpha: (Paint, real) -> Paint, n: nat)
    returns (colors: JsArray<Paint>)
    ensures if spec.ColorsArray? then colors == spec.arr else fresh(colors)
    ensures colors.items ==
      InitialColors(spec, if spec.ColorsArray? then spec.arr.items else [], color, alpha, n)
  {
    match spec {
      case ColorsFn(result) =>
        colors := new JsArray(result);
      case ColorsArray(a) =>
        colors := a;
      case _ =>
        colors := new JsArray(Broadcast(n, ScalarLineColor(spec, color, alpha)));
    }
  }

  /** :118-129 and :144-146: the state's tick array; a sparse map
      replaces it with zeros. */
  method NewTicks(spec: TicksSpec, axisWidth: real, n: nat) returns (ticks: JsArray<Tick>)
    ensures if spec.TicksArray? then ticks == spec.arr else fresh(ticks)
    ensures ticks.items ==
      InitialTicks(spec, if spec.TicksArray? then spec.arr.items else [], axisWidth, n)
  {
    match spec {
      case TicksFn(result) =>
        ticks := new JsArray(if result.TickList? then result.values else []);
      case TicksArray(a) =>
        ticks := a;
      case _ =>
        ticks := new JsArray(Broadcast(n, ScalarTick(spec, axisWidth)));
    }
    if TickMap(spec).Some? {
      ticks := new JsArray(Broadcast(n, Length(0.0)));
    }
  }

  /** :130-142 and :147-149: the state's label array; a sparse map
      replaces it with `null`s. `labels: true` is excluded: it throws. */
  method NewLabels(spec: LabelsSpec, n: nat) returns (labels: JsArray<Option<string>>)
    requires !spec.LabelsTrue?
    ensures if spec.LabelsArray? then labels == spec.arr else fresh(labels)
    ensures labels.items == InitialLabels(spec, if spec.LabelsArray? then spec.arr.items else [], n)
  {
    match spec {
      case LabelsFn(result) =>
        labels := new JsArray(if result.LabelList? then result.values else []);
      case LabelsArray(a) =>
        labels := a;
      case _ =>
        labels := new JsArray(Broadcast(n, None));
    }
    if LabelMap(spec).Some? {
      labels := new JsArray(Broadcast(n, None));
    }
  }

  /** :150-157: one stop per tick-map key.  Fails (`true.push` throws)
      after the first tick push when the stops are not an array. */
  method PushTickEntries(tm: TickEntries, lines: Lines, colors: JsArray<Paint>,
                         ticks: JsArray<Tick>, labels: JsArray<Option<string>>)
    returns (ok: bool)
    modifies if |tm| == 0 then {} else ListsFrame(lines, colors, ticks, labels)
    ensures ok <==> lines.LineArray? || |tm| == 0
    ensures ok && lines.LineArray? ==> lines.arr.items == old(lines.arr.items) + Keys(tm)
    ensures ok ==> colors.items == old(colors.items) + Broadcast(|tm|, Null)
    ensures ok ==> ticks.items == old(ticks.items) + TickValues(tm)
    ensures ok ==> labels.items == old(labels.items) + Broadcast(|tm|, None)
    ensures !ok ==> unchanged(colors, labels)
    ensures !ok ==> |tm| > 0 && ticks.items == old(ticks.items) + [Length(tm[0].1)]
  {
    var i := 0;
    while i < |tm|
      invariant 0 <= i <= |tm|
      invariant lines.NotAnArray? ==> i == 0 && unchanged(ticks, colors, labels)
      invariant lines.LineArray? ==> lines.arr.items == old(lines.arr.items) + Keys(tm[..i])
      invariant colors.items == old(colors.items) + Broadcast(i, Null)
      invariant ticks.items == old(ticks.items) + TickValues(tm[..i])
      invariant labels.items == old(labels.items) + Broadcast(i, None)
    {
      ticks.Push(Length(tm[i].1));
      if lines.NotAnArray? {
        return false;
      }
      lines.arr.Push(tm[i].0);
      colors.Push(Null);
      labels.Push(None);
      assert tm[..i + 1] == tm[..i] + [tm[i]];
      assert Broadcast(i + 1, Null) == Broadcast(i, Null) + [Null];
      assert Broadcast<Option<string>>(i + 1, None) == Broadcast(i, None) + [None];
      i := i + 1;
    }
    assert tm[..i] == tm;
    ok := true;
  }

  /** :158-165: one stop per label-map key, failing like the tick merge. */
  method PushLabelEntries(lm: LabelEntries, lines: Lines, colors: JsArray<Paint>,
                          ticks: JsArray<Tick>, labels: JsArray<Option<string>>)
    returns (ok: bool)
    modifies if |lm| == 0 then {} else ListsFrame(lines, colors, ticks, labels)
    ensures ok <==> lines.LineArray? || |lm| == 0
    ensures ok && lines.LineArray? ==> lines.arr.items == old(lines.arr.items) + Keys(lm)
    ensures ok ==> colors.items == old(colors.items) + Broadcast(|lm|, Null)
    ensures ok ==> ticks.items == old(ticks.items) + Broadcast(|lm|, NullTick)
    ensures ok ==> labels.items == old(labels.items) + LabelValues(lm)
    ensures !ok ==> unchanged(colors, ticks)
    ensures !ok ==> |lm| > 0 && labels.items == old(labels.items) + [lm[0].1]
  {
    var j := 0;
    while j < |lm|
      invariant 0 <= j <= |lm|
      invariant lines.NotAnArray? ==> j == 0 && unchanged(labels, colors, ticks)
      invariant lines.LineArray? ==> lines.arr.items == old(lines.arr.items) + Keys(lm[..j])
      invariant colors.items == old(colors.items) + Broadcast(j, Null)
      invariant ticks.items == old(ticks.items) + Broadcast(j, NullTick)
      invariant labels.items == old(labels.items) + LabelValues(lm[..j])
    {
      labels.Push(lm[j].1);
      if lines.NotAnArray? {
        return false;
      }
      lines.arr.Push(lm[j].0);
      colors.Push(Null);
      ticks.Push(NullTick);
      assert lm[..j + 1] == lm[..j] + [lm[j]];
      assert Broadcast(j + 1, Null) == Broadcast(j, Null) + [Null];
      assert Broadcast(j + 1, NullTick) == Broadcast(j, NullTick) + [NullTick];
      j := j + 1;
    }
    assert lm[..j] == lm;
    ok := true;
  }

  /** The arrays holding a state's four lists. */
  function ListsFrame(lines: Lines, colors: JsArray<Paint>, ticks: JsArray<Tick>,
                      labels: JsArray<Option<string>>): set<object>
  {
    (if lines.LineArray? then {lines.arr as object} else {}) + {colors as object, ticks as object, labels as object}
  }

  /** The four lists as held by the given arrays. */
  ghost function ListsOf(lines: Lines, colors: JsArray<Paint>, ticks: JsArray<Tick>,
                         labels: JsArray<Option<string>>): Lists
    reads (if lines.LineArray? then {lines.arr as object} else {}), colors, ticks, labels
  {
    Lists(if lines.LineArray? then Some(lines.arr.items) else None, colors.items, ticks.items, labels.items)
  }

  /** :150-165: the tick-map stops, then the label-map stops. */
  method MergeMaps(tm: TickEntries, lm: LabelEntries, lines: Lines, colors: JsArray<Paint>,
                   ticks: JsArray<Tick>, labels: JsArray<Option<string>>)
    returns (ok: bool)
    modifies if |tm| + |lm| == 0 then {} else ListsFrame(lines, colors, ticks, labels)
    ensures ok <==> lines.LineArray? || |tm| + |lm| == 0
    ensures ok ==> ListsOf(lines, colors, ticks, labels) == MergeSparse(old(ListsOf(lines, colors, ticks, labels)), tm, lm)
    ensures !ok && |tm| > 0 ==> colors.items == old(colors.items) && labels.items == old(labels.items)
    ensures !ok && |tm| == 0 ==> colors.items == old(colors.items) && ticks.items == old(ticks.items)
  {
    ok := PushTickEntries(tm, lines, colors, ticks, labels);
    if |tm| == 0 {
      assert Broadcast<Paint>(|tm|, Null) == [] && TickValues(tm) == [];
      assert colors.items == old(colors.items);
      assert ticks.items == old(ticks.items);
    }
    if ok {
      ok := PushLabelEntries(lm, lines, colors, ticks, labels);
    }
  }

  /** :96-149: the four lists of the state before the sparse merge, each
      the definition's own array where it holds one and a new array
      otherwise. */
  method NewLists(d: AxisDef, axisWidth: real, host: Host)
    returns (lines: Lines, colors: JsArray<Paint>, ticks: JsArray<Tick>, labels: JsArray<Option<string>>)
    requires !d.labels.LabelsTrue?
    ensures var c := d.Contents();
      var l := InitialLines(d.lines, c.lines);
      var n := BroadcastCount(l);
      ListsOf(lines, colors, ticks, labels) ==
        Lists(l, InitialColors(d.lineColor, c.colors, d.color, host.alpha, n),
              InitialTicks(d.ticks, c.ticks, axisWidth, n), InitialLabels(d.labels, c.labels, n))
    ensures d.lines.LinesArray? ==> lines == LineArray(d.lines.arr)
    ensures !d.lines.LinesArray? && lines.LineArray? ==> fresh(lines.arr)
    ensures if d.lineColor.ColorsArray? then colors == d.lineColor.arr else fresh(colors)
    ensures if d.ticks.TicksArray? then ticks == d.ticks.arr else fresh(ticks)
    ensures if d.labels.LabelsArray? then labels == d.labels.arr else fresh(labels)
  {
    lines := NewLines(d.lines);
    var n := if lines.LineArray? then |lines.arr.items| else 1;
    colors := NewColors(d.lineColor, d.color, host.alpha, n);
    ticks := NewTicks(d.ticks, axisWidth, n);
    labels := NewLabels(d.labels, n);
  }

  /** The definition's contents once the state's lists `l` are final:
      each array the definition holds is one of the state's. */
  ghost function ListsContents(d: AxisDef, c: ArrayContents, l: Lists): ArrayContents
    reads d
  {
    ArrayContents(
      if d.lines.LinesArray? && l.lines.Some? then l.lines.value else c.lines,
      if d.lineColor.ColorsArray? then l.colors else c.colors,
      if d.ticks.TicksArray? then l.ticks else c.ticks,
      if d.labels.LabelsArray? then l.labels else c.labels)
  }

  /** After a successful resolution, the definition's arrays hold the
      resolved lists. */
  lemma AfterContentsIs(d: AxisDef, c: ArrayContents, shape: Shape, host: Host)
    requires WindowFits(d, shape) && Failing(d).None?
    ensures AfterContents(d, c, shape, host) == ListsContents(d, c, Resolved(d, c, shape, host).value.lists)
  {
  }

  /** :96-165: the state's four lists, the initial ones and then the
      sparse merge; an exception leaves the definition's arrays alone,
      since only new arrays were pushed to before it. */
  method ResolveLists(d: AxisDef, axisWidth: real, host: Host)
    returns (ok: bool, lines: Lines, colors: JsArray<Paint>, ticks: JsArray<Tick>,
             labels: JsArray<Option<string>>)
    requires !d.labels.LabelsTrue?
    modifies if NoSparseMaps(d) then {} else d.Arrays()
    ensures ok <==> Failing(d).None?
    ensures ok ==>
      var c := old(d.Contents());
      var l := InitialLines(d.lines, c.lines);
      var n := BroadcastCount(l);
      ListsOf(lines, colors, ticks, labels) ==
        MergeSparse(Lists(l, InitialColors(d.lineColor, c.colors, d.color, host.alpha, n),
                          InitialTicks(d.ticks, c.ticks, axisWidth, n), InitialLabels(d.labels, c.labels, n)),
                    EntriesOr(TickMap(d.ticks)), EntriesOr(LabelMap(d.labels)))
    ensures !ok ==> d.Contents() == old(d.Contents())
    ensures ok ==> ListsContents(d, old(d.Contents()), ListsOf(lines, colors, ticks, labels)) == d.Contents()
    ensures d.lines.LinesArray? ==> lines == LineArray(d.lines.arr)
    ensures !d.lines.LinesArray? && lines.LineArray? ==> fresh(lines.arr)
    ensures if d.lineColor.ColorsArray? then colors == d.lineColor.arr else fresh(colors)
    ensures if d.ticks.TicksArray? then ticks == d.ticks.arr else fresh(ticks)
    ensures if d.labels.LabelsArray? then labels == d.labels.arr else fresh(labels)
  {
    assert d !in d.Arrays();
    lines, colors, ticks, labels := NewLists(d, axisWidth, host);
    var tm, lm := EntriesOr(TickMap(d.ticks)), EntriesOr(LabelMap(d.labels));
    ok := MergeMaps(tm, lm, lines, colors, ticks, labels);
  }

  /** `calcCoordinate(coord, shape)` (:57-167). */
  method Resolve(d: AxisDef, shape: Shape, host: Host) returns (r: Result<LayoutState>)
    requires WindowFits(d, shape)
    modifies if NoSparseMaps(d) then {} else d.Arrays()
    ensures r.Failure? <==> old(Resolved(d, d.Contents(), shape, host)).Failure?
    ensures r.Failure? ==> r.error == old(Resolved(d, d.Contents(), shape, host)).error
    ensures r.Success? ==> r.value.View() == old(Resolved(d, d.Contents(), shape, host)).value
    ensures d.Contents() == old(AfterContents(d, d.Contents(), shape, host))
    ensures r.Success? ==> fresh(r.value) && r.value.coordinate == d
    ensures r.Success? ==> r.value.opposite == null && r.value.labelCoords == [] && !r.value.disabled
    ensures r.Success? && d.lines.LinesArray? ==> r.value.lines == LineArray(d.lines.arr)
    ensures r.Success? && !d.lines.LinesArray? && r.value.lines.LineArray? ==> fresh(r.value.lines.arr)
    ensures r.Success? ==> if d.lineColor.ColorsArray? then r.value.lineColors == d.lineColor.arr
                           else fresh(r.value.lineColors)
    ensures r.Success? ==> if d.ticks.TicksArray? then r.value.ticks == d.ticks.arr
                           else fresh(r.value.ticks)
    ensures r.Success? ==> if d.labels.LabelsArray? then r.value.labels == d.labels.arr
                           else fresh(r.value.labels)
  {
    var range := Range(d.orientation, shape, d.zoom);
    var offset := ResolvedOffset(d.offset, range, d.min, d.max);
    var axisWidth := AxisWidthOf(d.axisWidth, d.lineWidth);
    if d.labels.LabelsTrue? {
      // `sublines` is undeclared: a ReferenceError (the arrays built
      // before it are discarded unobserved)
      return Failure(LabelsTrueUndefined);
    }
    ghost var c := d.Contents();
    assert d !in d.Arrays();
    var ok, lines, lineColors, ticks, labels := ResolveLists(d, axisWidth, host);
    if !ok {
      // `true.push` is not a function
      return Failure(PushIntoNonArray);
    }
    assert ListsOf(lines, lineColors, ticks, labels) == Resolved(d, c, shape, host).value.lists;
    AfterContentsIs(d, c, shape, host);
    var state := new LayoutState(d, shape, range, offset, d.zoom,
                                 AxisColorOf(d.axisColor, d.color, host.alpha), axisWidth, d.lineWidth,
                                 d.tickAlign, PaddingOf(d.padding), FontSizeOf(d.fontSize, host),
                                 FontFamilyOf(d.fontFamily), lines, lineColors, ticks, labels);
    r := Success(state);
  }
}
