# Grid layout engine: a verified model

This project models the layout core of the canvas grid component
`src/helpers/Grid2.js`. The model covers:

- the two **axis strategies** (`x` and `y`): the visible range, the 0..1 ratio of a value in the
  window, and the four normalised numbers emitted per stop;
- **coordinate resolution** (`calcCoordinate`). It turns an axis definition and the surface shape
  into a layout state: the clamped offset window, style, padding and font, and the parallel lists
  of stops, line colours, tick lengths and labels. The sparse maps that reach the merge become
  extra stops: a map returned by a `ticks` function, and a plain-object or function-returned
  `labels` map. A plain-object `ticks` option does not reach it: the scalar branch broadcasts the
  object itself (see "## Findings"). The merge pushes into arrays that may be the definition's
  own, so resolving mutates the definition;
- the **geometry of `drawLines`**: one gridline per stop with a truthy colour, one tick per stop
  away from the opposite origin, a label anchor per stop, and the axis line, in surface pixels;
- the **placement of `drawLabels`**: the position of every label text, with measured text width
  as a parameter;
- the **controller** (`update`, `update2`). It resolves both axes, links each state to the
  other as its `opposite`, and on a pan/zoom gesture records the centre and moves the two
  definitions to it only after resolving.

Modules:

- `JsValues`: JavaScript values the engine handles. It has colour values with truthiness, a
  growable shared array class `JsArray`, `Array(n).fill`, and the clamp. It also has `Host`, the
  foreign services: `color-alpha`, `parseUnit`/`toPx`, `almost` and `measureText`.
- `Axes`: the strategies.
- `Resolver`: the classes `AxisDef` (the definition) and `LayoutState` (the state), the
  resolution rules as functions, the whole resolution by value (`Resolved`), and the imperative
  `Resolve` proved against it.
- `Geometry`: `drawLines` as a method that returns the segments it would add.
- `Labels`: `drawLabels` as a method that returns the placements it would write.
- `GridController`: the class `Grid` with `Update` and `Update2`.

Foreign helpers are parameters. `Host` carries them, and nothing is assumed about their results
except where a precondition says so: the clamp bounds of label placement.

## Model

| member | source | states |
|---|---|---|
| JsValues.JsArray.Push | src/helpers/Grid2.js:152-155 | a push appends exactly one element and keeps the earlier ones |
| JsValues.Broadcast | src/helpers/Grid2.js:116 | `Array(n).fill(v)` has `n` entries, each `v` |
| JsValues.ClampBounds | src/helpers/Grid2.js:65-69 | the result respects each bound that is present, a value already inside the bounds is returned unchanged, and a value past a present bound becomes that bound |
| JsValues.Clamp | src/helpers/Grid2.js:310 | the result lies in `[lo, hi]`, equals `x` when `x` already does, and is `lo` below the interval and `hi` above it |
| Axes.Range | src/helpers/Grid2.js:250-252 | the range is positive exactly when surface width (on `x`) or height (on `y`, :272-274) times zoom is; zero zoom gives zero range |
| Axes.Ratio | src/helpers/Grid2.js:254-256 | on `x`, ratio times range is the distance from the offset; on `y` (:275-277) the same holds for one minus the ratio |
| Axes.RatioEndpoints | src/helpers/Grid2.js:254-256 | the window's ends map to 0 and 1 on `x` and to 1 and 0 on `y` |
| Axes.RatioInUnitInterval | src/helpers/Grid2.js:254-256 | on both axes, a ratio lies in `[0, 1]` if and only if the value lies in `[offset, offset + range]` |
| Axes.RatioRoundTrip | src/helpers/Grid2.js:254-256 | ratio and `ValueAt` are inverse in both directions on both axes |
| Axes.RatioMonotone | src/helpers/Grid2.js:275-277 | the `x` ratio is non-decreasing in the value and the `y` ratio non-increasing |
| Axes.QuadAlongNormal | src/helpers/Grid2.js:341-352 | each quad's direction is the axis normal, a unit vector, so the source's `len` division is by 1 |
| Axes.CoordsShape | src/helpers/Grid2.js:238-249 | `getCoords` yields four numbers per stop, and numbers `4j..4j+3` are stop `j`'s quad at its ratio |
| Axes.GetCoords | src/helpers/Grid2.js:260-271 | the push loop yields the specification `Coords`: four numbers per stop, in stop order |
| Resolver.ResolvedOffset | src/helpers/Grid2.js:65-69 | the window `[r, r + range]` lies inside `[min, max]` where those are given, is centred on the declared offset when that already fits, starts at `min` when the centred window would start before it, and ends at `max` when it would end after it |
| Resolver.AxisColorOf | src/helpers/Grid2.js:72-75 | a numeric `axisColor` is that opacity of `color`; otherwise a truthy `axisColor` is used and a falsy one gives `color` |
| Resolver.AxisWidthOf | src/helpers/Grid2.js:76 | `axisWidth \|\| lineWidth`: a non-zero axis width is kept, and 0 gives the line width |
| Resolver.FontSizeOf | src/helpers/Grid2.js:89-94 | a numeric font size is used as is; a string is split by `parseUnit` and its number multiplied by `toPx` of its unit |
| Resolver.FontFamilyOf | src/helpers/Grid2.js:95 | the family is never empty: a given family is kept, and an empty one becomes `sans-serif` |
| Resolver.PaddingOf | src/helpers/Grid2.js:81-87 | a numeric padding stands for four equal sides; a function's result or an explicit list is used as is |
| Resolver.InitialColors | src/helpers/Grid2.js:105-117 | a function's result or the definition's array pass through; otherwise one colour per line: `null` for `false`/`null`, the colour at that opacity for a number, the base colour for anything else |
| Resolver.InitialTicks | src/helpers/Grid2.js:119-129 | with a function's sparse map every line gets 0; a function's list or the array passes through; `true` broadcasts twice the axis width, a number itself, a falsy value 0, and a plain object the object itself |
| Resolver.IntendedTicks | src/helpers/Grid2.js:119-128 | the intended reading of a plain-object `ticks` option is the sparse map it holds, as for `labels` (:137-138); every other option is left as it is |
| Resolver.InitialLabels | src/helpers/Grid2.js:131-142 | a sparse map or no labels gives `null` per line; a function's list or the array passes through |
| Resolver.MergeSparseAppends | src/helpers/Grid2.js:150-165 | the merge keeps the four lists' prefixes and appends per key: the key to the stops, `null` to the colours, the map value to its own list and `null` to the other |
| Resolver.MergeSparseEmpty | src/helpers/Grid2.js:150-165 | with both maps empty the merge leaves the four lists as they are |
| Resolver.Resolved | src/helpers/Grid2.js:57-167 | as written: resolution fails if and only if `labels` is `true`, or `lines` is not an array and a sparse map that reaches the merge (a function's tick map, a label map) has a key, and it reports that error; the stop list is an array unless `lines` is `true` |
| Resolver.IntendedResolved | src/helpers/Grid2.js:119-165 | read as intended, a plain-object tick map adds its keys to the stops and its values to the ticks, after the initial zeros and before the label keys, and throws over non-array stops; without one it is `Resolved` |
| Resolver.ResolveWithoutMapsIsIdempotent | src/helpers/Grid2.js:144-165 | without sparse maps, resolving leaves the definition's arrays as they were, so resolving again gives the same state |
| Resolver.ReResolveRepeatsKeys | src/helpers/Grid2.js:150-165 | with sparse maps that reach the merge and a `lines` array of the definition's own, a second resolution sees every map key twice |
| Resolver.BroadcastListsAreParallel | src/helpers/Grid2.js:105-142 | when colours, ticks and labels are all scalars or maps, the four lists have the same length |
| Resolver.SparseTicksExample | src/helpers/Grid2.js:144-157 | read as intended, a tick map `{1.5: 10}` over stops `[0, 1, 2]` gives stops `[0, 1, 2, 1.5]`, ticks `[0, 0, 0, 10]` and four `null` labels |
| Resolver.SparseTicksLostAsWritten | src/helpers/Grid2.js:119-128 | as written, the same plain-object tick map is broadcast as an object: the stops stay `[0, 1, 2]`, each tick is the object, and the definition's arrays are left as they were |
| Resolver.PlainTickMapOverTrueLines | src/helpers/Grid2.js:119-157 | as written, a plain-object tick map over `lines: true` resolves to one object tick; read as intended, its first key is pushed into `true` and throws |
| Resolver.NewLines | src/helpers/Grid2.js:97-103 | the stop array is the definition's own array, a new array with a function's result or `[]`, or the non-array `true` passed through |
| Resolver.NewColors | src/helpers/Grid2.js:104-117 | the colour array is the definition's own array where it gives one, and otherwise a new array holding `InitialColors` |
| Resolver.NewTicks | src/helpers/Grid2.js:118-129 | the tick array is the definition's own array where it gives one, and otherwise a new array holding `InitialTicks` (zeros for a function's sparse map, :144-146; the object itself, broadcast, for a plain-object `ticks`) |
| Resolver.NewLabels | src/helpers/Grid2.js:130-149 | the label array is the definition's own array where it gives one, and otherwise a new array holding `InitialLabels` |
| Resolver.PushTickEntries | src/helpers/Grid2.js:150-157 | each tick-map key pushes its value, the key, `null` and `null` onto the four arrays; with non-array stops the first key throws after its tick push, so the tick array gains exactly that key's value and the others are unchanged; an empty map touches no array |
| Resolver.PushLabelEntries | src/helpers/Grid2.js:158-165 | each label-map key pushes onto the four arrays in the same way; with non-array stops the first key throws after its label push, so the label array gains exactly that key's label and the others are unchanged; an empty map touches no array |
| Resolver.MergeMaps | src/helpers/Grid2.js:150-165 | succeeds if and only if the stops are an array or both maps are empty; on success the arrays hold `MergeSparse` of what they held; with both maps empty no array is touched |
| Resolver.NewLists | src/helpers/Grid2.js:96-149 | before the merge, the four arrays hold the initial lists (a plain-object `ticks` broadcast as an object), and each is the definition's own array or a fresh one |
| Resolver.ResolveLists | src/helpers/Grid2.js:96-165 | the four arrays hold the merged lists, and the definition's shared arrays now hold them too; a throw leaves the definition's arrays unchanged; without sparse maps no existing object is modified |
| Resolver.Resolve | src/helpers/Grid2.js:57-167 | the new state's view is `Resolved` of the definition before the call, the definition's arrays end as `AfterContents`, and the error cases are those of `Resolved`; without sparse maps (`NoSparseMaps`) no existing object is modified |
| Geometry.GridlinesAreKept | src/helpers/Grid2.js:314-316 | one gridline per stop whose colour is truthy, and none for other stops; the drawn stops' indices strictly increase |
| Geometry.GridlinePixels | src/helpers/Grid2.js:329-332 | an `x` gridline is vertical at its stop's ratio across the padded height; a `y` gridline is horizontal across the padded width |
| Geometry.PixelInsidePadding | src/helpers/Grid2.js:329-332 | a normalised point in `[0, 1]` maps inside the padded area |
| Geometry.AxisRatio | src/helpers/Grid2.js:309-310 | the clamped axis ratio lies in `[0, 1]` |
| Geometry.TicksAreShown | src/helpers/Grid2.js:376-380 | one tick per stop with a numeric or `null` tick entry that is not at the opposite origin, and none for other stops; the ticked stops' indices strictly increase |
| Geometry.TickEndsClosedForm | src/helpers/Grid2.js:357-373 | on `x` the tick is vertical at the stop's ratio and its ends sit `align` and `1 - align` of `t / uh` on either side of the axis ratio; the same on `y`, transposed; the anchor is the crossing |
| Geometry.AnchorBetweenTickEnds | src/helpers/Grid2.js:362-373 | with `tickAlign` in `[0, 1]`, the label anchor lies between the two tick ends |
| Geometry.TickLengthAlongNormal | src/helpers/Grid2.js:364-384 | a tick runs along the normal only, and its ends are `ticks[k]` pixels apart |
| Geometry.AnchorsAtCrossing | src/helpers/Grid2.js:372-373 | two anchor numbers per stop: on `x`, the stop's ratio then the axis ratio; on `y`, the axis ratio then the stop's ratio |
| Geometry.AxisLineInside | src/helpers/Grid2.js:404-425 | there is an axis line if and only if `axis` is set and the axis colour is truthy; it crosses the padded area at the axis ratio and stays inside it |
| Geometry.DrawGridlines | src/helpers/Grid2.js:314-340 | the loop's gridlines are `Gridlines` of all stops |
| Geometry.TickAt | src/helpers/Grid2.js:357-384 | one stop's tick ends and anchor, computed from its quad in `coords`, equal the specification `TickEnds` and `Anchor` |
| Geometry.DrawTicks | src/helpers/Grid2.js:341-403 | the loops' ticks are `Ticks` of all stops, and the label coordinates are `Anchors` of all stops |
| Geometry.DrawAxisLine | src/helpers/Grid2.js:404-425 | the axis line is `AxisSegment` |
| Geometry.DrawLines | src/helpers/Grid2.js:299-429 | the gridlines, ticks and axis line are those of the state's view against its opposite's, and `labelCoords` is set to the anchors |
| Labels.LabelsAreShown | src/helpers/Grid2.js:445-449 | a label is placed if and only if it is not `null`, has a stop and an anchor, and (on `y` with an enabled opposite) is not at the opposite origin; the placed labels' indices strictly increase |
| Labels.PlacementBounds | src/helpers/Grid2.js:440-462 | on `y` the left edge is clamped between the indent and the room the text leaves; on `x` the top is clamped to the room the text height and offset leave; the other coordinate is the anchor plus indent or offset; the offset depends on `tickAlign` |
| Labels.PlaceLabel | src/helpers/Grid2.js:451-463 | the loop body's text position equals the specification `Place` |
| Labels.DrawLabels | src/helpers/Grid2.js:431-466 | the labels written and their positions are `Placements` of all labels, with `isOpp` only on a `y` axis whose opposite is enabled |
| GridController.ResolveApart | src/helpers/Grid2.js:29-30 | resolving one axis fails exactly as `Failing` says and yields a fresh unlinked state whose view is `Resolved`, whose arrays are the definition's own or new, and whose offset and zoom are the resolved ones |
| GridController.ResolveAxis | src/helpers/Grid2.js:29-30 | the same, and another definition keeps its arrays' contents when it shares none with `d` or `d` has no sparse map |
| GridController.ResolveSecond | src/helpers/Grid2.js:30 | resolving `y` returns its error or its state, and keeps the view of `x`'s state when the two share no array or `y` has no sparse map |
| GridController.Link | src/helpers/Grid2.js:31-32 | each state becomes the other's `opposite`, and neither view nor any definition changes |
| GridController.ResolveBoth | src/helpers/Grid2.js:29-32 | the first error (`x` before `y`) ends the update; without one, both fresh states are linked; when the definitions are `Independent` (no array in common, or no sparse map on either) each state is its own definition's resolution; with no sparse map on either definition, both definitions' arrays keep their contents |
| GridController.Grid.Recalc | src/helpers/Grid2.js:28-32 | each state is assigned as soon as its resolution returns; on success the two are linked and, when the definitions are `Independent`, are the resolutions of the definitions; with `Independent` definitions the arrays of `x` hold `AfterContents` (the entries the resolution pushed), and so do those of `y` unless `x` threw, in which case they are kept; with no sparse map on either definition all arrays keep their contents; the definitions' other fields are unchanged |
| GridController.Grid.Store | src/helpers/Grid2.js:29-30 | a state a resolution returned is assigned to its field and keeps its view and `opposite`; the definitions' arrays keep their contents |
| GridController.Grid.Update | src/helpers/Grid2.js:23-35 | `update` resolves and links both axes; the options do not enter the state; when `x` throws both states stay, and when only `y` throws `x` has its new unlinked state and `y` keeps its old one; with `Independent` definitions the views are the resolutions and the definitions' arrays hold what `Recalc` states; with no sparse map on either definition their arrays keep their contents |
| GridController.Grid.MoveTo | src/helpers/Grid2.js:49-53 | both definitions move to the centre's offsets and zoom, the linked states keep their views and their `opposite`, and the definitions' arrays keep their contents |
| Resolver.AxisDef.MoveTo | src/helpers/Grid2.js:49-53 | one definition (`this.x` or `this.y`) takes the new offset and zoom, and its arrays keep their contents |
| GridController.Grid.SetCenter | src/helpers/Grid2.js:41 | the centre is recorded; the definitions' arrays and the states' views are untouched |
| GridController.Grid.Update2 | src/helpers/Grid2.js:38-55 | without a centre nothing changes; otherwise the centre is recorded, both axes are resolved from their old offset and zoom, only on success are both offsets and zooms set to the centre's, and then (with `Independent` definitions) the views are the resolutions from before the move; on a throw the states are left as `update` leaves them; with a centre, the definitions' arrays hold what `Update` states, and without a sparse map on either definition they keep their contents |

## Left out

- Rendering. The model does not cover `fabric.Path` objects, the canvas, `ctx.font`,
  `fillStyle`, `textBaseline`, `fillText`, `draw`, `render`, `emit`,
  `console.log` or `devicePixelRatio`. `drawLines` returns its segments and `drawLabels` its
  placements instead of drawing them.
- Foreign helpers. `color-alpha`, `parseUnit`, `toPx`, `almost` and `measureText` are in
  other modules. They enter as the functions of `Host`, and nothing is assumed about their
  results beyond the clamp bounds `Labels.DrawLabels` requires. `len` and `isObj` are in other modules too, and they do not enter the model. The
  tick geometry divides by no `len`: it takes each quad's direction as the normal
  (`Geometry.TickEndsOf`), and `Axes.QuadAlongNormal` proves that this direction is the unit
  normal of the orientation. This matches `x / len(x, y)` only if `len` is the Euclidean length.
  `isObj` is replaced by the cases of `TicksSpec` and `LabelsSpec`, read as "a plain object, not
  an array".
- Non-finite bounds. `-Infinity`, `Infinity` and the `Number.MAX_VALUE` guards of :67-68 are
  modelled as absent bounds (`Option`). NaN and floating-point rounding are not modelled; reals
  are exact.
- Division by zero. `Geometry.Drawable` requires a positive range on both axes and a positive
  usable area, so a zero zoom or a fully padded surface is outside the model.
- Resolver.Resolve: requires `min <= max - range` when both bounds are given. The clamp helper
  is in another module and its behaviour with crossed bounds is not known here.
- Labels.DrawLabels: requires ordered clamp bounds (`ClampBoundsOrdered`). A text wider than
  the room left on a `y` axis, or a `x` surface shorter than the text, is outside the model for
  the same reason.
- Out-of-range reads. On a missing tick entry, label anchor or stop, the source computes with
  `undefined` and strokes or writes at NaN. The model produces nothing for that index.
- Labels.DrawLabels: on a state that `drawLines` has not drawn, the source has no
  `labelCoords` (they are first set at :355). Then :453 reads `undefined[i * 2]` and throws a
  TypeError at the first non-null label. The model creates every state with `labelCoords == []`,
  so `DrawLabels` places nothing there and does not throw. The source never calls `drawLabels`
  (:427 is commented out).
- Object ticks. A plain-object `ticks` option is broadcast as an object (`ObjectTick`). The source
  computes the tick ends with it and strokes at NaN; the model draws no tick for it.
- Zoom is not clamped. The source does not clamp it either.
- Function-valued options. `lines`, `lineColor`, `ticks`, `labels` and `padding` given as
  functions are modelled by their results, and a function's result is taken to be a new array.
- Key order. The enumeration order of a sparse map is the order of its entries, and keys are
  already parsed numbers. JavaScript's reordering of integer-like keys is not modelled.
- `new Axis(...)` (:233-234) is overwritten at once by :236-278, so it plays no part.
- `update(opts)` only logs and emits `opts` (:25, :33). They never reach the definitions, and the
  model follows that code.
- `update2` copies the whole centre (`Object.assign`). A centre missing some of its fields is not
  modelled.
- Shared defaults. `setDefaults` (:236, :258) builds each axis definition with
  `Object.assign({}, this.defaults, ...)`, a shallow copy, so an array option from the defaults
  (`lines`, `lineColor`, `ticks`, `labels`) is one array held by both `axisX` and `axisY`. The
  model takes the two definitions as given and allows such sharing; how they are built is not
  modelled.
- GridController.Grid.Update: states the two views only when the definitions are `Independent`,
  that is when they hold no array in common or neither has a sparse map (then nothing is pushed,
  and both views are still `Resolved`). The case of a shared array plus a sparse map is only
  bounded by the frame, in both directions. If `x` has the map, its pushes grow the shared array
  before `y` resolves, so `y` resolves from the grown array, not from the contents before the
  update. If `y` has the map, its pushes land in arrays that `x`'s new state already holds, so
  that state's view changes after it was resolved.
- GridController.Grid.Recalc: states the two views under the same `Independent` condition as
  `Update`, for the same reason.
- GridController.ResolveBoth: states the two views, and the definitions' contents afterwards,
  under the same `Independent` condition as `Update`, for the same reason.
- GridController.Grid.Update2: states the views of the new states under the same condition as
  `Update`. The source records the centre (:41) before resolving; the model records it just
  after, which ends in the same state because resolution does not read it.
- Aliasing under two option names. The model keeps each of a definition's four array options in
  its own array, because their element types differ (numbers, colours, tick entries, label
  entries). One JavaScript array passed as both `labels` and `lines` of the same definition is
  therefore not modelled.
- GridController.ResolveBoth: says nothing of `labelCoords` and `disabled` on the new states
  beyond what `Resolve` gives.
- `state.labelColor` is not modelled: it is read from `state.color`, which is never set.
- The three loops of `drawLines` over normals, tick coordinates and tick strokes run over the
  same stops in the same order. They are fused into one loop; the output is the same.

## Findings

| source | as written | input that shows it | evidently intended | confidence | as-written member | corrected member |
|---|---|---|---|---|---|---|
| src/helpers/Grid2.js:119-157 | a plain-object `ticks` option falls into the scalar branch (`coord.ticks \|\| 0` is the object), is broadcast to every line, and never reaches the sparse merge at :150-157 | `lines: [0, 1, 2]`, `ticks: {1.5: 10}`, no labels: the stops stay `[0, 1, 2]` | as with a plain-object `labels` (:137-138), the map adds the stop 1.5 with tick 10: stops `[0, 1, 2, 1.5]`, ticks `[0, 0, 0, 10]` | not executed | Resolver.SparseTicksLostAsWritten | Resolver.IntendedResolved |
