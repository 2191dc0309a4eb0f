/**
 * The grid controller (`update`, `update2`): resolves the layout state of
 * both axes and links each state to the other as its `opposite`; on a
 * pan/zoom gesture it also records the new centre and moves both axis
 * definitions to it, after resolving.
 */
module GridController {
  import opened JsValues
  import opened Axes
  import opened Resolver

  /** The pan/zoom position a gesture reports: offsets in value units and
      the zoom. */
  datatype Center = Center(x: real, y: real, zoom: real)

  /** `calcCoordinate`, with its contract cut down to what the grid
      needs: the exception, the new state and where its arrays come from
      (the definition's own or new ones, so none of them lies in a set
      `other` that the definition's arrays avoid), and the definition's
      arrays afterwards. */
  method ResolveApart(d: AxisDef, shape: Shape, host: Host, ghost other: set<object>)
    returns (r: Result<LayoutState>)
    requires WindowFits(d, shape)
    modifies if NoSparseMaps(d) then {} else d.Arrays()
    ensures r.Failure? <==> old(Failing(d)).Some?
    ensures r.Failure? ==> r.error == old(Failing(d)).value
    ensures d.Contents() == old(AfterContents(d, d.Contents(), shape, host))
    ensures r.Failure? ==> d.Contents() == old(d.Contents())
    ensures r.Success? ==>
      && fresh(r.value) && r.value.coordinate == d
      && r.value.opposite == null && r.value.labelCoords == [] && !r.value.disabled
      && r.value.offset == old(ResolvedOffset(d.offset, Range(d.orientation, shape, d.zoom), d.min, d.max))
      && r.value.zoom == old(d.zoom)
      && r.value.View() == old(Resolved(d, d.Contents(), shape, host)).value
      && (old(d.Arrays()) !! other ==> r.value.Repr() !! other)
  {
    ghost var apart := d.Arrays() !! other;
    r := Resolve(d, shape, host);
    if r.Success? && apart {
      var s := r.value;
      assert s.lineColors !in other && s.ticks !in other && s.labels !in other;
      assert s.lines.LineArray? ==> s.lines.arr !in other;
    }
  }

  /** The same resolution, stating also that another definition `e` is
      left alone: its arrays too, unless it shares one with `d` into which
      something is pushed. */
  method ResolveAxis(d: AxisDef, shape: Shape, host: Host, ghost e: AxisDef, ghost other: set<object>)
    returns (r: Result<LayoutState>)
    requires WindowFits(d, shape)
    modifies if NoSparseMaps(d) then {} else d.Arrays()
    ensures r.Failure? <==> old(Failing(d)).Some?
    ensures r.Failure? ==> r.error == old(Failing(d)).value
    ensures d.Contents() == old(AfterContents(d, d.Contents(), shape, host))
    ensures r.Failure? ==> d.Contents() == old(d.Contents())
    ensures r.Success? ==>
      && fresh(r.value) && r.value.coordinate == d
      && r.value.opposite == null && r.value.labelCoords == [] && !r.value.disabled
      && r.value.offset == old(ResolvedOffset(d.offset, Range(d.orientation, shape, d.zoom), d.min, d.max))
      && r.value.zoom == old(d.zoom)
      && r.value.View() == old(Resolved(d, d.Contents(), shape, host)).value
      && (old(d.Arrays()) !! other ==> r.value.Repr() !! other)
    ensures unchanged(d)
    ensures e != d ==> unchanged(e)
    ensures e != d && old(d.Arrays() !! e.Arrays()) ==> e.Contents() == old(e.Contents())
    ensures old(NoSparseMaps(d)) ==> d.Contents() == old(d.Contents())
    ensures old(NoSparseMaps(d)) ==> e.Contents() == old(e.Contents())
  {
    assert d !in d.Arrays() && e !in d.Arrays();
    r := ResolveApart(d, shape, host, other);
  }

  /** Neither resolution can see the other's pushes: the definitions hold
      no array in common, or neither has a sparse map, so nothing is
      pushed into a shared array. */
  ghost predicate Independent(ax: AxisDef, ay: AxisDef)
    reads ax, ay
  {
    ax.Arrays() !! ay.Arrays() || (NoSparseMaps(ax) && NoSparseMaps(ay))
  }

  /** `x`, then `y` resolved, then the two states linked.  An exception
      in either resolution ends the update: a failed `x` yields no state, a
      failed `y` yields the new `x` state unlinked.  When the two
      definitions hold no array in common, each state is the resolution of
      its own definition and each definition's arrays end up as that
      resolution leaves them. */
  method ResolveBoth(ax: AxisDef, ay: AxisDef, shape: Shape, host: Host)
    returns (err: Option<ResolveError>, sx: LayoutState?, sy: LayoutState?)
    requires ax.orientation == X && ay.orientation == Y
    requires WindowFits(ax, shape) && WindowFits(ay, shape)
    modifies ax.Arrays(), ay.Arrays()
    ensures err == if old(Failing(ax)).Some? then old(Failing(ax)) else old(Failing(ay))
    ensures unchanged(ax) && unchanged(ay)
    ensures old(Failing(ax)).Some? <==> sx == null
    ensures err.Some? <==> sy == null
    ensures old(Failing(ax)).Some? && old(Independent(ax, ay)) ==> ay.Contents() == old(ay.Contents())
    ensures sx != null ==>
      && fresh(sx) && sx.coordinate == ax
      && sx.offset == old(ResolvedOffset(ax.offset, Range(X, shape, ax.zoom), ax.min, ax.max))
      && sx.zoom == old(ax.zoom)
    ensures sx != null && sy == null ==> sx.opposite == null
    ensures sy != null ==>
      && sx != null && fresh(sy) && sy.coordinate == ay
      && sy.offset == old(ResolvedOffset(ay.offset, Range(Y, shape, ay.zoom), ay.min, ay.max))
      && sy.zoom == old(ay.zoom)
      && sx.opposite == sy && sy.opposite == sx
    ensures old(Independent(ax, ay)) ==>
      ax.Contents() == old(AfterContents(ax, ax.Contents(), shape, host))
    ensures old(Independent(ax, ay)) && sx != null ==>
      ay.Contents() == old(AfterContents(ay, ay.Contents(), shape, host))
    ensures old(Independent(ax, ay)) && sy != null ==>
      && sx.View() == old(Resolved(ax, ax.Contents(), shape, host)).value
      && sy.View() == old(Resolved(ay, ay.Contents(), shape, host)).value
    ensures old(NoSparseMaps(ax) && NoSparseMaps(ay)) ==>
      ax.Contents() == old(ax.Contents()) && ay.Contents() == old(ay.Contents())
  {
    if NoSparseMaps(ax) && NoSparseMaps(ay) {
      ResolveWithoutMapsIsIdempotent(ax, ax.Contents(), shape, host);
      ResolveWithoutMapsIsIdempotent(ay, ay.Contents(), shape, host);
    }
    ghost var disjoint := ax.Arrays() !! ay.Arrays();
    var x := ResolveAxis(ax, shape, host, ay, ay.Arrays());
    if x.Failure? {
      return Some(x.error), null, null;
    }
    sx := x.value;
    if disjoint {
      assert ax.Arrays() !! ay.Arrays();
    }
    err, sy := ResolveSecond(sx, ax, ay, shape, host);
    if sy != null {
      Link(sx, sy, ax, ay);
    }
  }

  /** :30: resolve `y` once `x` has its state `sx`, leaving `x`'s
      definition, and whatever of `x`'s arrays `y` does not share, alone. */
  method ResolveSecond(sx: LayoutState, ghost ax: AxisDef, ay: AxisDef, shape: Shape, host: Host)
    returns (err: Option<ResolveError>, sy: LayoutState?)
    requires ay.orientation == Y && ax.orientation == X && WindowFits(ay, shape)
    modifies ay.Arrays()
    ensures err == old(Failing(ay))
    ensures err.Some? <==> sy == null
    ensures sx.opposite == old(sx.opposite)
    ensures sy != null ==>
      && fresh(sy) && sy.coordinate == ay && sy.opposite == null
      && sy.offset == old(ResolvedOffset(ay.offset, Range(Y, shape, ay.zoom), ay.min, ay.max))
      && sy.zoom == old(ay.zoom)
      && sy.View() == old(Resolved(ay, ay.Contents(), shape, host)).value
    ensures ay.Contents() == old(AfterContents(ay, ay.Contents(), shape, host))
    ensures unchanged(ax) && unchanged(ay)
    ensures old(sx.Repr() !! ay.Arrays()) ==> sx.View() == old(sx.View())
    ensures old(ax.Arrays() !! ay.Arrays()) ==> ax.Contents() == old(ax.Contents())
    ensures old(NoSparseMaps(ay)) ==>
      && ay.Contents() == old(ay.Contents()) && ax.Contents() == old(ax.Contents())
      && sx.View() == old(sx.View())
  {
    var y := ResolveAxis(ay, shape, host, ax, {});
    if y.Failure? {
      err, sy := Some(y.error), null;
    } else {
      sy := y.value;
      err := None;
    }
    if old(sx.Repr() !! ay.Arrays()) {
      ViewFramed(sx);
    }
  }

  /** A state's view reads only its definition and its arrays. */
  twostate lemma ViewFramed(s: LayoutState)
    requires unchanged(s.coordinate) && unchanged(s.Repr())
    ensures s.View() == old(s.View())
  {
  }

  /** :31-32: each state becomes the other's `opposite`; nothing the
      states view, and no definition, changes. */
  method Link(sx: LayoutState, sy: LayoutState, ghost ax: AxisDef, ghost ay: AxisDef)
    modifies sx`opposite, sy`opposite
    ensures sx.opposite == sy && sy.opposite == sx
    ensures sx.View() == old(sx.View()) && sy.View() == old(sy.View())
    ensures unchanged(ax) && unchanged(ay)
    ensures ax.Contents() == old(ax.Contents()) && ay.Contents() == old(ay.Contents())
  {
    sx.opposite := sy;
    sy.opposite := sx;
  }

  /** The grid: the two axis definitions, the two layout states of the
      latest resolution and the current centre. */
  class Grid {
    const axisX: AxisDef
    const axisY: AxisDef
    var stateX: LayoutState?
    var stateY: LayoutState?
    var center: Center

    /** One definition per orientation. */
    predicate Valid()
      reads this
    {
      axisX.orientation == X && axisY.orientation == Y && axisX != axisY
    }

    /** A grid over the two definitions, not yet resolved. */
    constructor (axisX: AxisDef, axisY: AxisDef, center: Center)
      requires axisX.orientation == X && axisY.orientation == Y && axisX != axisY
      ensures Valid()
      ensures this.axisX == axisX && this.axisY == axisY && this.center == center
      ensures stateX == null && stateY == null
    {
      this.axisX := axisX;
      this.axisY := axisY;
      this.center := center;
      stateX := null;
      stateY := null;
    }

    /** :29-32 and :43-46: resolve both axes, then link the states; a
        state is assigned as soon as its resolution returns. */
    method Recalc(shape: Shape, host: Host) returns (err: Option<ResolveError>)
      requires Valid() && WindowFits(axisX, shape) && WindowFits(axisY, shape)
      modifies this`stateX, this`stateY, axisX.Arrays(), axisY.Arrays()
      ensures unchanged(axisX) && unchanged(axisY)
      ensures err == if old(Failing(axisX)).Some? then old(Failing(axisX)) else old(Failing(axisY))
      ensures center == old(center) && unchanged(axisX) && unchanged(axisY)
      ensures old(Failing(axisX)).Some? ==> stateX == old(stateX) && stateY == old(stateY)
      ensures old(Failing(axisX)).None? ==>
        && stateX != null && fresh(stateX) && stateX.coordinate == axisX
        && stateX.offset == old(ResolvedOffset(axisX.offset, Range(X, shape, axisX.zoom), axisX.min, axisX.max))
        && stateX.zoom == old(axisX.zoom)
      ensures old(Failing(axisX)).None? && old(Failing(axisY)).Some? ==>
        stateY == old(stateY) && stateX.opposite == null
      ensures err.None? ==>
        && stateX != null && stateY != null && fresh(stateY) && stateY.coordinate == axisY
        && stateY.offset == old(ResolvedOffset(axisY.offset, Range(Y, shape, axisY.zoom), axisY.min, axisY.max))
        && stateY.zoom == old(axisY.zoom)
        && stateX.opposite == stateY && stateY.opposite == stateX
      ensures old(Independent(axisX, axisY)) && err.None? ==>
        && stateX.View() == old(Resolved(axisX, axisX.Contents(), shape, host)).value
        && stateY.View() == old(Resolved(axisY, axisY.Contents(), shape, host)).value
      ensures old(Independent(axisX, axisY)) ==>
        axisX.Contents() == old(AfterContents(axisX, axisX.Contents(), shape, host))
      ensures old(Independent(axisX, axisY)) && old(Failing(axisX)).None? ==>
        axisY.Contents() == old(AfterContents(axisY, axisY.Contents(), shape, host))
      ensures old(Independent(axisX, axisY)) && old(Failing(axisX)).Some? ==>
        axisY.Contents() == old(axisY.Contents())
      ensures old(NoSparseMaps(axisX) && NoSparseMaps(axisY)) ==>
        axisX.Contents() == old(axisX.Contents()) && axisY.Contents() == old(axisY.Contents())
    {
      var sx, sy;
      assert this !in axisX.Arrays() && this !in axisY.Arrays();
      err, sx, sy := ResolveBoth(axisX, axisY, shape, host);
      Store(sx, sy);
    }

    /** Each state that a resolution returned is assigned; the states and
        the definitions are otherwise untouched. */
    method Store(sx: LayoutState?, sy: LayoutState?)
      modifies this`stateX, this`stateY
      ensures stateX == if sx != null then sx else old(stateX)
      ensures stateY == if sy != null then sy else old(stateY)
      ensures sx != null ==> sx.View() == old(sx.View()) && sx.opposite == old(sx.opposite)
      ensures sy != null ==> sy.View() == old(sy.View()) && sy.opposite == old(sy.opposite)
      ensures axisX.Contents() == old(axisX.Contents()) && axisY.Contents() == old(axisY.Contents())
    {
      label before:
      if sx != null {
        stateX := sx;
      }
      if sy != null {
        stateY := sy;
      }
      if sx != null {
        assert this !in sx.Repr();
        ViewFramed@before(sx);
      }
      if sy != null {
        assert this !in sy.Repr();
        ViewFramed@before(sy);
      }
      assert this !in axisX.Arrays() && this !in axisY.Arrays();
      axisX.ContentsFramed@before();
      axisY.ContentsFramed@before();
    }

    /** `update(opts)` (:23-35): resolve both axes and link their states.
        The options argument is only logged and emitted. */
    method Update(shape: Shape, host: Host) returns (err: Option<ResolveError>)
      requires Valid() && WindowFits(axisX, shape) && WindowFits(axisY, shape)
      modifies this`stateX, this`stateY, axisX.Arrays(), axisY.Arrays()
      ensures unchanged(axisX) && unchanged(axisY)
      ensures err == if old(Failing(axisX)).Some? then old(Failing(axisX)) else old(Failing(axisY))
      ensures old(Failing(axisX)).Some? ==> stateX == old(stateX) && stateY == old(stateY)
      ensures old(Failing(axisX)).None? && old(Failing(axisY)).Some? ==>
        && stateX != null && fresh(stateX) && stateX.coordinate == axisX && stateX.opposite == null
        && stateY == old(stateY)
      ensures err.None? ==>
        && stateX != null && stateY != null && fresh(stateX) && fresh(stateY)
        && stateX.coordinate == axisX && stateY.coordinate == axisY
        && stateX.opposite == stateY && stateY.opposite == stateX
        && stateX.offset == old(ResolvedOffset(axisX.offset, Range(X, shape, axisX.zoom), axisX.min, axisX.max))
        && stateY.offset == old(ResolvedOffset(axisY.offset, Range(Y, shape, axisY.zoom), axisY.min, axisY.max))
        && stateX.zoom == old(axisX.zoom) && stateY.zoom == old(axisY.zoom)
      ensures old(Independent(axisX, axisY)) && err.None? ==>
        && stateX.View() == old(Resolved(axisX, axisX.Contents(), shape, host)).value
        && stateY.View() == old(Resolved(axisY, axisY.Contents(), shape, host)).value
      ensures old(Independent(axisX, axisY)) ==>
        axisX.Contents() == old(AfterContents(axisX, axisX.Contents(), shape, host))
      ensures old(Independent(axisX, axisY)) && old(Failing(axisX)).None? ==>
        axisY.Contents() == old(AfterContents(axisY, axisY.Contents(), shape, host))
      ensures old(Independent(axisX, axisY)) && old(Failing(axisX)).Some? ==>
        axisY.Contents() == old(axisY.Contents())
      ensures old(NoSparseMaps(axisX) && NoSparseMaps(axisY)) ==>
        axisX.Contents() == old(axisX.Contents()) && axisY.Contents() == old(axisY.Contents())
    {
      err := Recalc(shape, host);
    }

    /** `update2(center)` (:38-55): without a centre, nothing happens.
        Otherwise the centre is recorded, both axes are resolved from
        their current (old) offset and zoom and linked, and only then are
        the definitions moved to the centre: `x` and `y` offsets to the
        centre's `x` and `y`, both zooms to its zoom.  An exception during
        resolution skips those writes. */
    method Update2(c: Option<Center>, shape: Shape, host: Host) returns (err: Option<ResolveError>)
      requires Valid() && WindowFits(axisX, shape) && WindowFits(axisY, shape)
      modifies this`stateX, this`stateY, this`center, axisX`offset, axisX`zoom, axisY`offset, axisY`zoom
      modifies axisX.Arrays(), axisY.Arrays()
      ensures c.None? ==> err.None? && stateX == old(stateX) && stateY == old(stateY) && center == old(center)
      ensures c.None? ==> axisX.offset == old(axisX.offset) && axisX.zoom == old(axisX.zoom)
      ensures c.None? ==> axisY.offset == old(axisY.offset) && axisY.zoom == old(axisY.zoom)
      ensures c.None? ==> axisX.Contents() == old(axisX.Contents()) && axisY.Contents() == old(axisY.Contents())
      ensures c.Some? ==> center == c.value
      ensures c.Some? ==> err == if old(Failing(axisX)).Some? then old(Failing(axisX)) else old(Failing(axisY))
      ensures c.Some? && old(Failing(axisX)).Some? ==> stateX == old(stateX) && stateY == old(stateY)
      ensures c.Some? && old(Failing(axisX)).None? && old(Failing(axisY)).Some? ==>
        && stateX != null && fresh(stateX) && stateX.coordinate == axisX && stateX.opposite == null
        && stateY == old(stateY)
      ensures c.Some? && err.None? ==>
        && stateX != null && stateY != null && fresh(stateX) && fresh(stateY)
        && stateX.coordinate == axisX && stateY.coordinate == axisY
        && stateX.opposite == stateY && stateY.opposite == stateX
        && stateX.offset == old(ResolvedOffset(axisX.offset, Range(X, shape, axisX.zoom), axisX.min, axisX.max))
        && stateY.offset == old(ResolvedOffset(axisY.offset, Range(Y, shape, axisY.zoom), axisY.min, axisY.max))
        && stateX.zoom == old(axisX.zoom) && stateY.zoom == old(axisY.zoom)
      ensures c.Some? && err.None? && old(Independent(axisX, axisY)) ==>
        && stateX.View() == old(Resolved(axisX, axisX.Contents(), shape, host)).value
        && stateY.View() == old(Resolved(axisY, axisY.Contents(), shape, host)).value
      ensures c.Some? && err.None? ==>
        && axisX.offset == c.value.x && axisX.zoom == c.value.zoom
        && axisY.offset == c.value.y && axisY.zoom == c.value.zoom
      ensures err.Some? ==>
        && axisX.offset == old(axisX.offset) && axisX.zoom == old(axisX.zoom)
        && axisY.offset == old(axisY.offset) && axisY.zoom == old(axisY.zoom)
      ensures c.Some? && old(Independent(axisX, axisY)) ==>
        axisX.Contents() == old(AfterContents(axisX, axisX.Contents(), shape, host))
      ensures c.Some? && old(Independent(axisX, axisY)) && old(Failing(axisX)).None? ==>
        axisY.Contents() == old(AfterContents(axisY, axisY.Contents(), shape, host))
      ensures c.Some? && old(Independent(axisX, axisY)) && old(Failing(axisX)).Some? ==>
        axisY.Contents() == old(axisY.Contents())
      ensures old(NoSparseMaps(axisX) && NoSparseMaps(axisY)) ==>
        axisX.Contents() == old(axisX.Contents()) && axisY.Contents() == old(axisY.Contents())
    {
      if c.None? {
        return None;
      }
      err := Recalc(shape, host);
      // the source records the centre before resolving; nothing in the
      // resolution reads it, so recording it here ends in the same state
      SetCenter(c.value);
      if err.None? {
        MoveTo(c.value);
      }
    }

    /** :49-53: move both definitions to the centre; the linked states
        keep their views, which read neither offset nor zoom. */
    method MoveTo(c: Center)
      requires Valid() && stateX != null && stateY != null
      modifies axisX`offset, axisX`zoom, axisY`offset, axisY`zoom
      ensures axisX.offset == c.x && axisX.zoom == c.zoom
      ensures axisY.offset == c.y && axisY.zoom == c.zoom
      ensures stateX.View() == old(stateX.View()) && stateY.View() == old(stateY.View())
      ensures stateX.opposite == old(stateX.opposite) && stateY.opposite == old(stateY.opposite)
      ensures axisX.Contents() == old(axisX.Contents()) && axisY.Contents() == old(axisY.Contents())
    {
      assert axisX != axisY;
      axisX.MoveTo(c.x, c.zoom);
      axisY.MoveTo(c.y, c.zoom);
      stateX.ViewKeptOverMove();
      stateY.ViewKeptOverMove();
    }

    /** :41: record the centre; the definitions and the views of the
        states are left alone. */
    method SetCenter(c: Center)
      modifies this`center
      ensures center == c
      ensures axisX.Contents() == old(axisX.Contents()) && axisY.Contents() == old(axisY.Contents())
      ensures stateX != null ==> stateX.View() == old(stateX.View())
      ensures stateY != null ==> stateY.View() == old(stateY.View())
    {
      center := c;
      assert this !in axisX.Arrays() && this !in axisY.Arrays();
      axisX.ContentsFramed();
      axisY.ContentsFramed();
      if stateX != null {
        assert this !in stateX.Repr();
        ViewFramed(stateX);
      }
      if stateY != null {
        assert this !in stateY.Repr();
        ViewFramed(stateY);
      }
    }
  }
}
