/**
 * The two axis strategies of the grid: the horizontal (`x`) and the
 * vertical (`y`) axis.  Each gives the visible range of the axis in value
 * units, the 0..1 position of a value inside that range (flipped on `y`,
 * whose pixel rows grow downwards), and the normalised segment drawn for
 * every stop.
 */
module Axes {
  import opened JsValues

  datatype Orientation = X | Y

  /** `getRange`: the surface dimension along the axis times the zoom. */
  function Range(o: Orientation, shape: Shape, zoom: real): (r: real)
    ensures o == X ==> (r > 0.0 <==> shape.width * zoom > 0.0)
    ensures o == Y ==> (r > 0.0 <==> shape.height * zoom > 0.0)
    ensures zoom == 0.0 ==> r == 0.0
  {
    match o
    case X => shape.width * zoom
    case Y => shape.height * zoom
  }

  /** `getRatio`: where `value` sits in the visible window
      `[offset, offset + range]`, as a fraction of the window; the `y`
      axis counts from the top, so its fraction is reversed. */
  function Ratio(o: Orientation, value: real, offset: real, range: real): (t: real)
    requires range > 0.0
    ensures o == X ==> t * range == value - offset
    ensures o == Y ==> (1.0 - t) * range == value - offset
  {
    match o
    case X => (value - offset) / range
    case Y => 1.0 - (value - offset) / range
  }

  /** The value whose ratio is `t`: the inverse of `Ratio`. */
  function ValueAt(o: Orientation, t: real, offset: real, range: real): real
  {
    match o
    case X => offset + t * range
    case Y => offset + (1.0 - t) * range
  }

  lemma RatioEndpoints(o: Orientation, offset: real, range: real)
    requires range > 0.0
    ensures o == X ==> Ratio(o, offset, offset, range) == 0.0 && Ratio(o, offset + range, offset, range) == 1.0
    ensures o == Y ==> Ratio(o, offset, offset, range) == 1.0 && Ratio(o, offset + range, offset, range) == 0.0
  {
    assert (offset + range - offset) / range == 1.0;
  }

  /** A value is inside the visible window exactly when its ratio is in
      `[0, 1]`, on both axes. */
  lemma RatioInUnitInterval(o: Orientation, value: real, offset: real, range: real)
    requires range > 0.0
    ensures 0.0 <= Ratio(o, value, offset, range) <= 1.0 <==> offset <= value <= offset + range
  {
    var t := Ratio(o, value, offset, range);
    if o == X {
      assert t * range == value - offset;
      if 0.0 <= t <= 1.0 {
        assert 0.0 <= t * range <= range by { MulBounds(t, range); }
      }
      if offset <= value <= offset + range {
        assert 0.0 <= t <= 1.0 by { DivBounds(value - offset, range, t); }
      }
    } else {
      assert (1.0 - t) * range == value - offset;
      if 0.0 <= t <= 1.0 {
        assert 0.0 <= (1.0 - t) * range <= range by { MulBounds(1.0 - t, range); }
      }
      if offset <= value <= offset + range {
        assert 0.0 <= 1.0 - t <= 1.0 by { DivBounds(value - offset, range, 1.0 - t); }
      }
    }
  }

  lemma MulBounds(u: real, range: real)
    requires range > 0.0 && 0.0 <= u <= 1.0
    ensures 0.0 <= u * range <= range
  {
  }

  lemma DivBounds(d: real, range: real, u: real)
    requires range > 0.0 && u * range == d && 0.0 <= d <= range
    ensures 0.0 <= u <= 1.0
  {
    ScaleStrict(u, 0.0, range);
    ScaleStrict(1.0, u, range);
  }

  /** Scaling by a positive range keeps strict order. */
  lemma ScaleStrict(a: real, b: real, range: real)
    requires range > 0.0
    ensures a < b ==> a * range < b * range
  {
  }

  /** Ratio and value conversions are inverse to each other. */
  lemma RatioRoundTrip(o: Orientation, value: real, t: real, offset: real, range: real)
    requires range > 0.0
    ensures ValueAt(o, Ratio(o, value, offset, range), offset, range) == value
    ensures Ratio(o, ValueAt(o, t, offset, range), offset, range) == t
  {
    var v := ValueAt(o, t, offset, range);
    var s := Ratio(o, v, offset, range);
    if o == X {
      assert s * range == t * range;
    } else {
      assert (1.0 - s) * range == (1.0 - t) * range;
    }
    CancelRange(s, t, range, o);
  }

  lemma CancelRange(s: real, t: real, range: real, o: Orientation)
    requires range > 0.0
    requires o == X ==> s * range == t * range
    requires o == Y ==> (1.0 - s) * range == (1.0 - t) * range
    ensures s == t
  {
    ScaleStrict(s, t, range);
    ScaleStrict(t, s, range);
    ScaleStrict(1.0 - s, 1.0 - t, range);
    ScaleStrict(1.0 - t, 1.0 - s, range);
  }

  /** The `x` ratio grows with the value; the `y` ratio shrinks. */
  lemma RatioMonotone(o: Orientation, v1: real, v2: real, offset: real, range: real)
    requires range > 0.0 && v1 <= v2
    ensures o == X ==> Ratio(o, v1, offset, range) <= Ratio(o, v2, offset, range)
    ensures o == Y ==> Ratio(o, v1, offset, range) >= Ratio(o, v2, offset, range)
  {
    var t1, t2 := Ratio(o, v1, offset, range), Ratio(o, v2, offset, range);
    ScaleStrict(t2, t1, range);
    ScaleStrict(1.0 - t2, 1.0 - t1, range);
  }

  /** The four normalised numbers `getCoords` emits for a stop at ratio
      `t`: a full-height segment `(t,0)-(t,1)` on `x`, a full-width
      segment `(0,t)-(1,t)` on `y`. */
  function Quad(o: Orientation, t: real): (q: seq<real>)
    ensures |q| == 4
  {
    match o
    case X => [t, 0.0, t, 1.0]
    case Y => [0.0, t, 1.0, t]
  }

  /** The unit normal of the segments of an axis, `(dx, dy) / len`. */
  function Normal(o: Orientation): (real, real)
  {
    match o
    case X => (0.0, 1.0)
    case Y => (1.0, 0.0)
  }

  /** Every quad runs from its first to its second point along the axis
      normal, a unit vector, so `len(dx, dy)` is 1 and the normal is the
      difference itself. */
  lemma QuadAlongNormal(o: Orientation, t: real)
    ensures Quad(o, t)[2] - Quad(o, t)[0] == Normal(o).0
    ensures Quad(o, t)[3] - Quad(o, t)[1] == Normal(o).1
    ensures Normal(o).0 * Normal(o).0 + Normal(o).1 * Normal(o).1 == 1.0
  {
  }

  /** `getCoords` as a value: the quads of all stops, in order. */
  function Coords(o: Orientation, values: seq<real>, offset: real, range: real): seq<real>
    requires range > 0.0
  {
    if |values| == 0 then []
    else Coords(o, values[..|values| - 1], offset, range) + Quad(o, Ratio(o, values[|values| - 1], offset, range))
  }

  /** Exactly four numbers per stop, the stop's quad at its ratio. */
  lemma {:induction false} CoordsShape(o: Orientation, values: seq<real>, offset: real, range: real)
    requires range > 0.0
    ensures |Coords(o, values, offset, range)| == 4 * |values|
    ensures forall j :: 0 <= j < |values| ==>
      Coords(o, values, offset, range)[4 * j..4 * j + 4] == Quad(o, Ratio(o, values[j], offset, range))
  {
    if |values| > 0 {
      var init := values[..|values| - 1];
      CoordsShape(o, init, offset, range);
      var c := Coords(o, values, offset, range);
      var ci := Coords(o, init, offset, range);
      forall j | 0 <= j < |values|
        ensures c[4 * j..4 * j + 4] == Quad(o, Ratio(o, values[j], offset, range))
      {
        if j < |values| - 1 {
          assert c[4 * j..4 * j + 4] == ci[4 * j..4 * j + 4];
          assert init[j] == values[j];
        }
      }
    }
  }

  /** `getCoords`: builds the quads with four pushes per stop. */
  method GetCoords(o: Orientation, values: seq<real>, offset: real, range: real) returns (coords: seq<real>)
    requires range > 0.0
    ensures coords == Coords(o, values, offset, range)
    ensures |coords| == 4 * |values|
    ensures forall j :: 0 <= j < |values| ==>
      coords[4 * j..4 * j + 4] == Quad(o, Ratio(o, values[j], offset, range))
  {
    coords := [];
    var i := 0;
    while i < |values|
      invariant 0 <= i <= |values|
      invariant coords == Coords(o, values[..i], offset, range)
    {
      var t := Ratio(o, values[i], offset, range);
      if o == X {
        coords := coords + [t];
        coords := coords + [0.0];
        coords := coords + [t];
        coords := coords + [1.0];
      } else {
        coords := coords + [0.0];
        coords := coords + [t];
        coords := coords + [1.0];
        coords := coords + [t];
      }
      assert values[..i + 1][..i] == values[..i];
      i := i + 1;
    }
    assert values[..i] == values;
    CoordsShape(o, values, offset, range);
  }
}
