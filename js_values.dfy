/**
 * JavaScript values the grid layout engine works with: optional numbers,
 * colour values with JavaScript truthiness, growable arrays that several
 * owners may share, and the clamp helper the engine imports.
 */
module JsValues {

  datatype Option<T> = None | Some(value: T)

  /** A colour value as the engine passes it around: `null`/`false`
      (no stroke) or a CSS colour string. */
  datatype Paint = Null | Css(css: string)

  /** JavaScript truthiness of a colour value: `null` and `''` are falsy. */
  predicate Truthy(p: Paint) {
    p.Css? && p.css != ""
  }

  /** Surface size in device pixels, `[width, height]`. */
  datatype Shape = Shape(width: real, height: real)

  /** Resolved padding, in the order the source destructures it:
      `[top, right, bottom, left]`. */
  datatype Padding = Padding(top: real, right: real, bottom: real, left: real)

  /** A JavaScript array: a reference whose contents grow by `push`.
      Two owners holding the same reference see each other's pushes. */
  class JsArray<T> {
    var items: seq<T>

    constructor (init: seq<T>)
      ensures items == init
    {
      items := init;
    }

    method Push(x: T)
      modifies this
      ensures items == old(items) + [x]
    {
      items := items + [x];
    }
  }

  /** `Array(n).fill(v)`. */
  function Broadcast<T>(n: nat, v: T): (r: seq<T>)
    ensures |r| == n
    ensures forall i :: 0 <= i < n ==> r[i] == v
  {
    seq(n, _ => v)
  }

  /** The clamp the engine imports; its behaviour when the bounds cross is
      not known here, so the bounds must be ordered. */
  function Clamp(x: real, lo: real, hi: real): (r: real)
    requires lo <= hi
    ensures lo <= r <= hi
    ensures lo <= x <= hi ==> r == x
    ensures x < lo ==> r == lo
    ensures x > hi ==> r == hi
  {
    if x < lo then lo else if x > hi then hi else x
  }

  /** Clamp against bounds that may be absent (the source's -Infinity and
      Infinity); present bounds must be ordered. */
  function ClampBounds(x: real, lo: Option<real>, hi: Option<real>): (r: real)
    requires lo.Some? && hi.Some? ==> lo.value <= hi.value
    ensures lo.Some? ==> lo.value <= r
    ensures hi.Some? ==> r <= hi.value
    ensures (lo.None? || lo.value <= x) && (hi.None? || x <= hi.value) ==> r == x
    ensures lo.Some? && x < lo.value ==> r == lo.value
    ensures hi.Some? && x > hi.value ==> r == hi.value
  {
    if lo.Some? && x < lo.value then lo.value
    else if hi.Some? && x > hi.value then hi.value
    else x
  }

  /** Foreign services the engine calls but this model does not see:
      `color-alpha`, `parseUnit`/`toPx` from the font-size resolution,
      `almost` (approximate equality) and the canvas `measureText`
      (text, font size in px, font family) -> width. */
  datatype Host = Host(
    alpha: (Paint, real) -> Paint,
    parseUnit: string -> (real, string),
    toPx: string -> real,
    almost: (real, real) -> bool,
    measureText: (string, real, string) -> real)
}
