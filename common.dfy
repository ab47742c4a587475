/** Types and helpers shared by every component of the brick-game simulation. */
module Common {

  datatype Option<T> = None | Some(value: T)

  /** A raised JavaScript exception, as far as the simulation can observe it. */
  datatype Outcome = Done | Thrown(error: Error)

  datatype Error =
    | NotFound(levelNumber: int)   // `Level n not found`
    | TypeError                    // a property read on `undefined`

  /** A geometry slot of a brick: a number of pixels, or a percentage string such as "25%". */
  datatype Field = Num(v: real) | Pct(p: real)

  /** What a collision test reads from its target: x, y, width and height, each a number or a string. */
  datatype Shape = Shape(x: Field, y: Field, width: Field, height: Field)
  {
    predicate IsNumeric() {
      x.Num? && y.Num? && width.Num? && height.Num?
    }
  }

  /** An axis-aligned rectangle whose four properties are numbers. */
  datatype Rect = Rect(x: real, y: real, width: real, height: real)
  {
    function AsShape(): (s: Shape)
      ensures s.IsNumeric()
    {
      Shape(Num(x), Num(y), Num(width), Num(height))
    }
  }

  /** Timer ids, as returned by `setTimeout`: positive, hence truthy. */
  type Handle = h: int | h > 0 witness 1

  /** The reference frame interval (ms) every time-scaled update divides by. */
  const FrameMs: real := 16.67

  function Min(a: real, b: real): (r: real)
    ensures r <= a && r <= b && (r == a || r == b)
  {
    if a <= b then a else b
  }

  function Max(a: real, b: real): (r: real)
    ensures r >= a && r >= b && (r == a || r == b)
  {
    if a >= b then a else b
  }

  function Abs(a: real): (r: real)
    ensures r >= 0.0 && (r == a || r == -a)
  {
    if a < 0.0 then -a else a
  }

  function Sq(a: real): (r: real)
    ensures r >= 0.0
  {
    a * a
  }

  /**
   * `Math.max(lo, Math.min(v, hi))`: the nearest value to `v` in `[lo, hi]`;
   * when the interval is empty the lower end wins.
   */
  function Clamp(v: real, lo: real, hi: real): (r: real)
    ensures r >= lo
    ensures lo <= hi ==> r <= hi
    ensures lo <= v <= hi ==> r == v
    ensures v < lo ==> r == lo
    ensures lo <= hi < v ==> r == hi
  {
    Max(lo, Min(v, hi))
  }

  /**
   * The paddle-position clamp written out in several places of the source:
   * `if (x < 0) x = 0; if (x + w > W) x = W - w;` — left edge first, then right edge.
   * Its result is the nearest point of `[0, W - w]`, except that a paddle wider than
   * the field ends up at `W - w`, left of the origin.
   */
  function ClampToField(v: real, w: real, fieldWidth: real): (r: real)
    ensures 0.0 <= fieldWidth - w ==> 0.0 <= r <= fieldWidth - w
    ensures 0.0 <= v <= fieldWidth - w ==> r == v
    ensures fieldWidth - w < 0.0 ==> r == fieldWidth - w
    ensures r == (if fieldWidth - w < 0.0 then fieldWidth - w else Clamp(v, 0.0, fieldWidth - w))
  {
    var left := if v < 0.0 then 0.0 else v;
    if left + w > fieldWidth then fieldWidth - w else left
  }
}
