/** The geometry `draw` computes from the host's bounds: half extents, the largest
    radius that fits, the clamp applied to each corner and the square each corner's
    arc is drawn in. */
module Geometry {
  import opened JavaInt
  import opened Graphics

  datatype Corner = TopLeft | TopRight | BottomRight | BottomLeft

  /** The order in which the rounded outline visits the corners. */
  const PathOrder: seq<Corner> := [TopLeft, TopRight, BottomRight, BottomLeft]

  datatype Point = Point(x: real, y: real)

  /** `Math.abs` on a float. */
  function Abs(x: real): (r: real)
    ensures r >= 0.0
    ensures r == x || r == -x
  {
    if x < 0.0 then -x else x
  }

  /** `(right - left) / 2f`: the subtraction is done on Java `int`s, the halving exactly.
      When the width is an `int` this is half of it, so `left + halfWidth` is the
      midpoint; otherwise the wrapped width is halved. */
  function HalfWidth(b: Rect): (h: real)
    ensures Fits(b.right as int - b.left as int) ==> 2.0 * h == b.right as real - b.left as real
    ensures -0x4000_0000 as real <= h < 0x4000_0000 as real
  {
    Sub(b.right, b.left) as real / 2.0
  }

  /** `(bottom - top) / 2f`, in the same way as `HalfWidth`. */
  function HalfHeight(b: Rect): (h: real)
    ensures Fits(b.bottom as int - b.top as int) ==> 2.0 * h == b.bottom as real - b.top as real
    ensures -0x4000_0000 as real <= h < 0x4000_0000 as real
  {
    Sub(b.bottom, b.top) as real / 2.0
  }

  /** `Math.abs(x) <= Math.abs(y) ? Math.abs(x) : Math.abs(y)`: the smaller magnitude. */
  function SmallerMagnitude(x: real, y: real): (r: real)
    ensures 0.0 <= r
    ensures r <= Abs(x) && r <= Abs(y)
    ensures r == Abs(x) || r == Abs(y)
  {
    if Abs(x) <= Abs(y) then Abs(x) else Abs(y)
  }

  /** The largest corner radius: half the shorter side of the bounds. */
  function MaxRadius(b: Rect): (m: real)
    ensures 0.0 <= m <= Abs(HalfWidth(b)) && m <= Abs(HalfHeight(b))
    ensures m == Abs(HalfWidth(b)) || m == Abs(HalfHeight(b))
  {
    SmallerMagnitude(HalfWidth(b), HalfHeight(b))
  }

  /** A circle given by its centre and radius. */
  datatype Circle = Circle(cx: real, cy: real, radius: real)

  /** The circle drawn in circle mode: centred at `left + halfWidth, top + halfHeight`,
      with the largest radius that fits. */
  function CircleOf(b: Rect): (c: Circle)
    ensures 0.0 <= c.radius <= Abs(c.cx - b.left as real) && c.radius <= Abs(c.cy - b.top as real)
    ensures c.radius == Abs(c.cx - b.left as real) || c.radius == Abs(c.cy - b.top as real)
    ensures Fits(b.right as int - b.left as int) ==> 2.0 * c.cx == b.left as real + b.right as real
    ensures Fits(b.bottom as int - b.top as int) ==> 2.0 * c.cy == b.top as real + b.bottom as real
    ensures c.radius == MaxRadius(b)
  {
    Circle(b.left as real + HalfWidth(b), b.top as real + HalfHeight(b), MaxRadius(b))
  }

  /** `requested <= maxRadius ? requested : maxRadius`: the radius a corner is drawn
      with. It is clamped from above only; a negative request is kept. */
  function EffectiveRadius(requested: int32, maxRadius: real): (r: real)
    ensures r <= maxRadius && r <= requested as real
    ensures r == maxRadius || r == requested as real
  {
    if requested as real <= maxRadius then requested as real else maxRadius
  }

  /** The rectangle with float edges that coincides with `b`. */
  function ToRectF(b: Rect): RectF {
    RectF(b.left as real, b.top as real, b.right as real, b.bottom as real)
  }

  /** The point of `r` at corner `c`. */
  function CornerPoint(c: Corner, r: RectF): Point {
    match c
    case TopLeft => Point(r.left, r.top)
    case TopRight => Point(r.right, r.top)
    case BottomRight => Point(r.right, r.bottom)
    case BottomLeft => Point(r.left, r.bottom)
  }

  /** The square, of side `2 * r`, in which the arc of corner `c` is drawn: it shares
      its corner `c` with the bounds. */
  function CornerOval(c: Corner, b: Rect, r: real): (o: RectF)
    ensures o.right - o.left == 2.0 * r && o.bottom - o.top == 2.0 * r
    ensures CornerPoint(c, o) == CornerPoint(c, ToRectF(b))
  {
    match c
    case TopLeft => RectF(b.left as real, b.top as real, b.left as real + 2.0 * r, b.top as real + 2.0 * r)
    case TopRight => RectF(b.right as real - 2.0 * r, b.top as real, b.right as real, b.top as real + 2.0 * r)
    case BottomRight => RectF(b.right as real - 2.0 * r, b.bottom as real - 2.0 * r, b.right as real, b.bottom as real)
    case BottomLeft => RectF(b.left as real, b.bottom as real - 2.0 * r, b.left as real + 2.0 * r, b.bottom as real)
  }

  /** The quarter of `o` at corner `c`, cut at the midpoints of its sides. */
  function QuarterAt(c: Corner, o: RectF): RectF {
    var mx := (o.left + o.right) / 2.0;
    var my := (o.top + o.bottom) / 2.0;
    match c
    case TopLeft => RectF(o.left, o.top, mx, my)
    case TopRight => RectF(mx, o.top, o.right, my)
    case BottomRight => RectF(mx, my, o.right, o.bottom)
    case BottomLeft => RectF(o.left, my, mx, o.bottom)
  }

  /** The angle at which the arc of corner `c` starts: a quarter turn from there sweeps
      exactly the quarter of any oval that lies at corner `c`, so the arc bulges
      towards that corner of the bounds. */
  function StartAngle(c: Corner): (a: real)
    ensures 0.0 <= a < 360.0
    ensures forall o: RectF :: SweptBox(Arc(o, a, QuarterSweep)) == QuarterAt(c, o)
  {
    match c
    case TopLeft => 180.0
    case TopRight => 270.0
    case BottomRight => 0.0
    case BottomLeft => 90.0
  }

  /** Every corner arc is a quarter turn. */
  const QuarterSweep: real := 90.0

  /** The arc drawn at corner `c` when that corner's effective radius is `r`. */
  function CornerArc(c: Corner, b: Rect, r: real): Arc {
    Arc(CornerOval(c, b, r), StartAngle(c), QuarterSweep)
  }

  /** The part of an arc's oval that a quarter arc sweeps through: a quarter turn
      from 180 covers the upper-left quarter of the oval, from 270 the upper-right,
      from 0 the lower-right and from 90 the lower-left. Any other arc is given its
      whole oval. */
  function SweptBox(a: Arc): RectF {
    var o := a.oval;
    var mx := (o.left + o.right) / 2.0;
    var my := (o.top + o.bottom) / 2.0;
    if a.sweepAngle != QuarterSweep then o
    else if a.startAngle == 180.0 then RectF(o.left, o.top, mx, my)
    else if a.startAngle == 270.0 then RectF(mx, o.top, o.right, my)
    else if a.startAngle == 0.0 then RectF(mx, my, o.right, o.bottom)
    else if a.startAngle == 90.0 then RectF(o.left, my, mx, o.bottom)
    else o
  }

  /** The quarter of normalised bounds `b` at corner `c`, cut at the midpoints. */
  function Quadrant(c: Corner, b: Rect): RectF {
    var mx := b.left as real + HalfWidth(b);
    var my := b.top as real + HalfHeight(b);
    match c
    case TopLeft => RectF(b.left as real, b.top as real, mx, my)
    case TopRight => RectF(mx, b.top as real, b.right as real, my)
    case BottomRight => RectF(mx, my, b.right as real, b.bottom as real)
    case BottomLeft => RectF(b.left as real, my, mx, b.bottom as real)
  }

  /** `inner` lies inside `outer` (edges may touch). */
  predicate Within(inner: RectF, outer: RectF) {
    outer.left <= inner.left <= inner.right <= outer.right &&
    outer.top <= inner.top <= inner.bottom <= outer.bottom
  }

  /** `b` has `left <= right` and `top <= bottom`, and its width and height are
      Java `int`s, so `right - left` and `bottom - top` do not overflow. */
  predicate Normalised(b: Rect) {
    b.left <= b.right && b.top <= b.bottom &&
    Fits(b.right as int - b.left as int) && Fits(b.bottom as int - b.top as int)
  }
}
