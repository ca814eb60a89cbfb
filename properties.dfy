/** What the drawable guarantees about the shape it draws and the opacity it reports. */
module ColorSquareProperties {
  import opened JavaInt
  import opened Graphics
  import opened Geometry
  import opened ColorSquare

  // ---------------------------------------------------------------- construction

  /** The one-argument constructor gives a circle with no corner radii. */
  lemma CircularConstructor(color: int32)
    ensures Circular(color).color == color
    ensures Circular(color).Mode() == CircleMode
    ensures forall c: Corner :: Circular(color).RequestedRadius(c) == 0
  {
  }

  /** The flag constructor: `true` gives a circle, `false` a plain rectangle. */
  lemma ShapeFlagConstructor(color: int32, isSquare: bool)
    ensures WithShapeFlag(color, isSquare).color == color
    ensures WithShapeFlag(color, isSquare).Mode() == if isSquare then CircleMode else PlainRect
  {
  }

  /** The uniform-radius constructor: all four corners request `radius`; the shape is a
      plain rectangle when it is 0 and a rounded one otherwise, negative included. */
  lemma UniformConstructor(color: int32, radius: int32)
    ensures Uniform(color, radius).color == color && !Uniform(color, radius).isCircular
    ensures forall c: Corner :: Uniform(color, radius).RequestedRadius(c) == radius
    ensures Uniform(color, radius).Mode() == if radius == 0 then PlainRect else RoundedRect
  {
  }

  /** The per-corner constructor stores each radius at the corner it names. */
  lemma PerCornerConstructor(color: int32, topLeft: int32, topRight: int32, bottomRight: int32, bottomLeft: int32)
    ensures var d := PerCorner(color, topLeft, topRight, bottomRight, bottomLeft);
      d.color == color && !d.isCircular &&
      d.RequestedRadius(TopLeft) == topLeft && d.RequestedRadius(TopRight) == topRight &&
      d.RequestedRadius(BottomRight) == bottomRight && d.RequestedRadius(BottomLeft) == bottomLeft
  {
  }

  // ---------------------------------------------------------------- shape selection

  /** One nonzero corner radius, negative or positive, forces the rounded outline. */
  lemma NonzeroRadiusForcesRounded(d: ColorSquareDrawable, c: Corner, b: Rect)
    requires !d.isCircular && d.RequestedRadius(c) != 0
    ensures d.Mode() == RoundedRect
    ensures d.Render(b) == PathShape(d.RoundedPath(b))
  {
  }

  /** In circle mode the radii are ignored: every circular drawable draws the circle
      `CircleOf` gives for the bounds. */
  lemma CircleIgnoresRadii(d: ColorSquareDrawable, e: ColorSquareDrawable, b: Rect)
    requires d.isCircular && e.isCircular
    ensures d.Render(b) == e.Render(b) == CircleShape(CircleOf(b))
  {
  }

  /** In plain-rectangle mode the bounds are drawn unchanged. */
  lemma PlainRectIsBounds(d: ColorSquareDrawable, b: Rect)
    requires d.Mode() == PlainRect
    ensures d.Render(b) == RectShape(b)
  {
  }

  // ---------------------------------------------------------------- circle

  /** For bounds whose width and height are Java `int`s, the circle is centred on the
      midpoint of the bounds, its radius is half the shorter side, and it stays
      inside the bounds, whichever way round the edges are given. */
  lemma CircleInscribed(b: Rect)
    requires Fits(b.right as int - b.left as int) && Fits(b.bottom as int - b.top as int)
    ensures var c := CircleOf(b);
      var w := Abs(b.right as real - b.left as real);
      var h := Abs(b.bottom as real - b.top as real);
      && 2.0 * c.cx == b.left as real + b.right as real
      && 2.0 * c.cy == b.top as real + b.bottom as real
      && 0.0 <= 2.0 * c.radius <= w && 2.0 * c.radius <= h
      && (2.0 * c.radius == w || 2.0 * c.radius == h)
      && (b.left <= b.right ==> b.left as real <= c.cx - c.radius && c.cx + c.radius <= b.right as real)
      && (b.right <= b.left ==> b.right as real <= c.cx - c.radius && c.cx + c.radius <= b.left as real)
      && (b.top <= b.bottom ==> b.top as real <= c.cy - c.radius && c.cy + c.radius <= b.bottom as real)
      && (b.bottom <= b.top ==> b.bottom as real <= c.cy - c.radius && c.cy + c.radius <= b.top as real)
  {
  }

  /** For square bounds the circle's radius is half the side. */
  lemma SquareBoundsCircle(b: Rect)
    requires Sub(b.right, b.left) == Sub(b.bottom, b.top)
    ensures 2.0 * CircleOf(b).radius == Abs(Sub(b.right, b.left) as real)
  {
  }

  /** Every point of the filled disc lies inside normalised bounds: the circle is
      never clipped. */
  lemma DiscInsideBounds(b: Rect, x: real, y: real)
    requires Normalised(b)
    requires var c := CircleOf(b);
      (x - c.cx) * (x - c.cx) + (y - c.cy) * (y - c.cy) <= c.radius * c.radius
    ensures b.left as real <= x <= b.right as real && b.top as real <= y <= b.bottom as real
  {
    var c := CircleOf(b);
    var dx, dy := x - c.cx, y - c.cy;
    assert 0.0 <= dx * dx && 0.0 <= dy * dy;
    SquareBound(dx, c.radius);
    SquareBound(dy, c.radius);
  }

  // ---------------------------------------------------------------- corners

  /** Every corner's radius is at most half of either side, whatever was requested;
      a request that fits is used as it is, and a negative one is not raised to 0. */
  lemma CornerRadiusClamp(d: ColorSquareDrawable, b: Rect, c: Corner)
    ensures var r := EffectiveRadius(d.RequestedRadius(c), MaxRadius(b));
      && r <= Abs(HalfWidth(b)) && r <= Abs(HalfHeight(b))
      && (d.RequestedRadius(c) as real <= MaxRadius(b) ==> r == d.RequestedRadius(c) as real)
      && (d.RequestedRadius(c) < 0 ==> r == d.RequestedRadius(c) as real)
      && (d.RequestedRadius(c) as real > MaxRadius(b) ==> r == MaxRadius(b))
  {
  }

  /** The rounded outline is four quarter arcs, one per corner in the order top-left,
      top-right, bottom-right, bottom-left, starting at 180, 270, 0 and 90 degrees,
      each drawn in that corner's square for its clamped radius. */
  lemma RoundedPathLayout(d: ColorSquareDrawable, b: Rect)
    ensures var p := d.RoundedPath(b);
      && |p| == 4
      && [p[0].startAngle, p[1].startAngle, p[2].startAngle, p[3].startAngle] == [180.0, 270.0, 0.0, 90.0]
      && (forall i :: 0 <= i < 4 ==> p[i].sweepAngle == 90.0)
      && (forall i :: 0 <= i < 4 ==>
            p[i].oval == CornerOval(PathOrder[i], b, EffectiveRadius(d.RequestedRadius(PathOrder[i]), MaxRadius(b))))
  {
  }

  /** The outline turns one way round: each arc starts at the angle where the previous
      one ends, modulo 360 degrees, and the last ends where the first starts. */
  lemma OutlineTurnsClockwise(d: ColorSquareDrawable, b: Rect)
    ensures var p := d.RoundedPath(b);
      && (forall i :: 0 <= i < 3 ==>
            p[i + 1].startAngle == p[i].startAngle + p[i].sweepAngle
            || p[i + 1].startAngle == p[i].startAngle + p[i].sweepAngle - 360.0)
      && p[0].startAngle == p[3].startAngle + p[3].sweepAngle
  {
  }

  /** `d` with the radius of corner `c` replaced by `r`. */
  function WithRadius(d: ColorSquareDrawable, c: Corner, r: int32): ColorSquareDrawable {
    match c
    case TopLeft => d.(topLeftRadius := r)
    case TopRight => d.(topRightRadius := r)
    case BottomRight => d.(bottomRightRadius := r)
    case BottomLeft => d.(bottomLeftRadius := r)
  }

  /** Corners are clamped independently: changing one corner's request changes that
      corner's arc only, and its new arc depends on nothing but the new request. */
  lemma IndependentClamping(d: ColorSquareDrawable, b: Rect, c: Corner, r: int32)
    ensures var p := d.RoundedPath(b);
      var q := WithRadius(d, c, r).RoundedPath(b);
      && |p| == |q| == 4
      && (forall i :: 0 <= i < 4 && PathOrder[i] != c ==> q[i] == p[i])
      && (forall i :: 0 <= i < 4 && PathOrder[i] == c ==> q[i] == CornerArc(c, b, EffectiveRadius(r, MaxRadius(b))))
  {
  }

  /** A corner that requests radius 0 keeps its sharp corner: its oval is the single
      point at that corner of the bounds. */
  lemma ZeroRadiusCornerIsSharp(d: ColorSquareDrawable, b: Rect, i: nat)
    requires i < 4 && d.RequestedRadius(PathOrder[i]) == 0
    ensures var o := d.RoundedPath(b)[i].oval;
      o.left == o.right && o.top == o.bottom &&
      CornerPoint(PathOrder[i], o) == CornerPoint(PathOrder[i], ToRectF(b))
  {
  }

  /** With all four requests 0 the outline passes through exactly the four corners
      of the plain rectangle. */
  lemma AllZeroOutlineIsRectangle(d: ColorSquareDrawable, b: Rect)
    requires forall c: Corner :: d.RequestedRadius(c) == 0
    ensures var p := d.RoundedPath(b);
      && p[0].oval == RectF(b.left as real, b.top as real, b.left as real, b.top as real)
      && p[1].oval == RectF(b.right as real, b.top as real, b.right as real, b.top as real)
      && p[2].oval == RectF(b.right as real, b.bottom as real, b.right as real, b.bottom as real)
      && p[3].oval == RectF(b.left as real, b.bottom as real, b.left as real, b.bottom as real)
  {
  }

  /** A negative request is passed to `arcTo` as it is: its square is turned inside out. */
  lemma NegativeRadiusInvertsOval(d: ColorSquareDrawable, b: Rect, i: nat)
    requires i < 4 && d.RequestedRadius(PathOrder[i]) < 0
    ensures var o := d.RoundedPath(b)[i].oval;
      o.right < o.left && o.bottom < o.top
  {
  }

  /** For normalised bounds and non-negative requests every corner's square lies
      inside the bounds, and the quarter each arc sweeps lies inside its own quadrant
      of the bounds, so arcs of different corners can touch at a midpoint but never
      cross, however large the requests. */
  lemma ArcsStayInQuadrants(d: ColorSquareDrawable, b: Rect)
    requires Normalised(b)
    requires forall c: Corner :: d.RequestedRadius(c) >= 0
    ensures var p := d.RoundedPath(b);
      forall i :: 0 <= i < 4 ==>
        Within(p[i].oval, ToRectF(b)) && Within(SweptBox(p[i]), Quadrant(PathOrder[i], b))
  {
    var p := d.RoundedPath(b);
    forall i | 0 <= i < 4
      ensures Within(p[i].oval, ToRectF(b)) && Within(SweptBox(p[i]), Quadrant(PathOrder[i], b))
    {
      var c := PathOrder[i];
      CornerArcInQuadrant(c, b, EffectiveRadius(d.RequestedRadius(c), MaxRadius(b)));
    }
  }

  /** One corner: a radius between 0 and the largest that fits keeps the corner's
      square inside the bounds and its swept quarter inside the corner's quadrant. */
  lemma CornerArcInQuadrant(c: Corner, b: Rect, r: real)
    requires Normalised(b)
    requires 0.0 <= r <= MaxRadius(b)
    ensures Within(CornerOval(c, b, r), ToRectF(b))
    ensures Within(SweptBox(CornerArc(c, b, r)), Quadrant(c, b))
  {
    var hw, hh := HalfWidth(b), HalfHeight(b);
    assert 2.0 * hw == b.right as real - b.left as real;
    assert 2.0 * hh == b.bottom as real - b.top as real;
    assert r <= hw && r <= hh;
  }

  /** For normalised bounds and a non-negative request, every point of the disc that
      rounds a corner lies inside that corner's square and so inside the bounds. */
  lemma CornerDiscInsideBounds(d: ColorSquareDrawable, b: Rect, c: Corner, x: real, y: real)
    requires Normalised(b) && d.RequestedRadius(c) >= 0
    requires InDisc(d.ClampedArc(c, b, MaxRadius(b)).oval, x, y)
    ensures var o := d.ClampedArc(c, b, MaxRadius(b)).oval;
      o.left <= x <= o.right && o.top <= y <= o.bottom
    ensures b.left as real <= x <= b.right as real && b.top as real <= y <= b.bottom as real
  {
    var r := EffectiveRadius(d.RequestedRadius(c), MaxRadius(b));
    CornerArcInQuadrant(c, b, r);
    SquareContainsDisc(CornerOval(c, b, r), x, y);
  }

  /** `(x, y)` lies in the disc inscribed in the square `o`. */
  ghost predicate InDisc(o: RectF, x: real, y: real) {
    var r := (o.right - o.left) / 2.0;
    var dx, dy := x - (o.left + o.right) / 2.0, y - (o.top + o.bottom) / 2.0;
    dx * dx + dy * dy <= r * r
  }

  /** The disc inscribed in a square lies inside the square. */
  lemma SquareContainsDisc(o: RectF, x: real, y: real)
    requires o.left <= o.right && o.right - o.left == o.bottom - o.top
    requires InDisc(o, x, y)
    ensures o.left <= x <= o.right && o.top <= y <= o.bottom
  {
    var r := (o.right - o.left) / 2.0;
    var dx, dy := x - (o.left + o.right) / 2.0, y - (o.top + o.bottom) / 2.0;
    assert 0.0 <= dx * dx && 0.0 <= dy * dy;
    SquareBound(dx, r);
    SquareBound(dy, r);
  }

  // ---------------------------------------------------------------- arithmetic

  lemma PositiveProduct(u: real, v: real)
    requires u > 0.0 && v > 0.0
    ensures u * v > 0.0
  {
  }

  /** A square no larger than `r * r` has a root of magnitude at most `r`. */
  lemma SquareBound(t: real, r: real)
    requires 0.0 <= r && t * t <= r * r
    ensures -r <= t <= r
  {
    SquareBoundAbove(t, r);
    assert (-t) * (-t) == t * t;
    SquareBoundAbove(-t, r);
  }

  lemma SquareBoundAbove(t: real, r: real)
    requires 0.0 <= r && t * t <= r * r
    ensures t <= r
  {
    if t > r {
      PositiveProduct(t - r, t + r);
      assert false;
    }
  }

  // ---------------------------------------------------------------- opacity

  /** The Java literal `0xAARRGGBB` with alpha byte `alpha` and colour bits `rgb`. */
  function ArgbLiteral(alpha: int, rgb: int): int32
    requires 0 <= alpha < 256 && 0 <= rgb < 0x100_0000
  {
    Wrap(alpha * 0x100_0000 + rgb)
  }

  /** `>>> 24` recovers the alpha byte of a colour literal, even when the literal is
      a negative `int`. */
  lemma AlphaOfArgb(alpha: int, rgb: int)
    requires 0 <= alpha < 256 && 0 <= rgb < 0x100_0000
    ensures UnsignedShiftRight24(ArgbLiteral(alpha, rgb)) == alpha
  {
  }

  /** Every Java `int` colour is the literal `0xAARRGGBB` of its alpha byte and its
      low 24 bits, so the lemmas about literals cover every colour. */
  lemma EveryColorIsArgbLiteral(color: int32)
    ensures 0 <= color as int % 0x100_0000 < 0x100_0000
    ensures color == ArgbLiteral(UnsignedShiftRight24(color), color as int % 0x100_0000)
  {
    assert Fits(color as int);
    var u := color as int % Modulus;
    var alpha := u / 0x100_0000;
    var rgb := u % 0x100_0000;
    assert rgb == color as int % 0x100_0000;
    assert color == ArgbLiteral(alpha, rgb);
  }

  /** Opacity depends on the alpha byte only: `0xFF……` is opaque, `0x00……` transparent,
      anything else translucent. */
  lemma OpacityOfArgb(d: ColorSquareDrawable, alpha: int, rgb: int)
    requires 0 <= alpha < 256 && 0 <= rgb < 0x100_0000
    requires d.color == ArgbLiteral(alpha, rgb)
    ensures d.GetOpacity() == if alpha == 255 then Opaque else if alpha == 0 then Transparent else Translucent
  {
    AlphaOfArgb(alpha, rgb);
  }

  /** A colour is a negative `int` exactly when its alpha byte is 128 or more. */
  lemma NegativeColorHasHighAlpha(d: ColorSquareDrawable)
    ensures d.color < 0 <==> d.Alpha() >= 128
  {
  }

  // ---------------------------------------------------------------- scenarios

  /** Bounds 100 by 50 with uniform radius 40: every corner is clamped to 25, and
      neighbouring arcs meet at the midpoints of the long sides. */
  lemma UniformRadiusScenario(color: int32)
    ensures MaxRadius(Rect(0, 0, 100, 50)) == 25.0
    ensures Uniform(color, 40).Render(Rect(0, 0, 100, 50)) == PathShape([
      Arc(RectF(0.0, 0.0, 50.0, 50.0), 180.0, 90.0),
      Arc(RectF(50.0, 0.0, 100.0, 50.0), 270.0, 90.0),
      Arc(RectF(50.0, 0.0, 100.0, 50.0), 0.0, 90.0),
      Arc(RectF(0.0, 0.0, 50.0, 50.0), 90.0, 90.0)])
  {
  }

  /** Bounds 100 by 100 with radii 60, 10, 10, 10: the top-left corner is clamped to
      50 and the others keep 10; nothing is redistributed. */
  lemma IndependentClampScenario(color: int32)
    ensures PerCorner(color, 60, 10, 10, 10).Render(Rect(0, 0, 100, 100)) == PathShape([
      Arc(RectF(0.0, 0.0, 100.0, 100.0), 180.0, 90.0),
      Arc(RectF(80.0, 0.0, 100.0, 20.0), 270.0, 90.0),
      Arc(RectF(80.0, 80.0, 100.0, 100.0), 0.0, 90.0),
      Arc(RectF(0.0, 80.0, 20.0, 100.0), 90.0, 90.0)])
  {
  }
}
