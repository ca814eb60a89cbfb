/** The drawable itself: its configuration, the shape it draws for given bounds and
    its opacity class. */
module ColorSquare {
  import opened JavaInt
  import opened Graphics
  import opened Geometry

  /** The three ways `draw` can render. */
  datatype ShapeMode = CircleMode | PlainRect | RoundedRect

  /** What `draw` hands to the canvas: `drawCircle`, `drawRect` or `drawPath`. */
  datatype Shape =
    | CircleShape(circle: Circle)
    | RectShape(rect: Rect)
    | PathShape(arcs: seq<Arc>)

  /** The three opacity classes `getOpacity` can report. */
  datatype Opacity = Opaque | Transparent | Translucent

  /** The drawable's configuration, fixed when it is built. The flag the source
      names `isSquare` in its constructors is stored here as `isCircular`, and
      `true` selects the circle. */
  datatype ColorSquareDrawable = ColorSquareDrawable(
    color: int32,
    isCircular: bool,
    topLeftRadius: int32,
    topRightRadius: int32,
    bottomRightRadius: int32,
    bottomLeftRadius: int32)
  {
    /** The radius requested for corner `c`. */
    function RequestedRadius(c: Corner): int32 {
      match c
      case TopLeft => topLeftRadius
      case TopRight => topRightRadius
      case BottomRight => bottomRightRadius
      case BottomLeft => bottomLeftRadius
    }

    /** The branch `draw` takes. */
    function Mode(): (m: ShapeMode)
      ensures m == CircleMode <==> isCircular
      ensures m == PlainRect <==> !isCircular && forall c: Corner :: RequestedRadius(c) == 0
      ensures m == RoundedRect <==> !isCircular && exists c: Corner :: RequestedRadius(c) != 0
    {
      if isCircular then CircleMode
      else if topLeftRadius == 0 && topRightRadius == 0 && bottomLeftRadius == 0 && bottomRightRadius == 0 then PlainRect
      else
        assert RequestedRadius(TopLeft) != 0 || RequestedRadius(TopRight) != 0
            || RequestedRadius(BottomRight) != 0 || RequestedRadius(BottomLeft) != 0;
        RoundedRect
    }

    /** The arc of corner `c`, its requested radius clamped to `maxRadius`: a quarter
        turn from that corner's start angle, in a square at that corner of the bounds
        whose side is twice the smaller of the request and `maxRadius`. */
    function ClampedArc(c: Corner, b: Rect, maxRadius: real): (a: Arc)
      ensures a.startAngle == StartAngle(c) && a.sweepAngle == QuarterSweep
      ensures CornerPoint(c, a.oval) == CornerPoint(c, ToRectF(b))
      ensures var side := a.oval.right - a.oval.left;
        && a.oval.bottom - a.oval.top == side
        && side <= 2.0 * maxRadius && side <= 2.0 * RequestedRadius(c) as real
        && (side == 2.0 * maxRadius || side == 2.0 * RequestedRadius(c) as real)
    {
      CornerArc(c, b, EffectiveRadius(RequestedRadius(c), maxRadius))
    }

    /** The outline of the rounded rectangle: one clamped arc per corner, in path order,
        each clamped to `maxRadius`. */
    function RoundedPath(b: Rect): (p: seq<Arc>)
      ensures |p| == 4
      ensures forall i :: 0 <= i < 4 ==> p[i] == ClampedArc(PathOrder[i], b, MaxRadius(b))
    {
      var m := MaxRadius(b);
      [ClampedArc(TopLeft, b, m), ClampedArc(TopRight, b, m),
       ClampedArc(BottomRight, b, m), ClampedArc(BottomLeft, b, m)]
    }

    /** What `draw` produces for bounds `b`. */
    function Render(b: Rect): (s: Shape)
      ensures s.CircleShape? <==> isCircular
      ensures s.RectShape? <==> Mode() == PlainRect
      ensures s.RectShape? ==> s.rect == b
      ensures s.PathShape? ==> |s.arcs| == 4
    {
      match Mode()
      case CircleMode =>
        CircleShape(CircleOf(b))
      case PlainRect => RectShape(b)
      case RoundedRect => PathShape(RoundedPath(b))
    }

    /** `draw(canvas)`, with `getBounds()` passed in as `bounds` and the canvas call
        returned as a `Shape`. */
    method Draw(bounds: Rect) returns (s: Shape)
      ensures s == Render(bounds)
    {
      if isCircular {
        var cx := Sub(bounds.right, bounds.left) as real / 2.0;
        var cy := Sub(bounds.bottom, bounds.top) as real / 2.0;
        s := CircleShape(Circle(cx + bounds.left as real, cy + bounds.top as real,
                                if Abs(cx) <= Abs(cy) then Abs(cx) else Abs(cy)));
      } else if !isCircular && topLeftRadius == 0 && topRightRadius == 0
             && bottomLeftRadius == 0 && bottomRightRadius == 0 {
        s := RectShape(bounds);
      } else {
        var cx := Sub(bounds.right, bounds.left) as real / 2.0;
        var cy := Sub(bounds.bottom, bounds.top) as real / 2.0;
        var maxRadius := if Abs(cx) <= Abs(cy) then Abs(cx) else Abs(cy);
        assert maxRadius == MaxRadius(bounds);
        var path := new Path();
        DrawTopLeft(maxRadius, path, bounds);
        DrawTopRight(maxRadius, path, bounds);
        DrawBottomRight(maxRadius, path, bounds);
        DrawBottomLeft(maxRadius, path, bounds);
        s := PathShape(path.arcs);
      }
    }

    /** Appends the top-left arc, its radius clamped to `radius`. */
    method DrawTopLeft(radius: real, path: Path, bounds: Rect)
      modifies path
      ensures path.arcs == old(path.arcs) + [ClampedArc(TopLeft, bounds, radius)]
    {
      var r := if topLeftRadius as real <= radius then topLeftRadius as real else radius;
      var oval := RectF(0.0, 0.0, 0.0, 0.0);
      oval := oval.(left := bounds.left as real);
      oval := oval.(top := bounds.top as real);
      oval := oval.(right := bounds.left as real + 2.0 * r);
      oval := oval.(bottom := bounds.top as real + 2.0 * r);
      path.ArcTo(oval, 180.0, 90.0);
    }

    /** Appends the top-right arc, its radius clamped to `radius`. */
    method DrawTopRight(radius: real, path: Path, bounds: Rect)
      modifies path
      ensures path.arcs == old(path.arcs) + [ClampedArc(TopRight, bounds, radius)]
    {
      var r := if topRightRadius as real <= radius then topRightRadius as real else radius;
      var oval := RectF(0.0, 0.0, 0.0, 0.0);
      oval := oval.(left := bounds.right as real - 2.0 * r);
      oval := oval.(top := bounds.top as real);
      oval := oval.(right := bounds.right as real);
      oval := oval.(bottom := bounds.top as real + 2.0 * r);
      path.ArcTo(oval, 270.0, 90.0);
    }

    /** Appends the bottom-right arc, its radius clamped to `radius`. */
    method DrawBottomRight(radius: real, path: Path, bounds: Rect)
      modifies path
      ensures path.arcs == old(path.arcs) + [ClampedArc(BottomRight, bounds, radius)]
    {
      var r := if bottomRightRadius as real <= radius then bottomRightRadius as real else radius;
      var oval := RectF(0.0, 0.0, 0.0, 0.0);
      oval := oval.(left := bounds.right as real - 2.0 * r);
      oval := oval.(top := bounds.bottom as real - 2.0 * r);
      oval := oval.(right := bounds.right as real);
      oval := oval.(bottom := bounds.bottom as real);
      path.ArcTo(oval, 0.0, 90.0);
    }

    /** Appends the bottom-left arc, its radius clamped to `radius`. */
    method DrawBottomLeft(radius: real, path: Path, bounds: Rect)
      modifies path
      ensures path.arcs == old(path.arcs) + [ClampedArc(BottomLeft, bounds, radius)]
    {
      var r := if bottomLeftRadius as real <= radius then bottomLeftRadius as real else radius;
      var oval := RectF(0.0, 0.0, 0.0, 0.0);
      oval := oval.(left := bounds.left as real);
      oval := oval.(top := bounds.bottom as real - 2.0 * r);
      oval := oval.(right := bounds.left as real + 2.0 * r);
      oval := oval.(bottom := bounds.bottom as real);
      path.ArcTo(oval, 90.0, 90.0);
    }

    /** The alpha byte, `color >>> 24`. */
    function Alpha(): (a: int)
      ensures 0 <= a <= 255
    {
      UnsignedShiftRight24(color)
    }

    /** `getOpacity()`: classified by the alpha byte alone. */
    function GetOpacity(): (o: Opacity)
      ensures o == Opaque <==> Alpha() == 255
      ensures o == Transparent <==> Alpha() == 0
      ensures o == Translucent <==> 0 < Alpha() < 255
    {
      match Alpha()
      case 255 => Opaque
      case 0 => Transparent
      case _ => Translucent
    }
  }

  /** `ColorSquareDrawable(color)`. */
  function Circular(color: int32): (d: ColorSquareDrawable)
    ensures d.color == color && d.isCircular
    ensures forall c: Corner :: d.RequestedRadius(c) == 0
  {
    WithShapeFlag(color, true)
  }

  /** `ColorSquareDrawable(color, isSquare)`. */
  function WithShapeFlag(color: int32, isSquare: bool): (d: ColorSquareDrawable)
    ensures d.color == color && d.isCircular == isSquare
    ensures forall c: Corner :: d.RequestedRadius(c) == 0
  {
    ColorSquareDrawable(color, isSquare, 0, 0, 0, 0)
  }

  /** `ColorSquareDrawable(color, radius)`. */
  function Uniform(color: int32, radius: int32): (d: ColorSquareDrawable)
    ensures d.color == color && !d.isCircular
    ensures forall c: Corner :: d.RequestedRadius(c) == radius
  {
    ColorSquareDrawable(color, false, radius, radius, radius, radius)
  }

  /** `ColorSquareDrawable(color, topLeft, topRight, bottomRight, bottomLeft)`. */
  function PerCorner(color: int32, topLeft: int32, topRight: int32, bottomRight: int32, bottomLeft: int32): (d: ColorSquareDrawable)
    ensures d.color == color && !d.isCircular
    ensures d.RequestedRadius(TopLeft) == topLeft && d.RequestedRadius(TopRight) == topRight
    ensures d.RequestedRadius(BottomRight) == bottomRight && d.RequestedRadius(BottomLeft) == bottomLeft
  {
    ColorSquareDrawable(color, false, topLeft, topRight, bottomRight, bottomLeft)
  }
}
