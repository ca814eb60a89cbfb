/** The parts of Android's graphics package the drawable uses, reduced to what the
    drawable relies on: integer and float rectangles, and a path that records the
    arcs appended to it. */
module Graphics {
  import opened JavaInt

  /** Android's `Rect`: integer edges; nothing forces `left <= right` or `top <= bottom`. */
  datatype Rect = Rect(left: int32, top: int32, right: int32, bottom: int32)

  /** Android's `RectF`, with exact reals in place of floats. */
  datatype RectF = RectF(left: real, top: real, right: real, bottom: real)

  /** One `arcTo(oval, startAngle, sweepAngle)` call: angles in degrees, 0 pointing
      along +x and positive angles turning clockwise (y grows downwards). */
  datatype Arc = Arc(oval: RectF, startAngle: real, sweepAngle: real)

  /** Android's `Path`, seen as the sequence of arcs appended to it. */
  class Path {
    var arcs: seq<Arc>

    constructor ()
      ensures arcs == []
    {
      arcs := [];
    }

    /** Appends one arc record; nothing else about the path changes. */
    method ArcTo(oval: RectF, startAngle: real, sweepAngle: real)
      modifies this
      ensures arcs == old(arcs) + [Arc(oval, startAngle, sweepAngle)]
    {
      arcs := arcs + [Arc(oval, startAngle, sweepAngle)];
    }
  }
}
