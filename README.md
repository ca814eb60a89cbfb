# ColorSquareDrawable, modelled in Dafny

`ColorSquareDrawable` is an Android `Drawable` that fills one solid colour. The shape is
a circle, a plain rectangle, or a rectangle whose four corners are rounded with
independently chosen radii. This project models the drawable's decisions and proves
properties of them:

- which of the three shapes `draw` picks;
- the circle's centre and radius;
- the largest usable corner radius (`maxRadius`), and the clamp applied to each corner;
- the four quarter arcs appended to the `Path`, in order;
- the opacity class reported by `getOpacity`.

Layout:

- `java_int.dfy` (module `JavaInt`): the Java `int` as a newtype, Java's wrap-around
  subtraction and `>>> 24`.
- `path.dfy` (module `Graphics`): stand-ins for Android's `Rect`, `RectF` and `Path`.
  `Path` is a class whose `ArcTo` appends one arc record to a sequence.
- `geometry.dfy` (module `Geometry`): half extents, `maxRadius`, the per-corner clamp,
  each corner's square, start angles, the quadrant of the bounds each corner owns.
- `drawable.dfy` (module `ColorSquare`): the drawable's configuration as a datatype,
  its constructors, the pure specification `Render` of what `draw` produces, and the
  imperative `Draw` with its four corner helpers, proved equal to `Render`.
  `GetOpacity` is also here.
- `properties.dfy` (module `ColorSquareProperties`): the lemmas.

Modelling choices:

- The fields are never changed after construction, so the drawable is a datatype value.
  Java's chained constructors are functions returning it.
- `getBounds()` becomes a `bounds` parameter. The call `draw` makes on the canvas is
  returned as a `Shape` value: a circle, the bounds rectangle, or the path's arcs.
- Float arithmetic is done on exact `real`s. Every `/2f` halves an integer, so the
  values are exact halves.
- `right - left` and `bottom - top` are computed in Java `int` arithmetic, which wraps
  around on overflow (`JavaInt.Sub`). The centre and containment lemmas hold for bounds
  whose width and height fit in an `int`.

Behaviours of the code worth noting:

- The constructor parameter named `isSquare` is stored as the circle flag, so `true`
  selects the circle.
- Corner radii are not forced to be non-negative. A negative request passes the clamp
  unchanged, selects the rounded outline, and gives an inside-out corner square
  (`NegativeRadiusInvertsOval`).
- Corners clamped to `maxRadius` can have overlapping squares. `ArcsStayInQuadrants`
  shows that for normalised bounds and non-negative radii the swept quarter arcs still
  stay in their own quadrants, so neighbouring arcs can meet at a midpoint but never
  cross.

## Model

| member | source | states |
|---|---|---|
| JavaInt.Sub | library/src/main/java/lyd/github/library/ColorSquareDrawable.java:126-127 | Java `int` subtraction: the true difference when it fits, otherwise that difference modulo 2^32 |
| JavaInt.UnsignedShiftRight24 | library/src/main/java/lyd/github/library/ColorSquareDrawable.java:159 | `x >>> 24` is a byte, below 128 for a non-negative `x` |
| Geometry.SmallerMagnitude | library/src/main/java/lyd/github/library/ColorSquareDrawable.java:113 | the ternary on `Math.abs` yields the smaller of the two magnitudes: non-negative, at most each, equal to one |
| Geometry.MaxRadius | library/src/main/java/lyd/github/library/ColorSquareDrawable.java:126-129 | `maxRadius` is non-negative, at most half the width and half the height, and equals one of them |
| Geometry.EffectiveRadius | library/src/main/java/lyd/github/library/ColorSquareDrawable.java:170 | the corner clamp yields the minimum of the request and `maxRadius`; it never raises a request |
| Geometry.CornerOval | library/src/main/java/lyd/github/library/ColorSquareDrawable.java:171-209 | each corner's oval is a square of side `2r` sharing that corner with the bounds |
| ColorSquare.ColorSquareDrawable.Mode | library/src/main/java/lyd/github/library/ColorSquareDrawable.java:108-125 | circle iff the flag is set; plain rectangle iff not circular and every corner requests 0; rounded iff not circular and some corner requests a nonzero radius |
| ColorSquare.ColorSquareDrawable.Draw | library/src/main/java/lyd/github/library/ColorSquareDrawable.java:106-137 | the imperative `draw`, building the path arc by arc, produces exactly the shape `Render` specifies |
| ColorSquare.ColorSquareDrawable.DrawTopLeft | library/src/main/java/lyd/github/library/ColorSquareDrawable.java:169-178 | appends exactly one arc: the top-left square for the clamped radius, starting at 180, sweeping 90 |
| ColorSquare.ColorSquareDrawable.DrawTopRight | library/src/main/java/lyd/github/library/ColorSquareDrawable.java:180-189 | appends exactly one arc: the top-right square for the clamped radius, starting at 270, sweeping 90 |
| ColorSquare.ColorSquareDrawable.DrawBottomRight | library/src/main/java/lyd/github/library/ColorSquareDrawable.java:191-200 | appends exactly one arc: the bottom-right square for the clamped radius, starting at 0, sweeping 90 |
| ColorSquare.ColorSquareDrawable.DrawBottomLeft | library/src/main/java/lyd/github/library/ColorSquareDrawable.java:202-211 | appends exactly one arc: the bottom-left square for the clamped radius, starting at 90, sweeping 90 |
| ColorSquare.ColorSquareDrawable.Alpha | library/src/main/java/lyd/github/library/ColorSquareDrawable.java:159 | the alpha byte lies in 0..255 |
| Geometry.CircleOf | library/src/main/java/lyd/github/library/ColorSquareDrawable.java:109-113 | the centre is the midpoint of the bounds whenever the width and height fit in an `int`; the radius is non-negative, at most the centre's distance to the left edge and to the top edge, equal to one of them, and equal to `maxRadius` |
| Geometry.Abs | library/src/main/java/lyd/github/library/ColorSquareDrawable.java:129 | `Math.abs` on a float is non-negative and equals the argument or its negation |
| Geometry.HalfWidth | library/src/main/java/lyd/github/library/ColorSquareDrawable.java:126 | `cx`: twice it is the width whenever the width is an `int`; it always lies in `[-2^30, 2^30)` because the subtraction wraps |
| Geometry.HalfHeight | library/src/main/java/lyd/github/library/ColorSquareDrawable.java:127 | `cy`: twice it is the height whenever the height is an `int`; it always lies in `[-2^30, 2^30)` |
| Geometry.StartAngle | library/src/main/java/lyd/github/library/ColorSquareDrawable.java:177 | each corner's start angle (180, 270, 0, 90 at :177, :188, :199, :210) lies in `[0, 360)`, and a quarter turn from it sweeps exactly the quarter of any oval at that corner (`QuarterAt`), which holds for no other angle |
| ColorSquare.ColorSquareDrawable.ClampedArc | library/src/main/java/lyd/github/library/ColorSquareDrawable.java:169-211 | the arc a corner helper appends: a quarter turn from the corner's start angle, in a square sharing that corner with the bounds, of side twice the smaller of the request and `maxRadius` |
| ColorSquare.ColorSquareDrawable.RoundedPath | library/src/main/java/lyd/github/library/ColorSquareDrawable.java:130-134 | the path holds four arcs, the clamped arc of each corner in the call order top-left, top-right, bottom-right, bottom-left, all clamped to `maxRadius` |
| ColorSquareProperties.OutlineTurnsClockwise | library/src/main/java/lyd/github/library/ColorSquareDrawable.java:130-134 | each arc of the path starts where the previous one ends, modulo 360 degrees, and the last ends where the first starts |
| ColorSquare.ColorSquareDrawable.Render | library/src/main/java/lyd/github/library/ColorSquareDrawable.java:106-137 | a circle exactly when the flag is set; the bounds rectangle exactly in plain mode; otherwise a path of four arcs |
| ColorSquare.ColorSquareDrawable.GetOpacity | library/src/main/java/lyd/github/library/ColorSquareDrawable.java:153-167 | opaque iff the alpha byte is 255, transparent iff it is 0, translucent iff it lies strictly between |
| ColorSquare.Circular | library/src/main/java/lyd/github/library/ColorSquareDrawable.java:52-54 | keeps the colour, sets the circle flag, requests radius 0 at every corner |
| ColorSquare.WithShapeFlag | library/src/main/java/lyd/github/library/ColorSquareDrawable.java:62-64 | keeps the colour, stores the `isSquare` argument as the circle flag, requests radius 0 at every corner |
| ColorSquare.Uniform | library/src/main/java/lyd/github/library/ColorSquareDrawable.java:72-74 | keeps the colour, clears the circle flag, requests `radius` at every corner |
| ColorSquare.PerCorner | library/src/main/java/lyd/github/library/ColorSquareDrawable.java:85-95 | keeps the colour, clears the circle flag, stores each radius at the corner it names |
| ColorSquareProperties.EveryColorIsArgbLiteral | library/src/main/java/lyd/github/library/ColorSquareDrawable.java:159 | every `int` colour is the literal `0xAARRGGBB` of its `>>> 24` byte and its low 24 bits, so the opacity lemmas about literals cover every colour |
| ColorSquareProperties.CircularConstructor | library/src/main/java/lyd/github/library/ColorSquareDrawable.java:52-54 | the one-argument constructor keeps the colour and gives a circle with all radii 0 |
| ColorSquareProperties.ShapeFlagConstructor | library/src/main/java/lyd/github/library/ColorSquareDrawable.java:62-64 | the flag constructor gives a circle for `true` and a plain rectangle for `false` |
| ColorSquareProperties.UniformConstructor | library/src/main/java/lyd/github/library/ColorSquareDrawable.java:72-74 | the uniform constructor is non-circular with all four requests equal; plain iff the radius is 0 |
| ColorSquareProperties.PerCornerConstructor | library/src/main/java/lyd/github/library/ColorSquareDrawable.java:85-95 | the five-argument constructor stores each radius at the corner it names |
| ColorSquareProperties.NonzeroRadiusForcesRounded | library/src/main/java/lyd/github/library/ColorSquareDrawable.java:117-136 | any single nonzero request, negative included, makes a non-circular drawable draw the rounded path |
| ColorSquareProperties.CircleIgnoresRadii | library/src/main/java/lyd/github/library/ColorSquareDrawable.java:108-115 | in circle mode the radii do not affect what is drawn: the shape is exactly the circle `CircleOf` gives |
| ColorSquareProperties.PlainRectIsBounds | library/src/main/java/lyd/github/library/ColorSquareDrawable.java:117-123 | in plain-rectangle mode the bounds are drawn unchanged |
| ColorSquareProperties.CircleInscribed | library/src/main/java/lyd/github/library/ColorSquareDrawable.java:109-113 | the circle is centred on the bounds' midpoint, its diameter is the shorter side, and it stays inside the bounds |
| ColorSquareProperties.DiscInsideBounds | library/src/main/java/lyd/github/library/ColorSquareDrawable.java:109-113 | every point of the filled disc lies inside normalised bounds, so the circle is never clipped |
| ColorSquareProperties.SquareBoundsCircle | library/src/main/java/lyd/github/library/ColorSquareDrawable.java:109-113 | for square bounds the radius is half the side |
| ColorSquareProperties.CornerRadiusClamp | library/src/main/java/lyd/github/library/ColorSquareDrawable.java:129 | every effective radius is at most half of either side; a fitting request is kept; a negative one passes through; a larger one becomes `maxRadius` |
| ColorSquareProperties.RoundedPathLayout | library/src/main/java/lyd/github/library/ColorSquareDrawable.java:130-134 | the rounded path is four 90-degree arcs starting at 180, 270, 0, 90, one per corner in order, each in its corner's clamped square |
| ColorSquareProperties.IndependentClamping | library/src/main/java/lyd/github/library/ColorSquareDrawable.java:131-134 | changing one corner's request leaves the other three arcs unchanged; nothing is redistributed |
| ColorSquareProperties.ZeroRadiusCornerIsSharp | library/src/main/java/lyd/github/library/ColorSquareDrawable.java:173-176 | a corner requesting 0 gets an oval collapsed to the exact corner point of the bounds |
| ColorSquareProperties.AllZeroOutlineIsRectangle | library/src/main/java/lyd/github/library/ColorSquareDrawable.java:169-211 | with all requests 0 the four ovals are the four corner points of the plain rectangle |
| ColorSquareProperties.NegativeRadiusInvertsOval | library/src/main/java/lyd/github/library/ColorSquareDrawable.java:170-176 | a negative request is passed to `arcTo` as it is, with an inside-out square |
| ColorSquareProperties.ArcsStayInQuadrants | library/src/main/java/lyd/github/library/ColorSquareDrawable.java:126-134 | for normalised bounds and non-negative requests every square lies in the bounds and every swept quarter in its corner's quadrant |
| ColorSquareProperties.CornerArcInQuadrant | library/src/main/java/lyd/github/library/ColorSquareDrawable.java:169-178 | one corner with a radius in `[0, maxRadius]`: square inside the bounds, swept quarter inside its quadrant |
| ColorSquareProperties.CornerDiscInsideBounds | library/src/main/java/lyd/github/library/ColorSquareDrawable.java:169-211 | for a non-negative request every point of the disc rounding a corner lies inside that corner's square and inside the bounds |
| ColorSquareProperties.AlphaOfArgb | library/src/main/java/lyd/github/library/ColorSquareDrawable.java:157-159 | `>>> 24` recovers the alpha byte of a `0xAARRGGBB` literal, including the negative ones |
| ColorSquareProperties.OpacityOfArgb | library/src/main/java/lyd/github/library/ColorSquareDrawable.java:153-167 | alpha 255 is opaque, alpha 0 transparent, every other alpha translucent, whatever the colour bits |
| ColorSquareProperties.NegativeColorHasHighAlpha | library/src/main/java/lyd/github/library/ColorSquareDrawable.java:159 | a colour is a negative `int` exactly when its alpha byte is at least 128 |
| ColorSquareProperties.UniformRadiusScenario | library/src/main/java/lyd/github/library/ColorSquareDrawable.java:125-136 | 100x50 bounds with radius 40: every corner clamped to 25, the exact four arcs |
| ColorSquareProperties.IndependentClampScenario | library/src/main/java/lyd/github/library/ColorSquareDrawable.java:125-136 | 100x100 bounds with radii 60, 10, 10, 10: top-left clamped to 50, the others kept at 10 |

## Left out

- Rasterisation: `Canvas.drawCircle`, `drawRect` and `drawPath` are not modelled. `Draw` returns the descriptor it would hand to them.
- `Path.arcTo` is modelled only as appending an arc record. Its implicit connecting lines, its `moveTo` on an empty path and its curve approximation belong to Android's graphics library.
- `initPaint`, `setAlpha` and `setColorFilter` only forward to an Android `Paint` object and have no logic of their own. The paint is not modelled.
- The `Drawable` superclass and the numeric values of `PixelFormat` are not modelled. Opacity is a three-value datatype.
- IEEE float rounding is not modelled: `/2f`, the `int`-to-`float` conversions and `2 * radius` are computed on exact reals. A float would round the circle's half-integer centre from 2^23 on, and other coordinates beyond 2^24.
- CircleInscribed: states the midpoint and containment only for bounds whose width and height fit in an `int`. For wider bounds Java's subtraction wraps around (modelled by `JavaInt.Sub`), and the circle need not lie inside the bounds.
- ArcsStayInQuadrants: stated only for normalised bounds (left ≤ right, top ≤ bottom, no overflow) and non-negative requests. Outside these, the corner squares are inverted or misplaced, as `NegativeRadiusInvertsOval` shows.
- DiscInsideBounds: stated only for normalised bounds. For edges given the other way round, CircleInscribed bounds the circle's extent instead. For an overflowing width, the centre is where `JavaInt.Sub` puts it.
- CornerDiscInsideBounds: stated only for normalised bounds and a non-negative request, like ArcsStayInQuadrants.
