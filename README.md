# dingo-svg core, modelled in Dafny

This project models the drawing core of the Go package `svg` (dingo-svg):
a small library that emits SVG documents from user-unit drawing calls.

- **Coordinates** (`coordinates.dfy`, from `coordinates.go`): the
  `CoordinateSystem` record and its affine map from user units to canvas
  pixels (`canvasCoordinates`), the length map (`canvasScaling`), the sign
  helper `o2s`, the default bottom-left system and the further constructors
  the coordinate tests pin down: general (`newCoordinatesSystem`), centered,
  top-left and range-fitted, plus `boundingBox` and the inverse map
  `userCoordinates`. All arithmetic is over exact reals.
- **Pencils** (`pencil.dfy`, from `pencil.go`): the `Pencil` heap object
  with its eight attributes, `NewPencil`, the style renderers
  `DrawStyleWithFillMode`, `DrawStyle`, `TextStyle`, and `Clone`.
- **Sketch** (`sketcher.dfy`, from `sketcher.go`): the `Sketcher` object
  with its cursor, its body, its coordinate system and its pencil, and
  every drawing call. The body is a sequence of emitted elements (line,
  circle, polygon, text) already projected to pixels; the text form of the
  document is a function of that sequence.
- **Fmt** (`fmt.dfy`): stand-ins for the `%d` and `%.2f` verbs of Go's
  formatted printing.
- **Scenarios** (`scenarios.dfy`): the scenarios of `coordinates_test.go`
  and `sketcher_test.go`, stated as lemmas and methods with exact values.

Most of the coordinate constructors are not in the shown `coordinates.go`.
The tests call `newCoordinatesSystem`, `NewCoordSysCentered`,
`NewCoordSysTopLeft`, `NewCoordSysWithRanges`, `boundingBox` and
`userCoordinates`, and none of these six is defined there (the file only
has two argument-less stubs that return `nil`, `NewCoorSysCentered` and
`NewCoordSysBounding`, at coordinates.go:87-93). All six are modelled
from what `coordinates_test.go` asserts about them:
`MakeCoordinatesSystem`, `NewCoordSysCentered`, `NewCoordSysTopLeft`,
`NewCoordSysWithRanges`, `BoundingBox` and `UserCoordinates`.

One might expect clearing a surface and re-emitting the same calls to
reproduce a fresh surface's document. The code keeps the cursor on `Clear`
(sketcher.go:152-154), so this holds only for redraws that set the cursor
before reading it (`Scenarios.ClearScenario`, `Scenarios.ClearKeepsCursor`).

## Model

| member | source | states |
|---|---|---|
| Coordinates.CoordinateSystem.CanvasCoordinates | coordinates.go:38-42 | the affine map from user units to pixels: user (0,0) lands on the origin pixel, and on a valid system only user x = 0 (y = 0) lands on the origin's pixel column (row); its partners are the inverse `UserCoordinates` with `UserOfCanvas`, `InjectiveCanvas`, and the equality with the older fixed map in `DefaultSystemIsLegacy` |
| Coordinates.CoordinateSystem.CanvasScaling | coordinates.go:44-47 | the length map ignores origin and sign: it is the x (and y) displacement of a user length divided by the axis sign, and with a positive scale a non-negative length stays non-negative |
| Coordinates.AxisDistanceIsScaling | coordinates.go:38-47 | under the affine map, pixel distances along each axis are the length map of the user distances, whatever the origin and orientation |
| Coordinates.CoordinateSystem.UserCoordinates | coordinates_test.go:52-53 | the inverse map: the user point it returns maps back onto the given pixel |
| Coordinates.UserOfCanvas | coordinates_test.go:52-59 | user -> pixel -> user is the identity on any valid system |
| Coordinates.InjectiveCanvas | coordinates.go:38-42 | on a valid system (signs +1/-1, non-zero scale) two user points with the same pixel are equal |
| Coordinates.O2S | coordinates.go:53-60 | the sign is always +1 or -1, and -1 exactly when `inverse` is true |
| Coordinates.MakeCoordinatesSystem | coordinates_test.go:102-105 | general constructor: valid iff the canvas width is non-zero, canvas size kept, user (0,0) on the given origin pixel, xrange spans the canvas width, each axis sign negative iff its inverse flag is set |
| Coordinates.NewCoordSysBottomLeft | coordinates.go:62-85 | user (0,0) on pixel (0,h), x = xrange on px = w, x sign +1 and y sign -1, unit2pixel * xrange = w, valid iff w is non-zero |
| Coordinates.BottomLeftYUp | coordinates.go:62-85 | with xrange > 0 and w > 0, a larger user y gives a smaller pixel y |
| Coordinates.NewCoordinateSystem | coordinates.go:28-33 | the default system is the bottom-left system of a 600x600 canvas with xrange 1: origin pixel (0,600), signs +1/-1, 600 pixels per unit |
| Coordinates.DefaultSystemCorners | coordinates.go:22-33 | the default system is valid, 600x600, and maps user (0,0) and (1,1) to the bottom-left and top-right pixels |
| Coordinates.BottomLeftUnitRangeIsLegacy | sketcher.go:31-41 | on a square canvas the bottom-left system with xrange 1 equals the older fixed map (px = w*x, py = h*(1-y)) for positions and lengths |
| Coordinates.DefaultSystemIsLegacy | coordinates.go:28-33 | the default system equals the older fixed map of a 600x600 canvas, for positions and lengths |
| Coordinates.NewCoordSysCentered | coordinates_test.go:38-50 | centered constructor: user (0,0) on the canvas centre, xrange spans the width, y upward, valid iff w is non-zero |
| Coordinates.CenteredBottomLeftCorner | coordinates_test.go:52-59 | on a square centered canvas the bottom-left pixel maps back to the user point (-xrange/2, -xrange/2) |
| Coordinates.NewCoordSysTopLeft | coordinates_test.go:167-180 | top-left constructor: user (0,0) on pixel (0,0), both signs +1, xrange spans the width |
| Coordinates.TopLeftBottomRightCorner | coordinates_test.go:182-188 | on a square top-left canvas, user (xrange, xrange) is the bottom-right pixel |
| Coordinates.BoundingBox | coordinates_test.go:62-74 | every point lies inside the box and each of the four bounds is reached by some point |
| Coordinates.Trunc | coordinates_test.go:89 | Go's `int()` of a float truncates toward zero: the bounds on each side of zero |
| Coordinates.TruncExactIffInteger | coordinates_test.go:147 | truncation loses nothing exactly when the value is a whole number |
| Coordinates.RangedCanvasHeight | coordinates_test.go:89 | the canvas height of the range-fitted system is the aspect-ratio height truncated toward zero: within one pixel below it (or above it, when negative) |
| Coordinates.WithOriginPinned | coordinates_test.go:127-135 | shifting the origin of a zero-origin system puts the chosen user point on the chosen pixel and keeps sizes, signs and scale |
| Coordinates.NewCoordSysWithRanges | coordinates_test.go:141-155 | range-fitted constructor: canvas height is the truncated aspect-ratio height, (xmin,ymin) on pixel (0,cnvheight), x = xmax on the right border, signs +1/-1, valid iff w is non-zero |
| Coordinates.RangesClosedForm | coordinates_test.go:86-113 | the closed-form origin puts (xmin, ymin) on pixel (0, cnvheight), as the test checks |
| Coordinates.RangesDerivationsAgree | coordinates_test.go:86-135 | the closed-form origin and the zero-origin-then-shift derivation give the same system |
| Coordinates.RangesTopRightIffWholeHeight | coordinates_test.go:157-163 | (xmax,ymax) lands on the top-right pixel (w,0) if and only if w*yrange/xrange is a whole number |
| Fmt.FormatNat | pencil.go:9-10 | the decimal digits of a natural: non-empty, digits only, no leading zero |
| Fmt.ParseFormatNat | pencil.go:9-10 | the digits of a natural read back as that natural |
| Fmt.ParseFormatInt | pencil.go:9-10 | the `%d` rendering of any integer reads back as that integer |
| Fmt.FormatFixed2Whole | sketcher.go:10 | a whole pixel value renders under `%.2f` as its digits followed by ".00" |
| Pencils.DrawStylePattern | pencil.go:10 | the draw-style pattern filled with stroke colour, `%d` width and fill; stated by `Pencils.DrawStyleFraming` and `Pencils.DefaultDrawStyle` |
| Pencils.DrawStyleFraming | pencil.go:10 | a draw style opens with "stroke: " and the stroke colour and ends with the fill colour |
| Pencils.TextStylePattern | pencil.go:11 | a text style opens with "font-family:" and the family and ends with the colour |
| Pencils.Pencil.constructor | pencil.go:41-52 | NewPencil: the given line colour and width, every other attribute at its default |
| Pencils.Pencil.DrawStyleWithFillMode | pencil.go:54-60 | stroke colour and width from the pencil; fill is the pencil's fill colour when asked to fill and "none" otherwise |
| Pencils.Pencil.DrawStyle | pencil.go:62-64 | the draw style with the pencil's own fill mode |
| Pencils.Pencil.TextStyle | pencil.go:66-68 | the text style is "font-family:" family "; font-size:" the %d of the size "; font-weight:" weight "; fill: " colour, the pattern of pencil.go line 11 filled in that order |
| Pencils.TextStyleIgnoresDrawing | pencil.go:66-68 | two pencils with the same four font attributes have the same text style, whatever their line and fill attributes |
| Pencils.DrawStyleIgnoresFont | pencil.go:54-60 | two pencils with the same line colour, width and fill colour have the same draw style for either fill choice, whatever their font attributes |
| Pencils.Pencil.Clone | pencil.go:70-81 | a fresh pencil with the same eight attributes |
| Pencils.NewDefaultPencil | pencil.go:83 | the default pencil: a fresh pencil, black, width 2, every other attribute at its default |
| Pencils.DefaultDrawStyle | pencil.go:83 | the default pencil draws "stroke: black; stroke-width: 2; fill: black" |
| Pencils.DefaultUnfilledStyle | pencil.go:54-60 | its unfilled variant is "stroke: black; stroke-width: 2; fill: none" |
| Pencils.DefaultTextStyle | pencil.go:66-68 | the default pencil writes "font-family:Arial; font-size:20; font-weight:normal; fill: black" |
| Sketch.Render | sketcher.go:9-14 | every element renders as one tag: it starts with '<' and ends with '>' |
| Sketch.PolygonPoints | sketcher.go:211-215 | the points text is empty exactly when there are no points, and otherwise ends with the separating space |
| Sketch.RenderBody | sketcher.go:186 | the body text, one element line per drawing call in emission order; stated by `Sketch.RenderBodyLines` and `Sketch.RenderBodyAppend` |
| Sketch.RenderBodyLines | sketcher.go:185-187 | the body text is empty exactly when nothing was drawn, and otherwise ends with a newline |
| Sketch.RenderBodyAppend | sketcher.go:182-189 | the text of a body grown by appending is the old text followed by the new elements' text |
| Sketch.Document | sketcher.go:127-132 | the ToSVG text: 600x600 header, newline, body, footer; stated by `Sketch.DocumentFraming` and `Sketch.DocumentAppend` |
| Sketch.DocumentFraming | sketcher.go:127-132 | the document starts with the 600x600 header and a newline and ends with the footer, whatever the body |
| Sketch.DocumentAppend | sketcher.go:127-132 | drawing more inserts text just before the footer; header and earlier text stay |
| Sketch.Header | sketcher.go:9 | the header pattern filled with `%d` width and height; stated by `Sketch.HeaderFraming` and `Sketch.DefaultHeader` |
| Sketch.HeaderFraming | sketcher.go:9 | the header opens with the svg element and the width attribute and ends with "'>" |
| Sketch.DefaultHeader | sketcher.go:127-128 | the header of every document is exactly "<svg xmlns='http://www.w3.org/2000/svg' width='600' height='600'>" |
| Sketch.Projected | sketcher.go:208-216 | the projected polygon vertices: one per input point, in order, each the pixel of its point |
| Sketch.Segments | sketcher.go:228-236 | one line per pair of consecutive points, n-1 lines for n points |
| Sketch.SegmentsSnoc | sketcher.go:231-233 | adding one point adds exactly one line, from the previous last point to the new one |
| Sketch.Sketcher.constructor | sketcher.go:119-122 | a surface with the cursor at (0,0), an empty body, and the given system and pencil |
| Sketch.NewSketcher | sketcher.go:119-122 | NewSketcher: the default system, the given (default) pencil, cursor at (0,0), empty body |
| Sketch.Sketcher.Position | sketcher.go:156-158 | returns the cursor |
| Sketch.Sketcher.CanvasCoordinates | sketcher.go:160-162 | the pixel under the bound system, which the bound system's inverse takes back to the user point on a valid system |
| Sketch.Sketcher.CanvasScaling | sketcher.go:164-166 | the pixel length under the bound system: the x displacement of that user length up to the axis sign, non-negative for a non-negative length and positive scale |
| Sketch.Sketcher.PointSize | sketcher.go:168-172 | point radius times canvas width is the pencil width; on a system with one unit per width its pixel radius is the pencil width |
| Sketch.Sketcher.Clear | sketcher.go:152-154 | empties the body; cursor, system and pencil stay |
| Sketch.Sketcher.MoveTo | sketcher.go:177-180 | moves the cursor, body/system/pencil unchanged |
| Sketch.Sketcher.LineTo | sketcher.go:182-189 | appends exactly one line from the pixel of the old cursor to the pixel of the target in the pencil's draw style; the cursor moves to the target |
| Sketch.Sketcher.Circle | sketcher.go:191-198 | appends one circle at the projected centre with the scaled radius, filled as the call says; the pencil is not changed; cursor on the centre |
| Sketch.Sketcher.Point | sketcher.go:200-203 | a filled circle of radius pointSize at the point; cursor on the point |
| Sketch.Sketcher.Polygon | sketcher.go:208-220 | appends exactly one polygon listing the projected vertices in input order; the cursor ends on the last vertex, or (0,0) for no vertex |
| Sketch.Sketcher.Polyline | sketcher.go:228-240 | appends the segments through the points (n-1 lines) plus a closing line when closed; cursor on the first point when closed, else on the last |
| Sketch.Sketcher.Edge | sketcher.go:242-245 | one line between the two given points; cursor on the second |
| Sketch.Sketcher.Text | sketcher.go:247-251 | appends one text element at the projected anchor in the pencil's text style; the cursor does not move |
| Sketch.Sketcher.PointWithLabel | sketcher.go:253-258 | a point, then a text 0.01 user units up and to the right of it; cursor on the point |
| Scenarios.BoundingBoxOfTestPoints | coordinates_test.go:62-74 | the bounding box of the five test points is (0.2, 0.2, 0.8, 0.8) |
| Scenarios.CenteredScenario | coordinates_test.go:38-60 | centered 600x600, xrange 1: origin on (300,300) and pixel (0,600) back to (-0.5,-0.5) |
| Scenarios.RangesScenario | coordinates_test.go:141-165 | range-fitted over the test points: height 600, (xmin,ymin) on (0,600), (xmax,ymax) on (600,0) |
| Scenarios.TopLeftScenario | coordinates_test.go:167-190 | top-left 100x100 with xrange 4: (0,0) on (0,0), (4,4) on (100,100) |
| Scenarios.SquareScenario | sketcher_test.go:8-28 | the four lines of the square test with their exact pixel ends and style |
| Scenarios.CircleScenario | sketcher_test.go:30-53 | the lines and circles of the circle test: radius 0.1 is 60 pixels, the unfilled circle says "fill: none" |
| Scenarios.PointScenario | sketcher_test.go:55-57 | a point on the default system is a filled circle of pixel radius 2 |
| Scenarios.PolylineScenario | sketcher_test.go:64-70 | the closed polyline through the test points emits five lines and leaves the cursor on the first point |
| Scenarios.ClearScenario | sketcher.go:152-154 | after Clear, a redraw that sets the cursor before reading it (here Edge) gives the same document as a fresh surface |
| Scenarios.ClearKeepsCursor | sketcher.go:152-154 | Clear keeps the cursor: a LineTo-first redraw after Clear starts from the old cursor's pixel (300,300), not from (0,600) as on a fresh surface, so the bodies differ |
| Scenarios.SharedVersusClonedPencil | sketcher.go:116-121 | two surfaces holding the same pencil both draw in red after it is recoloured through one of them; a surface given a clone keeps the black style |

## Left out

- `Save` (sketcher.go:138-150): file I/O. It opens the file without truncation, so rewriting a longer file leaves trailing bytes; not modelled.
- `String` (sketcher.go:134-136) is the same text as `ToSVG`; not repeated.
- Sketch.Sketcher.ToSVG: stated through `Sketch.Document`; the exact text of `%.2f` and `%d` is given by `Fmt.FormatFixed2` and `Fmt.FormatInt`, and only whole pixel values (`Fmt.FormatFixed2Whole`) and the `%d` round trip are proved about them; rounding of non-whole values is not.
- Float64 rounding: all coordinate arithmetic is over exact reals.
- Coordinates.NewCoordSysBottomLeft, Coordinates.MakeCoordinatesSystem, Coordinates.NewCoordSysCentered, Coordinates.NewCoordSysTopLeft: require a non-zero xrange (Go would divide by zero and store an infinite scale).
- Coordinates.NewCoordSysWithRanges: requires xmax != xmin for the same reason.
- Sketch.Sketcher.PointSize, Sketch.Sketcher.Point, Sketch.Sketcher.PointWithLabel: require a non-zero canvas width (Go would produce an infinite radius).
- Coordinates.CoordinateSystem.UserCoordinates: requires a valid system, which excludes the zero-width canvas (Go would divide by a zero scale and get an infinite or undefined point).
- Sketch.Sketcher.Polyline: requires at least one point; Go panics on an empty list.
- Sketch.Sketcher.Polygon: the Go code builds the `points` attribute text inside its loop; the model keeps the projected vertices and renders them with `Sketch.PolygonPoints` when the document is produced (same text, built later).
- The body is a sequence of elements instead of a growing string; `Sketch.RenderBodyAppend` states that the two agree under appending.
- The older duplicate `CoordinateSystem`, `Pencil`, `NewPencil` and `defaultPencil` in sketcher.go:22-106 come from another revision; each type is modelled once, from coordinates.go and pencil.go. The older fixed map survives only as the reference `Coordinates.LegacyCanvasCoordinates`. The older `NewPencil`, which copies the line colour into the fill and font colours, is not modelled (both give black for the default pencil).
- The package-level `defaultPencil` shared by every `NewSketcher`: the model passes the pencil explicitly, so `Sketch.NewSketcher` takes it as a parameter; sharing of one pencil by several surfaces, and recolouring it through one of them, is shown by `Scenarios.SharedVersusClonedPencil`.
- The coordinate system is held by pointer in the Go struct but never mutated by the core; it is a value here.
- `NewCoorSysCentered` and `NewCoordSysBounding` (coordinates.go:87-93) return `nil` in the shown revision; the centered constructor is modelled from its tests, and no bounding constructor is modelled.
- `Triangle`, `Quadrangle`, `Rectangle`, `WithCoordinateSystem`, `WithBackgroundColor`, `CoordinatesSystem`, `UserCoordinatesBoundaries` and `NewCoordSysBoundedBy` are called by tests and demos but defined in no file of this model; the rectangle pattern (sketcher.go:12) is therefore unused.
- The demos (convex hull, isometry, surface plots, floor plans, guitar neck, profiling) consume the library and are not part of this model.
