/** The scenarios of the repository's tests, stated over the model: the
    coordinate-system checks and the emitted elements of the sketcher
    scenarios, with exact pixel values. */
module Scenarios {
  import opened Coordinates
  import opened Pencils
  import opened Sketch

  /** The five test points shared by the coordinate and sketcher tests. */
  function TestPoints(): seq<Point> {
    [Point(0.2, 0.2), Point(0.3, 0.8), Point(0.6, 0.6), Point(0.8, 0.8), Point(0.8, 0.2)]
  }

  const BlackFilled: string := "stroke: black; stroke-width: 2; fill: black"
  const BlackUnfilled: string := "stroke: black; stroke-width: 2; fill: none"

  lemma BoundingBoxOfTestPoints()
    ensures BoundingBox(TestPoints()) == Box(0.2, 0.2, 0.8, 0.8)
  {
    var ps := TestPoints();
    assert BoundingBox(ps[4..]) == Box(0.8, 0.2, 0.8, 0.2);
    assert ps[3..][1..] == ps[4..];
    assert BoundingBox(ps[3..]) == Box(0.8, 0.2, 0.8, 0.8);
    assert ps[2..][1..] == ps[3..];
    assert BoundingBox(ps[2..]) == Box(0.6, 0.2, 0.8, 0.8);
    assert ps[1..][1..] == ps[2..];
    assert BoundingBox(ps[1..]) == Box(0.3, 0.2, 0.8, 0.8);
  }

  /** Centered 600x600 system with xrange 1: the user origin is the pixel
      (300, 300) and the bottom-left pixel is the user point (-0.5, -0.5). */
  lemma CenteredScenario()
    ensures var cs := NewCoordSysCentered(DefaultCanvasWidth, DefaultCanvasHeight, 1.0);
            cs.CanvasCoordinates(0.0, 0.0) == Point(300.0, 300.0) &&
            cs.UserCoordinates(0.0, 600.0) == Point(-0.5, -0.5)
  {
    CenteredBottomLeftCorner(600, 1.0);
  }

  /** The range-fitted system of the test points on a 600-pixel width:
      height 600, (xmin, ymin) on the bottom-left pixel, (xmax, ymax) on the
      top-right one. */
  lemma RangesScenario()
    ensures var b := BoundingBox(TestPoints());
            var cs := NewCoordSysWithRanges(DefaultCanvasWidth, b.xmin, b.ymin, b.xmax, b.ymax);
            cs.cnvysize == 600 &&
            cs.CanvasCoordinates(b.xmin, b.ymin) == Point(0.0, 600.0) &&
            cs.CanvasCoordinates(b.xmax, b.ymax) == Point(600.0, 0.0)
  {
    BoundingBoxOfTestPoints();
    var v := (0.8 - 0.2) / (0.8 - 0.2) * 600.0;
    assert v == 600.0;
    assert 600.0.Floor == 600;
    RangesTopRightIffWholeHeight(600, 0.2, 0.2, 0.8, 0.8);
  }

  /** Top-left 100x100 system with xrange 4: (0, 0) and (4, 4) are the
      top-left and bottom-right pixels. */
  lemma TopLeftScenario()
    ensures var cs := NewCoordSysTopLeft(100, 100, 4.0);
            cs.CanvasCoordinates(0.0, 0.0) == Point(0.0, 0.0) &&
            cs.CanvasCoordinates(4.0, 4.0) == Point(100.0, 100.0)
  {
    TopLeftBottomRightCorner(100, 4.0);
  }

  /** A square drawn with the default pencil on the default system. */
  method SquareScenario() returns (body: seq<Primitive>)
    ensures body == [SvgLine(480.0, 120.0, 480.0, 480.0, BlackFilled),
                     SvgLine(480.0, 480.0, 120.0, 480.0, BlackFilled),
                     SvgLine(120.0, 480.0, 120.0, 120.0, BlackFilled),
                     SvgLine(120.0, 120.0, 480.0, 120.0, BlackFilled)]
  {
    DefaultDrawStyle();
    var p := NewDefaultPencil();
    var s := NewSketcher(p);
    s.MoveTo(0.8, 0.8);
    s.LineTo(0.8, 0.2);
    s.LineTo(0.2, 0.2);
    s.LineTo(0.2, 0.8);
    s.LineTo(0.8, 0.8);
    body := s.body;
  }

  /** Lines and circles at the cursor: radius 0.1 is 60 pixels, and the
      unfilled circle says "fill: none" while the pencil stays filled. */
  method CircleScenario() returns (body: seq<Primitive>)
    ensures body == [SvgLine(120.0, 480.0, 480.0, 120.0, BlackFilled),
                     SvgCircle(480.0, 120.0, 60.0, BlackFilled),
                     SvgLine(480.0, 120.0, 480.0, 480.0, BlackFilled),
                     SvgCircle(480.0, 480.0, 60.0, BlackUnfilled)]
  {
    DefaultDrawStyle();
    DefaultUnfilledStyle();
    var p := NewDefaultPencil();
    var s := NewSketcher(p);
    s.MoveTo(0.2, 0.2);
    s.LineTo(0.8, 0.8);
    var c := s.Position();
    s.Circle(c.x, c.y, 0.1, true);
    s.LineTo(0.8, 0.2);
    c := s.Position();
    s.Circle(c.x, c.y, 0.1, false);
    body := s.body;
  }

  /** A point on the default system is a filled circle whose pixel radius
      is the pencil width. */
  method PointScenario() returns (first: Primitive)
    ensures first == SvgCircle(120.0, 480.0, 2.0, BlackFilled)
  {
    DefaultDrawStyle();
    var p := NewDefaultPencil();
    var s := NewSketcher(p);
    s.Point(0.2, 0.2);
    first := s.body[0];
  }

  /** A closed polyline through the test points: five lines, the last one
      back to the first point, where the cursor ends. */
  method PolylineScenario() returns (lines: nat, cursor: Point)
    ensures lines == 5 && cursor == Point(0.2, 0.2)
  {
    var p := NewDefaultPencil();
    var s := NewSketcher(p);
    var pts := TestPoints();
    assert |pts| == 5 && pts[0] == Point(0.2, 0.2);
    s.Polyline(pts, true);
    lines := |s.body|;
    cursor := s.Position();
  }

  /** Clearing and then redrawing with a call that sets the cursor before
      reading it (here Edge; MoveTo and Polygon do too) gives the document a
      fresh surface gives. */
  method ClearScenario() returns (fromFresh: string, fromCleared: string)
    ensures fromFresh == fromCleared
  {
    var p := NewDefaultPencil();
    var s1 := NewSketcher(p);
    s1.Edge(0.2, 0.2, 0.8, 0.8);
    fromFresh := s1.ToSVG();
    var s2 := NewSketcher(p);
    s2.Polygon(TestPoints(), true);
    s2.Clear();
    s2.Edge(0.2, 0.2, 0.8, 0.8);
    assert s2.body == s1.body;
    fromCleared := s2.ToSVG();
  }

  /** Clear keeps the cursor, so a redraw that starts with LineTo draws
      from where the cleared drawing left off, not from the user origin as
      on a fresh surface: the two bodies differ. */
  method ClearKeepsCursor() returns (fromFresh: seq<Primitive>, fromCleared: seq<Primitive>)
    ensures fromFresh == [SvgLine(0.0, 600.0, 600.0, 0.0, BlackFilled)]
    ensures fromCleared == [SvgLine(300.0, 300.0, 600.0, 0.0, BlackFilled)]
    ensures fromFresh != fromCleared
  {
    DefaultDrawStyle();
    var p := NewDefaultPencil();
    var s1 := NewSketcher(p);
    s1.LineTo(1.0, 1.0);
    fromFresh := s1.body;
    var s2 := NewSketcher(p);
    s2.MoveTo(0.5, 0.5);
    s2.Clear();
    s2.LineTo(1.0, 1.0);
    fromCleared := s2.body;
    assert fromFresh[0].x1 != fromCleared[0].x1;
  }

  lemma RedStyle()
    ensures DrawStylePattern("red", 2, "black") == "stroke: red; stroke-width: 2; fill: black"
  {
    // Solver scaffolding: the expected style is built one piece at a time.
    assert Fmt.FormatInt(2) == "2";
    assert "stroke: " + "red" == "stroke: red";
    assert "stroke: red" + "; stroke-width: " == "stroke: red; stroke-width: ";
    assert "stroke: red; stroke-width: " + "2" == "stroke: red; stroke-width: 2";
    assert "stroke: red; stroke-width: 2" + "; fill: " == "stroke: red; stroke-width: 2; fill: ";
    assert "stroke: red; stroke-width: 2; fill: " + "black" == "stroke: red; stroke-width: 2; fill: black";
  }

  /** Surfaces read their pencil at each call: two surfaces given the same
      pencil both draw in red once it is recoloured through one of them,
      while a surface given a clone keeps drawing in black. */
  method SharedVersusClonedPencil() returns (shared: Primitive, alsoShared: Primitive, cloned: Primitive)
    ensures shared.style == "stroke: red; stroke-width: 2; fill: black"
    ensures alsoShared.style == "stroke: red; stroke-width: 2; fill: black"
    ensures cloned.style == BlackFilled
  {
    DefaultDrawStyle();
    RedStyle();
    var p := NewDefaultPencil();
    var q := p.Clone();
    var s1 := NewSketcher(p);
    var s2 := NewSketcher(q);
    var s3 := NewSketcher(p);
    s1.pencil.lineColor := "red";
    assert q.State() == PencilState(DefaultLineColor, DefaultLineWidth, DefaultFillColor, DefaultFillMode,
                                    DefaultFontFamily, DefaultFontWeight, DefaultFontSize, DefaultFontColor);
    s1.LineTo(1.0, 1.0);
    s2.LineTo(1.0, 1.0);
    s3.LineTo(1.0, 1.0);
    shared := s1.body[0];
    cloned := s2.body[0];
    alsoShared := s3.body[0];
  }

}
