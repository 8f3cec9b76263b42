/** The affine map between a user coordinate space and the canvas's native
    pixel space (origin top-left, x to the right, y downward), and the
    strategies that derive it from a canvas size and a user range. */
module Coordinates {

  const DefaultCanvasWidth: int := 600
  const DefaultCanvasHeight: int := 600

  datatype Point = Point(x: real, y: real)

  /** Pixel size of the canvas, pixel position of the user origin, the
      orientation of each user axis against the native one (+1 or -1) and
      the number of pixels in one user unit. */
  datatype CoordinateSystem = CoordinateSystem(
    cnvxsize: int,
    cnvysize: int,
    xorigin: real,
    yorigin: real,
    xsign: real,
    ysign: real,
    unit2pixel: real)
  {
    /** The signs are +1 or -1 and the scale is not zero, so the map is
        invertible; every constructor gives this exactly when the canvas
        width is not zero. */
    predicate Valid() {
      (xsign == 1.0 || xsign == -1.0) && (ysign == 1.0 || ysign == -1.0) && unit2pixel != 0.0
    }

    /** Pixel position of the user point (x, y): the user origin lands on
        the origin pixel, and on a valid system no other user x (or y) lands
        on the origin's pixel column (or row). */
    function CanvasCoordinates(x: real, y: real): (p: Point)
      ensures x == 0.0 && y == 0.0 ==> p == Point(xorigin, yorigin)
      ensures Valid() ==> (p.x == xorigin <==> x == 0.0) && (p.y == yorigin <==> y == 0.0)
    {
      Point(xorigin + xsign * unit2pixel * x, yorigin + ysign * unit2pixel * y)
    }

    /** Pixel length of a user length: scale only, no origin and no sign. */
    function CanvasScaling(size: real): (psize: real)
      ensures unit2pixel > 0.0 && size >= 0.0 ==> psize >= 0.0
      ensures CanvasCoordinates(size, 0.0).x - xorigin == xsign * psize
      ensures CanvasCoordinates(0.0, size).y - yorigin == ysign * psize
    {
      unit2pixel * size
    }

    /** User point whose pixel position is (px, py). */
    function UserCoordinates(px: real, py: real): (p: Point)
      requires Valid()
      ensures CanvasCoordinates(p.x, p.y) == Point(px, py)
    {
      var dx := px - xorigin;
      var dy := py - yorigin;
      var p := Point(dx / (xsign * unit2pixel), dy / (ysign * unit2pixel));
      assert xsign * unit2pixel * p.x == dx;
      assert ysign * unit2pixel * p.y == dy;
      p
    }
  }

  /** Sign of a user axis: -1 when it runs against the native axis. */
  function O2S(inverse: bool): (sign: real)
    ensures sign == 1.0 || sign == -1.0
    ensures sign == -1.0 <==> inverse
  {
    if inverse then -1.0 else 1.0
  }

  /** General constructor: given origin pixel, canvas size, axis orientation
      and the user x-range covered by the canvas width. */
  function MakeCoordinatesSystem(
    xorigin: real, yorigin: real, cnvwidth: int, cnvheight: int,
    xinverse: bool, yinverse: bool, xrange: real): (cs: CoordinateSystem)
    requires xrange != 0.0
    ensures cs.Valid() <==> cnvwidth != 0
    ensures cs.cnvxsize == cnvwidth && cs.cnvysize == cnvheight
    ensures cs.CanvasCoordinates(0.0, 0.0) == Point(xorigin, yorigin)
    ensures cs.CanvasScaling(xrange) == cnvwidth as real
    ensures (cs.xsign < 0.0 <==> xinverse) && (cs.ysign < 0.0 <==> yinverse)
  {
    CoordinateSystem(cnvwidth, cnvheight, xorigin, yorigin,
                     O2S(xinverse), O2S(yinverse), cnvwidth as real / xrange)
  }

  /** User origin at the bottom-left pixel, user y upward, x = xrange at the
      right border. */
  function NewCoordSysBottomLeft(cnvwidth: int, cnvheight: int, xrange: real): (cs: CoordinateSystem)
    requires xrange != 0.0
    ensures cs.Valid() <==> cnvwidth != 0
    ensures cs.cnvxsize == cnvwidth && cs.cnvysize == cnvheight
    ensures cs.CanvasCoordinates(0.0, 0.0) == Point(0.0, cnvheight as real)
    ensures cs.CanvasCoordinates(xrange, 0.0).x == cnvwidth as real
    ensures cs.xsign == 1.0 && cs.ysign == -1.0
    ensures cs.unit2pixel * xrange == cnvwidth as real
  {
    var xsign := O2S(false);
    var ysign := O2S(true);
    CoordinateSystem(cnvwidth, cnvheight, 0.0, cnvheight as real, xsign, ysign, cnvwidth as real / xrange)
  }

  /** In the bottom-left system, a higher user y is a smaller pixel y. */
  lemma BottomLeftYUp(cnvwidth: int, cnvheight: int, xrange: real, x: real, y1: real, y2: real)
    requires xrange > 0.0 && cnvwidth > 0 && y1 < y2
    ensures var cs := NewCoordSysBottomLeft(cnvwidth, cnvheight, xrange);
            cs.CanvasCoordinates(x, y2).y < cs.CanvasCoordinates(x, y1).y
  {
    var cs := NewCoordSysBottomLeft(cnvwidth, cnvheight, xrange);
    assert cs.unit2pixel > 0.0;
    assert cs.unit2pixel * y1 < cs.unit2pixel * y2;
  }

  /** The default system: a 600x600 canvas, bottom-left origin, y upward,
      600 pixels per unit. */
  function NewCoordinateSystem(): (cs: CoordinateSystem)
    ensures cs == CoordinateSystem(600, 600, 0.0, 600.0, 1.0, -1.0, 600.0)
  {
    NewCoordSysBottomLeft(DefaultCanvasWidth, DefaultCanvasHeight, 1.0)
  }

  /** The default system maps the unit square onto the whole canvas, user
      (0, 0) on the bottom-left pixel and (1, 1) on the top-right one. */
  lemma DefaultSystemCorners()
    ensures var cs := NewCoordinateSystem();
            cs.Valid() && cs.cnvxsize == DefaultCanvasWidth && cs.cnvysize == DefaultCanvasHeight &&
            cs.CanvasCoordinates(0.0, 0.0) == Point(0.0, 600.0) &&
            cs.CanvasCoordinates(1.0, 1.0) == Point(600.0, 0.0)
  {
  }

  /** The fixed map of the canvas-size-only coordinate system that predates
      the affine one: user [0,1] onto the canvas, y upward. */
  function LegacyCanvasCoordinates(cnvxsize: int, cnvysize: int, x: real, y: real): Point {
    Point(x * cnvxsize as real, cnvysize as real * (1.0 - y))
  }

  function LegacyCanvasScaling(cnvxsize: int, size: real): real {
    cnvxsize as real * size
  }

  /** On a square canvas with xrange 1 the bottom-left system is exactly the
      legacy fixed map, for positions and for lengths; in particular the
      default system. (On a non-square canvas the legacy map scales y by the
      height, the affine one by the width.) */
  lemma BottomLeftUnitRangeIsLegacy(cnvwidth: int, cnvheight: int, x: real, y: real, size: real)
    requires cnvwidth == cnvheight
    ensures var cs := NewCoordSysBottomLeft(cnvwidth, cnvheight, 1.0);
            cs.CanvasCoordinates(x, y) == LegacyCanvasCoordinates(cnvwidth, cnvheight, x, y) &&
            cs.CanvasScaling(size) == LegacyCanvasScaling(cnvwidth, size)
  {
  }

  /** The default system is the legacy fixed map of a 600x600 canvas. */
  lemma DefaultSystemIsLegacy(x: real, y: real, size: real)
    ensures NewCoordinateSystem().CanvasCoordinates(x, y) == LegacyCanvasCoordinates(600, 600, x, y)
    ensures NewCoordinateSystem().CanvasScaling(size) == LegacyCanvasScaling(600, size)
  {
    BottomLeftUnitRangeIsLegacy(600, 600, x, y, size);
  }

  /** User origin at the canvas centre, user y upward. */
  function NewCoordSysCentered(cnvwidth: int, cnvheight: int, xrange: real): (cs: CoordinateSystem)
    requires xrange != 0.0
    ensures cs.Valid() <==> cnvwidth != 0
    ensures cs.cnvxsize == cnvwidth && cs.cnvysize == cnvheight
    ensures cs.CanvasCoordinates(0.0, 0.0) == Point(0.5 * cnvwidth as real, 0.5 * cnvheight as real)
    ensures cs.CanvasScaling(xrange) == cnvwidth as real
    ensures cs.xsign == 1.0 && cs.ysign == -1.0
  {
    MakeCoordinatesSystem(0.5 * cnvwidth as real, 0.5 * cnvheight as real, cnvwidth, cnvheight, false, true, xrange)
  }

  /** On a square centered canvas the bottom-left pixel corner is the user
      point (-xrange/2, -xrange/2). */
  lemma CenteredBottomLeftCorner(cnvsize: int, xrange: real)
    requires xrange != 0.0 && cnvsize != 0
    ensures NewCoordSysCentered(cnvsize, cnvsize, xrange).UserCoordinates(0.0, cnvsize as real)
            == Point(-0.5 * xrange, -0.5 * xrange)
  {
    var cs := NewCoordSysCentered(cnvsize, cnvsize, xrange);
    var w := cnvsize as real;
    var p := cs.UserCoordinates(0.0, w);
    assert cs.unit2pixel * (-0.5 * xrange) == -0.5 * w;
    assert cs.CanvasCoordinates(-0.5 * xrange, -0.5 * xrange) == Point(0.0, w);
    InjectiveCanvas(cs, p, Point(-0.5 * xrange, -0.5 * xrange));
  }

  /** User origin at the top-left pixel, user y downward like the canvas. */
  function NewCoordSysTopLeft(cnvwidth: int, cnvheight: int, xrange: real): (cs: CoordinateSystem)
    requires xrange != 0.0
    ensures cs.Valid() <==> cnvwidth != 0
    ensures cs.cnvxsize == cnvwidth && cs.cnvysize == cnvheight
    ensures cs.CanvasCoordinates(0.0, 0.0) == Point(0.0, 0.0)
    ensures cs.CanvasScaling(xrange) == cnvwidth as real
    ensures cs.xsign == 1.0 && cs.ysign == 1.0
  {
    MakeCoordinatesSystem(0.0, 0.0, cnvwidth, cnvheight, false, false, xrange)
  }

  /** On a square top-left canvas, (xrange, xrange) is the bottom-right pixel corner. */
  lemma TopLeftBottomRightCorner(cnvsize: int, xrange: real)
    requires xrange != 0.0
    ensures NewCoordSysTopLeft(cnvsize, cnvsize, xrange).CanvasCoordinates(xrange, xrange)
            == Point(cnvsize as real, cnvsize as real)
  {
    var cs := NewCoordSysTopLeft(cnvsize, cnvsize, xrange);
    assert cs.unit2pixel * xrange == cnvsize as real;
  }

  /** The map to pixels is one-to-one. */
  lemma InjectiveCanvas(cs: CoordinateSystem, p: Point, q: Point)
    requires cs.Valid()
    requires cs.CanvasCoordinates(p.x, p.y) == cs.CanvasCoordinates(q.x, q.y)
    ensures p == q
  {
    var a := cs.xsign * cs.unit2pixel;
    var b := cs.ysign * cs.unit2pixel;
    assert a != 0.0 && b != 0.0;
    assert a * p.x == a * q.x;
    assert b * p.y == b * q.y;
  }

  /** Round trip the other way: user -> pixel -> user is the identity. */
  lemma UserOfCanvas(cs: CoordinateSystem, x: real, y: real)
    requires cs.Valid()
    ensures var p := cs.CanvasCoordinates(x, y); cs.UserCoordinates(p.x, p.y) == Point(x, y)
  {
    var p := cs.CanvasCoordinates(x, y);
    InjectiveCanvas(cs, cs.UserCoordinates(p.x, p.y), Point(x, y));
  }

  /** Distances along an axis scale by the length map, whatever the origin
      and orientation. */
  lemma AxisDistanceIsScaling(cs: CoordinateSystem, x1: real, y1: real, x2: real, y2: real)
    requires cs.Valid()
    ensures var p1 := cs.CanvasCoordinates(x1, y1);
            var p2 := cs.CanvasCoordinates(x2, y2);
            Abs(p2.x - p1.x) == Abs(cs.CanvasScaling(x2 - x1)) &&
            Abs(p2.y - p1.y) == Abs(cs.CanvasScaling(y2 - y1))
  {
    var u := cs.unit2pixel;
    assert cs.xsign * u * x2 - cs.xsign * u * x1 == cs.xsign * (u * (x2 - x1));
    assert cs.ysign * u * y2 - cs.ysign * u * y1 == cs.ysign * (u * (y2 - y1));
  }

  function Abs(r: real): real {
    if r < 0.0 then -r else r
  }

  /** Axis-aligned bounds of a point list. */
  datatype Box = Box(xmin: real, ymin: real, xmax: real, ymax: real)

  function Min(a: real, b: real): real { if a <= b then a else b }
  function Max(a: real, b: real): real { if a >= b then a else b }

  /** The smallest box holding every point: each bound is reached by some point. */
  function BoundingBox(points: seq<Point>): (b: Box)
    requires |points| > 0
    ensures forall i :: 0 <= i < |points| ==>
              b.xmin <= points[i].x <= b.xmax && b.ymin <= points[i].y <= b.ymax
    ensures exists i :: 0 <= i < |points| && points[i].x == b.xmin
    ensures exists i :: 0 <= i < |points| && points[i].y == b.ymin
    ensures exists i :: 0 <= i < |points| && points[i].x == b.xmax
    ensures exists i :: 0 <= i < |points| && points[i].y == b.ymax
    decreases |points|
  {
    if |points| == 1 then
      Box(points[0].x, points[0].y, points[0].x, points[0].y)
    else
      var rest := BoundingBox(points[1..]);
      var b := Box(Min(points[0].x, rest.xmin), Min(points[0].y, rest.ymin),
                   Max(points[0].x, rest.xmax), Max(points[0].y, rest.ymax));
      assert forall i :: 1 <= i < |points| ==> points[i] == points[1..][i - 1];
      b
  }

  /** Go's int() conversion of a float: truncation toward zero. */
  function Trunc(r: real): (n: int)
    ensures r >= 0.0 ==> n as real <= r < n as real + 1.0
    ensures r < 0.0 ==> n as real - 1.0 < r <= n as real
  {
    if r >= 0.0 then r.Floor else -((-r).Floor)
  }

  predicate IsInteger(r: real) {
    r == r.Floor as real
  }

  lemma TruncExactIffInteger(r: real)
    ensures Trunc(r) as real == r <==> IsInteger(r)
  {
    if r < 0.0 {
      if IsInteger(r) {
        assert (-r).Floor == -(r.Floor);
      }
    }
  }

  /** Canvas height of the range-fitted system: the width scaled by the
      aspect ratio of the user ranges, truncated to an integer. */
  function RangedCanvasHeight(cnvwidth: int, xmin: real, ymin: real, xmax: real, ymax: real): (h: int)
    requires xmax != xmin
    ensures var v := (ymax - ymin) / (xmax - xmin) * cnvwidth as real;
            (v >= 0.0 ==> h as real <= v < h as real + 1.0) && (v < 0.0 ==> h as real - 1.0 < v <= h as real)
  {
    Trunc((ymax - ymin) / (xmax - xmin) * cnvwidth as real)
  }

  /** Finishes a system built at origin zero: moves the origin so that the
      user point `at` lands on the pixel `target`. */
  function WithOriginPinned(cs: CoordinateSystem, at: Point, target: Point): (r: CoordinateSystem)
    requires cs.xorigin == 0.0 && cs.yorigin == 0.0
    ensures r.cnvxsize == cs.cnvxsize && r.cnvysize == cs.cnvysize
    ensures r.xsign == cs.xsign && r.ysign == cs.ysign && r.unit2pixel == cs.unit2pixel
    ensures r.CanvasCoordinates(at.x, at.y) == target
  {
    var p := cs.CanvasCoordinates(at.x, at.y);
    cs.(xorigin := target.x - p.x, yorigin := target.y - p.y)
  }

  /** Range-fitted system: (xmin, ymin) on the bottom-left pixel and
      x = xmax on the right border. Derived by building the system at
      origin zero and then pinning (xmin, ymin) to (0, cnvheight). */
  function NewCoordSysWithRanges(cnvwidth: int, xmin: real, ymin: real, xmax: real, ymax: real): (cs: CoordinateSystem)
    requires xmax != xmin
    ensures cs.Valid() <==> cnvwidth != 0
    ensures cs.cnvxsize == cnvwidth
    ensures cs.cnvysize == RangedCanvasHeight(cnvwidth, xmin, ymin, xmax, ymax)
    ensures cs.CanvasCoordinates(xmin, ymin) == Point(0.0, cs.cnvysize as real)
    ensures cs.CanvasCoordinates(xmax, ymax).x == cnvwidth as real
    ensures cs.xsign == 1.0 && cs.ysign == -1.0
  {
    var xrange := xmax - xmin;
    var cnvheight := RangedCanvasHeight(cnvwidth, xmin, ymin, xmax, ymax);
    var cs0 := MakeCoordinatesSystem(0.0, 0.0, cnvwidth, cnvheight, false, true, xrange);
    var cs := WithOriginPinned(cs0, Point(xmin, ymin), Point(0.0, cnvheight as real));
    assert cs.unit2pixel * xrange == cnvwidth as real;
    assert cs.unit2pixel * xmax == cs.unit2pixel * xmin + cnvwidth as real;
    cs
  }

  /** The same system with the origin solved in closed form, each sign and
      the scale written out once more. */
  function RangesClosedForm(cnvwidth: int, xmin: real, ymin: real, xmax: real, ymax: real): (cs: CoordinateSystem)
    requires xmax != xmin
    ensures cs.CanvasCoordinates(xmin, ymin) == Point(0.0, RangedCanvasHeight(cnvwidth, xmin, ymin, xmax, ymax) as real)
  {
    var xrange := xmax - xmin;
    var cnvheight := RangedCanvasHeight(cnvwidth, xmin, ymin, xmax, ymax);
    var unit2pixel := cnvwidth as real / xrange;
    var xsign := 1.0;
    var ysign := -1.0;
    var pxOrigin := 0.0;
    var pyOrigin := cnvheight as real;
    MakeCoordinatesSystem(pxOrigin - xsign * unit2pixel * xmin, pyOrigin - ysign * unit2pixel * ymin,
                          cnvwidth, cnvheight, false, true, xrange)
  }

  /** Both derivations of the range-fitted system give the same system. */
  lemma RangesDerivationsAgree(cnvwidth: int, xmin: real, ymin: real, xmax: real, ymax: real)
    requires xmax != xmin
    ensures NewCoordSysWithRanges(cnvwidth, xmin, ymin, xmax, ymax)
            == RangesClosedForm(cnvwidth, xmin, ymin, xmax, ymax)
  {
  }

  /** (xmax, ymax) lands on the top-right pixel exactly when the unrounded
      canvas height cnvwidth * yrange / xrange is a whole number. */
  lemma RangesTopRightIffWholeHeight(cnvwidth: int, xmin: real, ymin: real, xmax: real, ymax: real)
    requires xmax != xmin
    ensures var cs := NewCoordSysWithRanges(cnvwidth, xmin, ymin, xmax, ymax);
            cs.CanvasCoordinates(xmax, ymax) == Point(cnvwidth as real, 0.0)
            <==> IsInteger((ymax - ymin) / (xmax - xmin) * cnvwidth as real)
  {
    var cs := NewCoordSysWithRanges(cnvwidth, xmin, ymin, xmax, ymax);
    var v := (ymax - ymin) / (xmax - xmin) * cnvwidth as real;
    var u := cs.unit2pixel;
    assert u == cnvwidth as real / (xmax - xmin);
    assert u * (ymax - ymin) == v;
    assert u * ymax - u * ymin == u * (ymax - ymin);
    var h := cs.cnvysize as real;
    assert cs.yorigin + -1.0 * u * ymin == h;
    assert cs.yorigin == h + u * ymin;
    assert cs.CanvasCoordinates(xmax, ymax).y == cs.yorigin + -1.0 * u * ymax;
    assert cs.CanvasCoordinates(xmax, ymax).y == h - v;
    TruncExactIffInteger(v);
  }
}
