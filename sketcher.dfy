/** The drawing surface: a cursor in user units, the list of emitted SVG
    elements (already projected to pixels), a coordinate system and a
    pencil. Every drawing call projects its points through the coordinate
    system bound at call time and styles them with the pencil's current
    attributes. */
module Sketch {
  import opened Fmt
  import opened Coordinates
  import opened Pencils

  /** One emitted SVG element; positions and lengths are in pixels. */
  datatype Primitive =
    | SvgLine(x1: real, y1: real, x2: real, y2: real, style: string)
    | SvgCircle(cx: real, cy: real, r: real, style: string)
    | SvgPolygon(points: seq<Point>, style: string)
    | SvgText(x: real, y: real, style: string, text: string)

  /** The `points` attribute of a polygon: "px,py " per vertex, in order. */
  function PolygonPoints(points: seq<Point>): (t: string)
    ensures t == "" <==> |points| == 0
    ensures |points| > 0 ==> t[|t| - 1] == ' '
  {
    if |points| == 0 then ""
    else FormatFixed2(points[0].x) + "," + FormatFixed2(points[0].y) + " " + PolygonPoints(points[1..])
  }

  /** The element patterns of the output format. */
  function Render(e: Primitive): (t: string)
    ensures |t| > 0 && t[0] == '<' && t[|t| - 1] == '>'
  {
    match e
    case SvgLine(x1, y1, x2, y2, style) =>
      "<line x1='" + FormatFixed2(x1) + "' y1='" + FormatFixed2(y1) + "' x2='" + FormatFixed2(x2)
        + "' y2='" + FormatFixed2(y2) + "' style='" + style + "'/>"
    case SvgCircle(cx, cy, r, style) =>
      "<circle cx='" + FormatFixed2(cx) + "' cy='" + FormatFixed2(cy) + "' r='" + FormatFixed2(r)
        + "' style='" + style + "'/>"
    case SvgPolygon(points, style) =>
      "<polygon points='" + PolygonPoints(points) + "' style='" + style + "'/>"
    case SvgText(x, y, style, text) =>
      "<text x='" + FormatFixed2(x) + "' y='" + FormatFixed2(y) + "' style='" + style + "'>" + text + "</text>"
  }

  /** The body text: one element per line, in emission order. */
  function RenderBody(body: seq<Primitive>): string {
    if |body| == 0 then "" else Render(body[0]) + "\n" + RenderBody(body[1..])
  }

  /** The body text is empty exactly when nothing was drawn, and otherwise
      ends with the newline that closes the last element's line. */
  lemma {:induction false} RenderBodyLines(body: seq<Primitive>)
    ensures RenderBody(body) == "" <==> |body| == 0
    ensures |body| > 0 ==> RenderBody(body)[|RenderBody(body)| - 1] == '\n'
    decreases |body|
  {
    if |body| > 0 {
      var rest := RenderBody(body[1..]);
      RenderBodyLines(body[1..]);
      var t := Render(body[0]) + "\n";
      assert RenderBody(body) == t + rest;
      if |rest| > 0 {
        assert (t + rest)[|t + rest| - 1] == rest[|rest| - 1];
      }
    }
  }

  /** Appending elements appends their text: the body text is built up call
      by call and never rewritten. */
  lemma {:induction false} RenderBodyAppend(a: seq<Primitive>, b: seq<Primitive>)
    ensures RenderBody(a + b) == RenderBody(a) + RenderBody(b)
    decreases |a|
  {
    if |a| == 0 {
      assert a + b == b;
    } else {
      assert (a + b)[0] == a[0];
      assert (a + b)[1..] == a[1..] + b;
      RenderBodyAppend(a[1..], b);
      var t := Render(a[0]) + "\n";
      calc {
        RenderBody(a + b);
        t + RenderBody(a[1..] + b);
        t + (RenderBody(a[1..]) + RenderBody(b));
        (t + RenderBody(a[1..])) + RenderBody(b);
        RenderBody(a) + RenderBody(b);
      }
    }
  }

  function Header(width: int, height: int): string {
    "<svg xmlns='http://www.w3.org/2000/svg' width='" + FormatInt(width) + "' height='" + FormatInt(height) + "'>"
  }

  /** The header opens the svg element with its width attribute and closes the tag. */
  lemma HeaderFraming(width: int, height: int)
    ensures var h := Header(width, height);
            |h| > 2 && h[|h| - 2..] == "'>" && "<svg xmlns='http://www.w3.org/2000/svg' width='" <= h
  {
  }

  const Footer: string := "</svg>"

  /** The whole document: a header for a 600x600 canvas whatever the bound
      coordinate system, a newline, the body, the footer. */
  function Document(body: seq<Primitive>): string {
    Header(600, 600) + "\n" + RenderBody(body) + Footer
  }

  /** Every document opens with the header line and closes with the footer. */
  lemma DocumentFraming(body: seq<Primitive>)
    ensures var d := Document(body);
            var h := Header(600, 600) + "\n";
            |d| >= |h| + |Footer| && d[..|h|] == h && d[|d| - |Footer|..] == Footer
  {
    var h := Header(600, 600) + "\n";
    var d := h + RenderBody(body) + Footer;
    assert d[..|h|] == h;
  }

  /** Emitting more elements inserts their text just before the footer;
      what was already emitted, and the header, stay as they were. */
  lemma DocumentAppend(body: seq<Primitive>, extra: seq<Primitive>)
    ensures Document(body + extra) == Header(600, 600) + "\n" + RenderBody(body) + RenderBody(extra) + Footer
  {
    RenderBodyAppend(body, extra);
  }

  /** The fixed header line. */
  lemma DefaultHeader()
    ensures Header(600, 600) == "<svg xmlns='http://www.w3.org/2000/svg' width='600' height='600'>"
  {
    // Solver scaffolding: the expected header is built one piece at a time,
    // because one comparison of the whole literal is too costly.
    assert FormatNat(6) == "6" && Digit(0) == '0';
    assert FormatNat(60) == "60";
    assert FormatInt(600) == "600";
    assert "<svg xmlns='http://www.w3.org/2000/svg' width='" + "600"
        == "<svg xmlns='http://www.w3.org/2000/svg' width='600";
    assert "<svg xmlns='http://www.w3.org/2000/svg' width='600" + "' height='"
        == "<svg xmlns='http://www.w3.org/2000/svg' width='600' height='";
    assert "<svg xmlns='http://www.w3.org/2000/svg' width='600' height='" + "600"
        == "<svg xmlns='http://www.w3.org/2000/svg' width='600' height='600";
    assert "<svg xmlns='http://www.w3.org/2000/svg' width='600' height='600" + "'>"
        == "<svg xmlns='http://www.w3.org/2000/svg' width='600' height='600'>";
  }

  /** Pixel positions of user points, in order. */
  function Projected(cs: CoordinateSystem, points: seq<Point>): (r: seq<Point>)
    ensures |r| == |points|
    ensures forall i :: 0 <= i < |points| ==> r[i] == cs.CanvasCoordinates(points[i].x, points[i].y)
    decreases |points|
  {
    if |points| == 0 then []
    else [cs.CanvasCoordinates(points[0].x, points[0].y)] + Projected(cs, points[1..])
  }

  /** The line element from user point p to user point q. */
  function LineBetween(cs: CoordinateSystem, style: string, p: Point, q: Point): Primitive {
    var pp := cs.CanvasCoordinates(p.x, p.y);
    var pq := cs.CanvasCoordinates(q.x, q.y);
    SvgLine(pp.x, pp.y, pq.x, pq.y, style)
  }

  /** One line per pair of consecutive points. */
  function Segments(cs: CoordinateSystem, style: string, points: seq<Point>): (r: seq<Primitive>)
    ensures |r| == if |points| == 0 then 0 else |points| - 1
    ensures forall i :: 0 <= i < |r| ==> r[i] == LineBetween(cs, style, points[i], points[i + 1])
    decreases |points|
  {
    if |points| <= 1 then []
    else [LineBetween(cs, style, points[0], points[1])] + Segments(cs, style, points[1..])
  }

  /** Growing a point list by one point adds one line at the end. */
  lemma SegmentsSnoc(cs: CoordinateSystem, style: string, points: seq<Point>, i: nat)
    requires 1 <= i < |points|
    ensures Segments(cs, style, points[..i + 1])
            == Segments(cs, style, points[..i]) + [LineBetween(cs, style, points[i - 1], points[i])]
  {
    var a := Segments(cs, style, points[..i + 1]);
    var b := Segments(cs, style, points[..i]) + [LineBetween(cs, style, points[i - 1], points[i])];
    assert |a| == |b|;
    forall k | 0 <= k < |a| ensures a[k] == b[k] {
      assert points[..i + 1][k] == points[k] && points[..i + 1][k + 1] == points[k + 1];
      if k < i - 1 {
        assert points[..i][k] == points[k] && points[..i][k + 1] == points[k + 1];
      }
    }
  }

  /** Scale applied to the pencil width to get the radius of a point. */
  const Factor: real := 1.0

  class Sketcher {
    var x: real
    var y: real
    var body: seq<Primitive>
    var cs: CoordinateSystem
    var pencil: Pencil

    /** A surface bound to the given system and pencil, cursor at the user
        origin, nothing drawn yet. */
    constructor (cs: CoordinateSystem, pencil: Pencil)
      ensures x == 0.0 && y == 0.0 && body == []
      ensures this.cs == cs && this.pencil == pencil
    {
      x, y := 0.0, 0.0;
      body := [];
      this.cs := cs;
      this.pencil := pencil;
    }

    /** The serialized document; reading it changes nothing. */
    function ToSVG(): string
      reads this
    {
      Document(body)
    }

    /** The cursor: the last point a drawing call moved to. */
    function Position(): (p: Coordinates.Point)
      reads this
      ensures p.x == x && p.y == y
    {
      Coordinates.Point(x, y)
    }

    /** Pixel of a user point under the bound system; on a valid system
        the bound system's inverse gives the user point back. */
    function CanvasCoordinates(x: real, y: real): (p: Coordinates.Point)
      reads this
      ensures cs.Valid() ==> cs.UserCoordinates(p.x, p.y) == Coordinates.Point(x, y)
    {
      if cs.Valid() then UserOfCanvas(cs, x, y); cs.CanvasCoordinates(x, y)
      else cs.CanvasCoordinates(x, y)
    }

    /** Pixel length of a user length under the bound system: the
        displacement along the x axis of a user length, up to the axis sign. */
    function CanvasScaling(size: real): (psize: real)
      reads this
      ensures cs.CanvasCoordinates(size, 0.0).x - cs.xorigin == cs.xsign * psize
      ensures cs.unit2pixel > 0.0 && size >= 0.0 ==> psize >= 0.0
    {
      cs.CanvasScaling(size)
    }

    /** Radius in user units of a point: the pencil width over the canvas
        width, so that on a system spanning the width with one unit the
        pixel radius is the pencil width. */
    function PointSize(): (r: real)
      reads this, pencil
      requires cs.cnvxsize != 0
      ensures r * cs.cnvxsize as real == pencil.lineWidth as real
      ensures cs.unit2pixel == cs.cnvxsize as real ==> cs.CanvasScaling(r) == pencil.lineWidth as real
    {
      Factor * pencil.lineWidth as real / cs.cnvxsize as real
    }

    /** Discards the body; cursor, system and pencil stay. */
    method Clear()
      modifies this
      ensures body == []
      ensures x == old(x) && y == old(y) && cs == old(cs) && pencil == old(pencil)
    {
      body := [];
    }

    /** Moves the cursor and emits nothing. */
    method MoveTo(x: real, y: real)
      modifies this
      ensures this.x == x && this.y == y
      ensures body == old(body) && cs == old(cs) && pencil == old(pencil)
    {
      this.x := x;
      this.y := y;
    }

    /** A line from the cursor to (x, y) in the pencil's draw style; the
        cursor moves to (x, y). */
    method LineTo(x: real, y: real)
      modifies this
      ensures body == old(body) + [LineBetween(cs, pencil.DrawStyle(), Coordinates.Point(old(this.x), old(this.y)), Coordinates.Point(x, y))]
      ensures this.x == x && this.y == y
      ensures cs == old(cs) && pencil == old(pencil)
    {
      var p1 := CanvasCoordinates(this.x, this.y);
      var p2 := CanvasCoordinates(x, y);
      var style := pencil.DrawStyle();
      body := body + [SvgLine(p1.x, p1.y, p2.x, p2.y, style)];
      this.x := x;
      this.y := y;
    }

    /** A circle at (cx, cy) of user radius r, filled or not as `fill` says
        for this call only; the pencil is left as it is and the cursor moves
        to the centre. */
    method Circle(cx: real, cy: real, r: real, fill: bool)
      modifies this
      ensures var c := cs.CanvasCoordinates(cx, cy);
              body == old(body) + [SvgCircle(c.x, c.y, cs.CanvasScaling(r), pencil.DrawStyleWithFillMode(fill))]
      ensures x == cx && y == cy
      ensures cs == old(cs) && pencil == old(pencil) && pencil.State() == old(pencil.State())
    {
      var pc := CanvasCoordinates(cx, cy);
      var pr := CanvasScaling(r);
      var style := pencil.DrawStyleWithFillMode(fill);
      body := body + [SvgCircle(pc.x, pc.y, pr, style)];
      x := cx;
      y := cy;
    }

    /** A filled circle whose radius is the pencil width in pixels on a
        unit-range system. */
    method Point(x: real, y: real)
      requires cs.cnvxsize != 0
      modifies this
      ensures cs == old(cs) && pencil == old(pencil)
      ensures var c := cs.CanvasCoordinates(x, y);
              body == old(body) + [SvgCircle(c.x, c.y, cs.CanvasScaling(PointSize()), pencil.DrawStyleWithFillMode(true))]
      ensures this.x == x && this.y == y
    {
      var r := PointSize();
      Circle(x, y, r, true);
    }

    /** One polygon listing the projected vertices in order; the cursor ends
        on the last vertex, or on (0, 0) when there is none. */
    method Polygon(points: seq<Coordinates.Point>, fill: bool)
      modifies this
      ensures body == old(body) + [SvgPolygon(Projected(cs, points), pencil.DrawStyleWithFillMode(fill))]
      ensures |points| == 0 ==> x == 0.0 && y == 0.0
      ensures |points| > 0 ==> x == points[|points| - 1].x && y == points[|points| - 1].y
      ensures cs == old(cs) && pencil == old(pencil)
    {
      var lx, ly := 0.0, 0.0;
      var coords: seq<Coordinates.Point> := [];
      var i := 0;
      while i < |points|
        invariant 0 <= i <= |points|
        invariant |coords| == i
        invariant forall k :: 0 <= k < i ==> coords[k] == cs.CanvasCoordinates(points[k].x, points[k].y)
        invariant i == 0 ==> lx == 0.0 && ly == 0.0
        invariant i > 0 ==> lx == points[i - 1].x && ly == points[i - 1].y
      {
        lx, ly := points[i].x, points[i].y;
        var p := CanvasCoordinates(lx, ly);
        coords := coords + [p];
        i := i + 1;
      }
      assert coords == Projected(cs, points);
      var style := pencil.DrawStyleWithFillMode(fill);
      body := body + [SvgPolygon(coords, style)];
      x := lx;
      y := ly;
    }

    /** Lines through consecutive points, plus one back to the first point
        when `closed`; the cursor ends on the first point when closed, on the
        last one otherwise. */
    method Polyline(points: seq<Coordinates.Point>, closed: bool)
      requires |points| >= 1
      modifies this
      ensures body == old(body) + Segments(cs, pencil.DrawStyle(), points)
                      + (if closed then [LineBetween(cs, pencil.DrawStyle(), points[|points| - 1], points[0])] else [])
      ensures closed ==> x == points[0].x && y == points[0].y
      ensures !closed ==> x == points[|points| - 1].x && y == points[|points| - 1].y
      ensures cs == old(cs) && pencil == old(pencil)
    {
      ghost var style := pencil.DrawStyle();
      var p := points[0];
      MoveTo(p.x, p.y);
      assert points[..1] == [points[0]];
      var i := 1;
      while i < |points|
        invariant 1 <= i <= |points|
        invariant body == old(body) + Segments(cs, style, points[..i])
        invariant x == points[i - 1].x && y == points[i - 1].y && p == points[i - 1]
        invariant cs == old(cs) && pencil == old(pencil) && style == pencil.DrawStyle()
      {
        p := points[i];
        LineTo(p.x, p.y);
        SegmentsSnoc(cs, style, points, i);
        i := i + 1;
      }
      assert points[..|points|] == points;
      if closed {
        p := points[0];
        LineTo(p.x, p.y);
      }
      x := p.x;
      y := p.y;
    }

    /** A single line from (x1, y1) to (x2, y2); the cursor ends on (x2, y2). */
    method Edge(x1: real, y1: real, x2: real, y2: real)
      modifies this
      ensures body == old(body) + [LineBetween(cs, pencil.DrawStyle(), Coordinates.Point(x1, y1), Coordinates.Point(x2, y2))]
      ensures x == x2 && y == y2
      ensures cs == old(cs) && pencil == old(pencil)
    {
      MoveTo(x1, y1);
      LineTo(x2, y2);
    }

    /** A text label anchored at (x, y) in the pencil's font; the cursor
        does not move. */
    method Text(x: real, y: real, text: string)
      modifies this
      ensures var p := cs.CanvasCoordinates(x, y);
              body == old(body) + [SvgText(p.x, p.y, pencil.TextStyle(), text)]
      ensures this.x == old(this.x) && this.y == old(this.y)
      ensures cs == old(cs) && pencil == old(pencil)
    {
      var p := CanvasCoordinates(x, y);
      var style := pencil.TextStyle();
      body := body + [SvgText(p.x, p.y, style, text)];
    }

    /** A point and a label 0.01 user units up and to the right of it. */
    method PointWithLabel(x: real, y: real, caption: string)
      requires cs.cnvxsize != 0
      modifies this
      ensures cs == old(cs) && pencil == old(pencil)
      ensures var c := cs.CanvasCoordinates(x, y);
              var t := cs.CanvasCoordinates(x + 0.01, y + 0.01);
              body == old(body) + [SvgCircle(c.x, c.y, cs.CanvasScaling(PointSize()), pencil.DrawStyleWithFillMode(true)),
                                   SvgText(t.x, t.y, pencil.TextStyle(), caption)]
      ensures this.x == x && this.y == y
    {
      var xoffset := 0.01;
      var yoffset := 0.01;
      Point(x, y);
      Text(x + xoffset, y + yoffset, caption);
    }
  }

  /** NewSketcher: the default coordinate system (stated by its field
      values, those `NewCoordinateSystem` returns) and the pencil the caller
      hands in (the default pencil, passed explicitly). */
  method NewSketcher(pencil: Pencil) returns (s: Sketcher)
    ensures fresh(s)
    ensures s.x == 0.0 && s.y == 0.0 && s.body == []
    ensures s.cs == CoordinateSystem(600, 600, 0.0, 600.0, 1.0, -1.0, 600.0) && s.pencil == pencil
  {
    s := new Sketcher(NewCoordinateSystem(), pencil);
  }
}
