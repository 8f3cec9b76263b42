/** Stroke, fill and font attributes of the emitted primitives, and their
    rendering into the `style` attribute of an SVG element. */
module Pencils {
  import opened Fmt

  const DefaultLineColor: string := "black"
  const DefaultLineWidth: int := 2
  const DefaultFillColor: string := "black"
  const DefaultFillMode: bool := true
  const DefaultFontFamily: string := "Arial"
  const DefaultFontWeight: string := "normal"
  const DefaultFontSize: int := 20
  const DefaultFontColor: string := "black"

  /** The pattern "stroke: %s; stroke-width: %d; fill: %s" filled in. */
  function DrawStylePattern(stroke: string, width: int, fill: string): string {
    "stroke: " + stroke + "; stroke-width: " + FormatInt(width) + "; fill: " + fill
  }

  /** A draw style opens with the stroke colour and closes with the fill
      colour, whatever the width. */
  lemma DrawStyleFraming(stroke: string, width: int, fill: string)
    ensures var style := DrawStylePattern(stroke, width, fill);
            "stroke: " + stroke <= style && |style| >= |fill| && style[|style| - |fill|..] == fill
  {
  }

  /** The pattern "font-family:%s; font-size:%d; font-weight:%s; fill: %s" filled in. */
  function TextStylePattern(family: string, size: int, weight: string, color: string): (style: string)
    ensures "font-family:" + family <= style
    ensures |style| >= |color| && style[|style| - |color|..] == color
  {
    "font-family:" + family + "; font-size:" + FormatInt(size) + "; font-weight:" + weight + "; fill: " + color
  }

  /** The eight attributes of a pencil, as a value. */
  datatype PencilState = PencilState(
    lineColor: string, lineWidth: int, fillColor: string, fillMode: bool,
    fontFamily: string, fontWeight: string, fontSize: int, fontColor: string)

  /** A pencil is an object shared by pointer: whoever holds it may change
      its attributes, and every later drawing call reads them anew. */
  class Pencil {
    var lineColor: string
    var lineWidth: int
    var fillColor: string
    var fillMode: bool   // fill closed shapes with fillColor unless a call says otherwise
    var fontFamily: string
    var fontWeight: string
    var fontSize: int
    var fontColor: string

    function State(): PencilState
      reads this
    {
      PencilState(lineColor, lineWidth, fillColor, fillMode, fontFamily, fontWeight, fontSize, fontColor)
    }

    /** NewPencil: the given line colour and width, every other attribute
        at its default. */
    constructor (linecolor: string, linewidth: int)
      ensures State() == PencilState(linecolor, linewidth, DefaultFillColor, DefaultFillMode,
                                     DefaultFontFamily, DefaultFontWeight, DefaultFontSize, DefaultFontColor)
    {
      lineColor := linecolor;
      lineWidth := linewidth;
      fillColor := DefaultFillColor;
      fillMode := DefaultFillMode;
      fontFamily := DefaultFontFamily;
      fontWeight := DefaultFontWeight;
      fontSize := DefaultFontSize;
      fontColor := DefaultFontColor;
    }

    /** Stroke attributes of the pencil, with the fill chosen by the caller:
        the pencil's fill colour, or none. */
    function DrawStyleWithFillMode(fill: bool): (style: string)
      reads this
      ensures fill ==> style == DrawStylePattern(lineColor, lineWidth, fillColor)
      ensures !fill ==> style == DrawStylePattern(lineColor, lineWidth, "none")
    {
      var fillcolor := if !fill then "none" else fillColor;
      DrawStylePattern(lineColor, lineWidth, fillcolor)
    }

    /** Stroke attributes with the pencil's own fill mode. */
    function DrawStyle(): (style: string)
      reads this
      ensures style == DrawStylePattern(lineColor, lineWidth, if fillMode then fillColor else "none")
    {
      DrawStyleWithFillMode(fillMode)
    }

    /** Font family, size, weight and colour, in that order. */
    function TextStyle(): (style: string)
      reads this
      ensures style == "font-family:" + fontFamily + "; font-size:" + FormatInt(fontSize)
                       + "; font-weight:" + fontWeight + "; fill: " + fontColor
    {
      TextStylePattern(fontFamily, fontSize, fontWeight, fontColor)
    }

    /** A new pencil with the same eight attributes; later writes to either
        one leave the other as it was. */
    method Clone() returns (p: Pencil)
      ensures fresh(p)
      ensures p.State() == State()
    {
      p := new Pencil(lineColor, lineWidth);
      p.fillColor := fillColor;
      p.fillMode := fillMode;
      p.fontFamily := fontFamily;
      p.fontWeight := fontWeight;
      p.fontSize := fontSize;
      p.fontColor := fontColor;
    }
  }

  /** The text style reads only the four font attributes: changing the line
      or fill attributes of a pencil leaves its text style as it was. */
  lemma TextStyleIgnoresDrawing(a: Pencil, b: Pencil)
    requires a.fontFamily == b.fontFamily && a.fontSize == b.fontSize
    requires a.fontWeight == b.fontWeight && a.fontColor == b.fontColor
    ensures a.TextStyle() == b.TextStyle()
  {
  }

  /** The draw style reads only the line colour and width and the fill
      colour: changing the font attributes leaves it as it was. */
  lemma DrawStyleIgnoresFont(a: Pencil, b: Pencil, fill: bool)
    requires a.lineColor == b.lineColor && a.lineWidth == b.lineWidth && a.fillColor == b.fillColor
    ensures a.DrawStyleWithFillMode(fill) == b.DrawStyleWithFillMode(fill)
  {
  }

  /** The process-wide default pencil, handed out explicitly: black, width 2. */
  method NewDefaultPencil() returns (p: Pencil)
    ensures fresh(p)
    ensures p.State() == PencilState(DefaultLineColor, DefaultLineWidth, DefaultFillColor, DefaultFillMode,
                                     DefaultFontFamily, DefaultFontWeight, DefaultFontSize, DefaultFontColor)
  {
    p := new Pencil(DefaultLineColor, DefaultLineWidth);
  }

  /** The default pencil draws "stroke: black; stroke-width: 2; fill: black". */
  lemma DefaultDrawStyle()
    ensures DrawStylePattern(DefaultLineColor, DefaultLineWidth, if DefaultFillMode then DefaultFillColor else "none")
            == "stroke: black; stroke-width: 2; fill: black"
  {
    assert FormatInt(2) == "2";
  }

  /** Its unfilled variant. */
  lemma DefaultUnfilledStyle()
    ensures DrawStylePattern(DefaultLineColor, DefaultLineWidth, "none") == "stroke: black; stroke-width: 2; fill: none"
  {
    assert FormatInt(2) == "2";
  }

  /** The default pencil writes black Arial, size 20, normal weight. */
  lemma DefaultTextStyle()
    ensures TextStylePattern(DefaultFontFamily, DefaultFontSize, DefaultFontWeight, DefaultFontColor)
            == "font-family:Arial; font-size:20; font-weight:normal; fill: black"
  {
    // The solver compares long string literals poorly; the asserts below
    // build the expected text one piece at a time so that each step is small.
    assert FormatNat(2) == "2" && Digit(0) == '0';
    assert FormatInt(20) == "20";
    assert "font-family:" + "Arial" == "font-family:Arial";
    assert "font-family:Arial" + "; font-size:" == "font-family:Arial; font-size:";
    assert "font-family:Arial; font-size:" + "20" == "font-family:Arial; font-size:20";
    assert "font-family:Arial; font-size:20" + "; font-weight:" == "font-family:Arial; font-size:20; font-weight:";
    assert "font-family:Arial; font-size:20; font-weight:" + "normal"
        == "font-family:Arial; font-size:20; font-weight:normal";
    assert "font-family:Arial; font-size:20; font-weight:normal" + "; fill: "
        == "font-family:Arial; font-size:20; font-weight:normal; fill: ";
    assert "font-family:Arial; font-size:20; font-weight:normal; fill: " + "black"
        == "font-family:Arial; font-size:20; font-weight:normal; fill: black";
  }
}
