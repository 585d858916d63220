/**
 * The canvas geometry: the measured size and a margin of one tenth of each
 * dimension on both sides, leaving four fifths for the graph itself.
 */
module CanvasProperties {
  import opened Strings
  import opened Js

  datatype CanvasProperties = CanvasProperties(
    width: int,
    height: int,
    marginWidth: real,
    marginHeight: real,
    renderAreaWidth: real,
    renderAreaHeight: real)

  /** The constructor, once the two computed style values have been read as integers. */
  function FromSize(width: int, height: int): (c: CanvasProperties)
    ensures c.width == width && c.height == height
    ensures c.marginWidth * 10.0 == width as real && c.marginHeight * 10.0 == height as real
    ensures c.marginWidth + c.renderAreaWidth + c.marginWidth == width as real
    ensures c.marginHeight + c.renderAreaHeight + c.marginHeight == height as real
    ensures c.renderAreaWidth == 8.0 * c.marginWidth && c.renderAreaHeight == 8.0 * c.marginHeight
  {
    var marginRatio := 0.1;
    var marginWidth := width as real * marginRatio;
    var marginHeight := height as real * marginRatio;
    CanvasProperties(width, height, marginWidth, marginHeight,
                     width as real - marginWidth * 2.0, height as real - marginHeight * 2.0)
  }

  /**
   * The constructor from the two computed style strings, read with `parseInt(…, 10)`.
   * `None` stands for a style that does not start with a number, where the source
   * would carry NaN through every field.
   */
  function FromComputedStyle(widthStyle: string, heightStyle: string): (c: Option<CanvasProperties>)
    ensures c.Some? <==> ParseInt(widthStyle).Num? && ParseInt(heightStyle).Num?
    ensures c.Some? ==> c.value == FromSize(ParseInt(widthStyle).n, ParseInt(heightStyle).n)
  {
    var w := ParseInt(widthStyle);
    var h := ParseInt(heightStyle);
    if w.Num? && h.Num? then Some(FromSize(w.n, h.n)) else None
  }

  /** A computed style such as "400px" gives a canvas of exactly that many pixels. */
  lemma PixelStyles(width: nat, height: nat)
    ensures FromComputedStyle(NatToString(width) + "px", NatToString(height) + "px") == Some(FromSize(width, height))
  {
    ParseIntOfRendered(Num(width), "px");
    ParseIntOfRendered(Num(height), "px");
    assert NumberToString(Num(width)) == NatToString(width);
    assert NumberToString(Num(height)) == NatToString(height);
  }

  /** For a canvas of non-negative size, margins and render area lie between 0 and the whole. */
  lemma FromSizeBounds(width: nat, height: nat)
    ensures var c := FromSize(width, height);
      && 0.0 <= c.marginWidth <= c.renderAreaWidth <= width as real
      && 0.0 <= c.marginHeight <= c.renderAreaHeight <= height as real
  {
  }

  lemma FromSizeExample()
    ensures FromSize(400, 300) == CanvasProperties(400, 300, 40.0, 30.0, 320.0, 240.0)
  {
  }
}
