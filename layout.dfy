/**
 * Where the widget draws: the axes, the data points, the labels along both
 * axes with the x labels' dotted lines, the axis titles and the zero line, as
 * positions computed from one bundle of rendering data.  The canvas calls
 * themselves are not modelled; each drawing step yields the positions and
 * texts it passes to them, with `None` where the source computes NaN.
 */
module Layout {
  import opened Js
  import opened Numeric
  import GraphProperties
  import FontSettings
  import D = GraphAndCanvasData

  type Data = D.GraphAndCanvasData

  /** The statistics are those of the dataset, as the widget builds them. */
  predicate Drawable(d: Data) {
    d.Valid() && d.graphProperties == GraphProperties.Of(d.dataset)
  }

  datatype Point = Point(xCoordinate: int, yCoordinate: int)

  /** A flat dataset (range below 2) is drawn around its average in a band of ten. */
  function AdjustedMin(g: GraphProperties.GraphProperties): int {
    if g.range < 2 then Floor(g.average) - 5 else g.min
  }

  function AdjustedRange(g: GraphProperties.GraphProperties): int {
    if g.range < 2 then 10 else g.range
  }

  /** Horizontal distance between neighbouring points: the render width over the prime-adjusted length. */
  function PointDistance(d: Data): int
    requires d.Valid()
  {
    Floor(d.canvasProperties.renderAreaWidth / d.graphProperties.primeAdjustedLength as real)
  }

  /** `Math.ceil(adjustedRange / numberOfLabelsOnYAxis)`: data units per vertical step. */
  function RangeScale(d: Data): (r: int)
    requires d.Valid()
    ensures r >= 1
  {
    Ceil(AdjustedRange(d.graphProperties) as real / d.numberOfLabelsOnYAxis as real)
  }

  /** `Math.ceil(renderAreaHeight / numberOfLabelsOnYAxis)`: pixels per vertical step. */
  function HeightScale(d: Data): int
    requires d.Valid()
  {
    Ceil(d.canvasProperties.renderAreaHeight / d.numberOfLabelsOnYAxis as real)
  }

  /** The y coordinate of the x axis. */
  function Bottom(d: Data): real {
    d.canvasProperties.marginHeight + d.canvasProperties.renderAreaHeight
  }

  /** The y coordinate a value is drawn at, before flooring. */
  function YPosition(d: Data, value: int): real
    requires d.Valid()
  {
    var yOffset := value - AdjustedMin(d.graphProperties);
    Bottom(d) - (yOffset as real / RangeScale(d) as real) * HeightScale(d) as real
  }

  /** The i-th point the generator yields. */
  function PointAt(d: Data, i: nat): Point
    requires d.Valid() && i < |d.dataset|
  {
    var x := d.canvasProperties.marginWidth + (i * PointDistance(d)) as real;
    Point(Floor(x), Floor(YPosition(d, d.dataset[i])))
  }

  function Points(d: Data): seq<Point>
    requires d.Valid()
  {
    seq(|d.dataset|, i requires 0 <= i < |d.dataset| => PointAt(d, i))
  }

  // ---------------------------------------------------------------------------
  // The point generator and the two drawing passes over it

  /** The generator function: one point per element of the dataset, in order, then nothing. */
  class PointGenerator {
    const data: Data
    var index: nat

    predicate Valid()
      reads this
    {
      data.Valid() && index <= |data.dataset|
    }

    constructor (data: Data)
      requires data.Valid()
      ensures Valid() && this.data == data && index == 0
    {
      this.data := data;
      index := 0;
    }

    /** `generator.next().value` */
    method Next() returns (p: Option<Point>)
      requires Valid()
      modifies this`index
      ensures Valid()
      ensures old(index) < |data.dataset| ==> p == Some(PointAt(data, old(index))) && index == old(index) + 1
      ensures old(index) == |data.dataset| ==> p == None && index == old(index)
    {
      if index < |data.dataset| {
        p := Some(PointAt(data, index));
        index := index + 1;
      } else {
        p := None;
      }
    }
  }

  /** The points the graph line is stroked through and the dots are placed at, in order. */
  method TracePoints(d: Data) returns (points: seq<Point>)
    requires d.Valid()
    ensures points == Points(d)
  {
    var generator := new PointGenerator(d);
    points := [];
    for index := 0 to |d.dataset|
      invariant generator.Valid() && generator.data == d && generator.index == index
      invariant points == Points(d)[..index]
    {
      var point := generator.Next();
      points := points + [point.value];
    }
  }

  // ---------------------------------------------------------------------------
  // Facts about the points

  /** Points are spaced exactly `PointDistance` pixels apart, starting at the left margin. */
  lemma XCoordinateFormula(d: Data, i: nat)
    requires d.Valid() && i < |d.dataset|
    ensures PointAt(d, i).xCoordinate == Floor(d.canvasProperties.marginWidth) + i * PointDistance(d)
  {
    FloorShift(d.canvasProperties.marginWidth, i * PointDistance(d));
  }

  lemma PointsEvenlySpaced(d: Data, i: nat, j: nat)
    requires d.Valid() && i <= j < |d.dataset|
    ensures PointAt(d, j).xCoordinate - PointAt(d, i).xCoordinate == (j - i) * PointDistance(d)
  {
    XCoordinateFormula(d, i);
    XCoordinateFormula(d, j);
    assert (j - i) * PointDistance(d) == j * PointDistance(d) - i * PointDistance(d);
  }

  /** `i` steps of `Math.floor(w / n)` stay inside a width `w` when `i < n`. */
  lemma SpacingFits(w: real, n: nat, i: nat)
    requires w > 0.0 && i < n
    ensures var pd := Floor(w / n as real); 0 <= pd && ((i * pd) as real) < w
  {
    var pd := Floor(w / n as real);
    assert 0 <= pd;
    assert pd as real * n as real <= w;
    MulMonotone(i, n - 1, pd);
    assert (i * pd) as real <= (n * pd - pd) as real;
    assert (n * pd) as real == pd as real * n as real;
  }

  /** With a render area of positive width, every point lies within it horizontally. */
  lemma PointsInsideHorizontally(d: Data, i: nat)
    requires Drawable(d) && d.canvasProperties.renderAreaWidth > 0.0 && i < |d.dataset|
    ensures Floor(d.canvasProperties.marginWidth) <= PointAt(d, i).xCoordinate
    ensures (PointAt(d, i).xCoordinate as real) < d.canvasProperties.marginWidth + d.canvasProperties.renderAreaWidth
  {
    GraphProperties.PrimeAdjustedLengthSpec(|d.dataset|);
    SpacingFits(d.canvasProperties.renderAreaWidth, d.graphProperties.primeAdjustedLength, i);
    XCoordinateFormula(d, i);
  }

  /** A larger value is drawn no lower (the y axis points down). */
  lemma YMonotone(d: Data, v: int, w: int)
    requires d.Valid() && d.canvasProperties.renderAreaHeight >= 0.0 && v <= w
    ensures YPosition(d, w) <= YPosition(d, v)
    ensures Floor(YPosition(d, w)) <= Floor(YPosition(d, v))
  {
    var r := RangeScale(d) as real;
    var h := HeightScale(d) as real;
    var a := (v - AdjustedMin(d.graphProperties)) as real;
    var b := (w - AdjustedMin(d.graphProperties)) as real;
    assert h >= 0.0;
    assert a / r <= b / r;
    assert (a / r) * h <= (b / r) * h;
    FloorMonotone(YPosition(d, w), YPosition(d, v));
  }

  /** The adjusted minimum sits on the x axis. */
  lemma AdjustedMinOnXAxis(d: Data)
    requires d.Valid()
    ensures YPosition(d, AdjustedMin(d.graphProperties)) == Bottom(d)
  {
  }

  /** Every value lies between the adjusted minimum and the adjusted minimum plus the adjusted range. */
  lemma OffsetWithinAdjustedRange(d: Data, i: nat)
    requires Drawable(d) && i < |d.dataset|
    ensures var offset := d.dataset[i] - AdjustedMin(d.graphProperties);
      && 0 <= offset <= AdjustedRange(d.graphProperties)
      && (d.graphProperties.range < 2 ==> 4 <= offset <= 6)
  {
    var g := d.graphProperties;
    if g.range < 2 {
      assert g.max - g.min <= 1;
      assert g.min <= Floor(g.average) <= g.max;
    }
  }

  /** No point is drawn below the x axis. */
  lemma PointsNotBelowXAxis(d: Data, i: nat)
    requires Drawable(d) && d.canvasProperties.renderAreaHeight >= 0.0 && i < |d.dataset|
    ensures PointAt(d, i).yCoordinate <= Floor(Bottom(d))
  {
    OffsetWithinAdjustedRange(d, i);
    YMonotone(d, AdjustedMin(d.graphProperties), d.dataset[i]);
    AdjustedMinOnXAxis(d);
  }

  /** An offset within the range, scaled by the two rounded-up factors, drops less than `rh + 10`. */
  lemma ScaledDrop(offset: int, range: int, rh: real)
    requires 0 <= offset <= range && range >= 1 && rh >= 0.0
    ensures var r, h := Ceil(range as real / 10.0), Ceil(rh / 10.0);
      r >= 1 && (offset as real / r as real) * h as real < rh + 10.0
  {
    var r := Ceil(range as real / 10.0) as real;
    var h := Ceil(rh / 10.0) as real;
    assert range as real <= 10.0 * r;
    DivAtMost(offset as real, r, 10.0);
    ScaleMonotone(offset as real / r, 10.0, h);
  }

  /**
   * No point is drawn more than ten pixels above the render area: the value
   * scale rounds up, but so does the height scale.
   */
  lemma PointsNearRenderArea(d: Data, i: nat)
    requires Drawable(d) && d.canvasProperties.renderAreaHeight >= 0.0 && i < |d.dataset|
    ensures PointAt(d, i).yCoordinate >= Floor(d.canvasProperties.marginHeight) - 10
  {
    OffsetWithinAdjustedRange(d, i);
    ValueNearRenderArea(d, d.dataset[i]);
  }

  /** A value within the adjusted range is drawn at most ten pixels above the render area. */
  lemma ValueNearRenderArea(d: Data, v: int)
    requires d.Valid() && d.canvasProperties.renderAreaHeight >= 0.0
    requires 0 <= v - AdjustedMin(d.graphProperties) <= AdjustedRange(d.graphProperties)
    ensures Floor(YPosition(d, v)) >= Floor(d.canvasProperties.marginHeight) - 10
  {
    var offset, range := v - AdjustedMin(d.graphProperties), AdjustedRange(d.graphProperties);
    var margin, rh := d.canvasProperties.marginHeight, d.canvasProperties.renderAreaHeight;
    assert range >= 1;
    YPositionOfTen(d, v);
    NearTop(offset, range, rh, margin);
  }

  /** The bound of `ValueNearRenderArea` on plain numbers. */
  lemma NearTop(offset: int, range: int, rh: real, margin: real)
    requires 0 <= offset <= range && range >= 1 && rh >= 0.0
    ensures Floor(margin + rh - (offset as real / Ceil(range as real / 10.0) as real) * Ceil(rh / 10.0) as real)
            >= Floor(margin) - 10
  {
    ScaledDrop(offset, range, rh);
    BelowDrop(margin, rh, (offset as real / Ceil(range as real / 10.0) as real) * Ceil(rh / 10.0) as real);
  }

  /** The y position written out with the ten steps of the y axis. */
  lemma YPositionOfTen(d: Data, v: int)
    requires d.Valid()
    ensures var cp, offset := d.canvasProperties, v - AdjustedMin(d.graphProperties);
      YPosition(d, v) == cp.marginHeight + cp.renderAreaHeight
                         - (offset as real / Ceil(AdjustedRange(d.graphProperties) as real / 10.0) as real)
                           * Ceil(cp.renderAreaHeight / 10.0) as real
  {
    ScalesOfTen(d);
  }

  /** With ten labels on the y axis, both scales divide by ten. */
  lemma ScalesOfTen(d: Data)
    requires d.Valid()
    ensures RangeScale(d) == Ceil(AdjustedRange(d.graphProperties) as real / 10.0)
    ensures HeightScale(d) == Ceil(d.canvasProperties.renderAreaHeight / 10.0)
  {
    assert d.numberOfLabelsOnYAxis as real == 10.0;
  }

  /** A point dropped less than `rh + 10` from the bottom floors to at most ten above the margin. */
  lemma BelowDrop(margin: real, rh: real, drop: real)
    requires drop < rh + 10.0
    ensures Floor(margin + rh - drop) >= Floor(margin) - 10
  {
    FloorMonotone(margin - 10.0, margin + rh - drop);
    FloorShift(margin, -10);
  }

  // ---------------------------------------------------------------------------
  // Labels along the x axis

  lemma HalvingFloorDecreases(c: real, maxSteps: nat)
    requires maxSteps >= 1 && c > maxSteps as real
    ensures 0 <= (c / 2.0).Floor < c.Floor
  {
    if c < 2.0 {
      assert (c / 2.0).Floor == 0;
    } else {
      assert (c / 2.0).Floor as real <= c / 2.0;
      assert c.Floor as real > c - 1.0;
    }
  }

  /** The label count `calculateLabelCount` arrives at: halve until no more than `maxSteps`. */
  function LabelCount(c: real, maxSteps: nat): (r: real)
    requires c >= 0.0 && maxSteps >= 1
    ensures r <= maxSteps as real
    ensures c > 0.0 ==> r > 0.0
    decreases c.Floor
  {
    if c <= maxSteps as real then c
    else
      HalvingFloorDecreases(c, maxSteps);
      LabelCount(c / 2.0, maxSteps)
  }

  /** How many halvings that takes. */
  function Halvings(c: real, maxSteps: nat): nat
    requires c >= 0.0 && maxSteps >= 1
    decreases c.Floor
  {
    if c <= maxSteps as real then 0
    else
      HalvingFloorDecreases(c, maxSteps);
      Halvings(c / 2.0, maxSteps) + 1
  }

  lemma {:induction false} LabelCountSpec(c: real, maxSteps: nat)
    requires c > 0.0 && maxSteps >= 1
    ensures c <= maxSteps as real ==> LabelCount(c, maxSteps) == c
    ensures c > maxSteps as real ==> LabelCount(c, maxSteps) > maxSteps as real / 2.0
    ensures LabelCount(c, maxSteps) * Pow2(Halvings(c, maxSteps)) as real == c
    decreases c.Floor
  {
    if c > maxSteps as real {
      HalvingFloorDecreases(c, maxSteps);
      LabelCountSpec(c / 2.0, maxSteps);
      var k := Halvings(c / 2.0, maxSteps);
      assert Pow2(k + 1) as real == 2.0 * Pow2(k) as real;
    }
  }

  /** `#calculateLabelCount` */
  method CalculateLabelCount(primeAdjustedLength: nat, maxSteps: nat) returns (count: real)
    requires maxSteps >= 1
    ensures count == LabelCount(primeAdjustedLength as real, maxSteps)
  {
    count := primeAdjustedLength as real;
    while count > maxSteps as real
      invariant count >= 0.0
      invariant LabelCount(count, maxSteps) == LabelCount(primeAdjustedLength as real, maxSteps)
      decreases count.Floor
    {
      HalvingFloorDecreases(count, maxSteps);
      count := count / 2.0;
    }
  }

  /** `Math.max(Math.ceil(dataset.length / numberOfLabelsToDraw), 1)`: indexes per label. */
  function IndexSteps(d: Data, maxSteps: nat): (s: nat)
    requires d.Valid() && maxSteps >= 1
    ensures s >= 1
    ensures s as real >= |d.dataset| as real / LabelCount(d.graphProperties.primeAdjustedLength as real, maxSteps)
  {
    var count := LabelCount(d.graphProperties.primeAdjustedLength as real, maxSteps);
    LabelCountSpec(d.graphProperties.primeAdjustedLength as real, maxSteps);
    Max(Ceil(|d.dataset| as real / count), 1)
  }

  /** A label: the x coordinate it is centred on and the dataset index it reads. */
  datatype XLabel = XLabel(x: int, text: int)

  function XLabelAt(d: Data, index: nat): XLabel
    requires d.Valid() && index < |d.dataset|
  {
    XLabel(PointAt(d, index).xCoordinate, index)
  }

  /** The labels for indexes 0, s, 2s, … up to (but excluding) n·s. */
  function IndexLabels(d: Data, s: nat, n: nat): (labels: seq<XLabel>)
    requires d.Valid() && (n == 0 || (n - 1) * s < |d.dataset|)
    ensures |labels| == n
  {
    if n == 0 then []
    else if n == 1 then [XLabelAt(d, 0)]
    else
      MulMonotone(n - 2, n - 1, s);
      IndexLabels(d, s, n - 1) + [XLabelAt(d, (n - 1) * s)]
  }

  /** Every `IndexSteps`-th index from 0, then the last index once more. */
  function XLabels(d: Data, maxSteps: nat): seq<XLabel>
    requires d.Valid() && maxSteps >= 1
  {
    var s := IndexSteps(d, maxSteps);
    var last := |d.dataset| - 1;
    DivStepBounds(last, s);
    IndexLabels(d, s, last / s + 1) + [XLabelAt(d, last)]
  }

  /** More steps than the label count cannot fit in the dataset. */
  lemma StepsBelowCount(len: nat, count: real, s: nat, k: nat)
    requires count > 0.0 && s as real >= len as real / count && k * s < len
    ensures (k as real) < count
  {
  }

  /** `#getNextLabelToDraw`: take up to `indexStepsToTake` points, stopping at the end. */
  method GetNextLabelToDraw(generator: PointGenerator, indexStepsToTake: nat)
    returns (point: Option<Point>, lastPoint: Option<Point>, pointerOutOfBounds: bool)
    requires generator.Valid()
    modifies generator`index
    ensures generator.Valid()
    ensures var start, len := old(generator.index), |generator.data.dataset|;
      if start + indexStepsToTake <= len then
        && !pointerOutOfBounds && generator.index == start + indexStepsToTake && point == lastPoint
        && (indexStepsToTake == 0 ==> point == None)
        && (indexStepsToTake > 0 ==> point == Some(PointAt(generator.data, start + indexStepsToTake - 1)))
      else
        && pointerOutOfBounds && generator.index == len && point == None
        && lastPoint == (if start < len then Some(PointAt(generator.data, len - 1)) else None)
  {
    ghost var start := generator.index;
    var len := |generator.data.dataset|;
    var skipped := 0;
    point, lastPoint, pointerOutOfBounds := None, None, false;
    while skipped < indexStepsToTake && !pointerOutOfBounds
      invariant generator.Valid() && skipped <= indexStepsToTake
      invariant !pointerOutOfBounds ==>
        && generator.index == start + skipped && point == lastPoint
        && (skipped == 0 ==> point == None)
        && (skipped > 0 ==> point == Some(PointAt(generator.data, start + skipped - 1)))
      invariant pointerOutOfBounds ==>
        && start + skipped > len && generator.index == len && point == None
        && lastPoint == (if start < len then Some(PointAt(generator.data, len - 1)) else None)
    {
      point := generator.Next();
      if point.None? {
        pointerOutOfBounds := true;
      } else {
        lastPoint := point;
      }
      skipped := skipped + 1;
    }
  }

  /**
   * `#drawXAxisLabelsAndVerticalLine`: where each label goes, the dotted line
   * drawn under it and the characters of its text.
   */
  method XAxisLabels(d: Data, maxSteps: nat) returns (labels: seq<XLabel>, lines: seq<Segment>, text: seq<seq<Glyph>>)
    requires d.Valid() && maxSteps >= 1
    ensures labels == XLabels(d, maxSteps)
    ensures lines == DottedLines(d, labels) && text == LabelsText(d, labels)
  {
    var len := |d.dataset|;
    var numberOfLabelsToDraw := CalculateLabelCount(d.graphProperties.primeAdjustedLength, maxSteps);
    LabelCountSpec(d.graphProperties.primeAdjustedLength as real, maxSteps);
    var indexStepsPerLabel := Max(Ceil(len as real / numberOfLabelsToDraw), 1);
    assert indexStepsPerLabel == IndexSteps(d, maxSteps);
    var labelFontSize := LabelFontSize(d);
    var pointGenerator := new PointGenerator(d);
    var lastPoint, pointerOutOfBounds, labelNumber;
    labels, lines, text, lastPoint, pointerOutOfBounds, labelNumber :=
      DrawIndexLabels(pointGenerator, indexStepsPerLabel, numberOfLabelsToDraw, labelFontSize);
    DivIsStepCount(len - 1, indexStepsPerLabel, labelNumber - 1);
    if pointerOutOfBounds {
      var xLabel := XLabel(lastPoint.value.xCoordinate, len - 1);
      DrawnWithLabel(d, labels, xLabel);
      lines := lines + [DottedLine(d, xLabel.x)];
      var glyphs := DrawLabelText(d, xLabel, labelFontSize);
      text := text + [glyphs];
      labels := labels + [xLabel];
    }
  }

  /**
   * The loop of `#drawXAxisLabelsAndVerticalLine`: a label every `s` points
   * while the label count allows and the generator has points left.  It stops
   * having labelled indexes 0, s, …, (n - 1)·s with the last point n·s beyond
   * the end, and with the generator run out.
   */
  method DrawIndexLabels(pointGenerator: PointGenerator, s: nat, numberOfLabelsToDraw: real, labelFontSize: JsValue)
    returns (labels: seq<XLabel>, lines: seq<Segment>, text: seq<seq<Glyph>>,
             lastPoint: Option<Point>, pointerOutOfBounds: bool, labelNumber: nat)
    requires pointGenerator.Valid() && pointGenerator.index == 0 && s >= 1
    requires numberOfLabelsToDraw > 0.0
    requires s as real >= |pointGenerator.data.dataset| as real / numberOfLabelsToDraw
    requires labelFontSize == pointGenerator.data.fontSettings.fontSizeLabel
    modifies pointGenerator`index
    ensures var d, len := pointGenerator.data, |pointGenerator.data.dataset|;
      && labelNumber >= 1 && (labelNumber - 1) * s <= len - 1 < labelNumber * s
      && labels == IndexLabels(d, s, labelNumber)
      && lines == DottedLines(d, labels) && text == LabelsText(d, labels)
      && pointerOutOfBounds && lastPoint == Some(PointAt(d, len - 1))
  {
    var d := pointGenerator.data;
    var len := |d.dataset|;
    var point := pointGenerator.Next();
    lastPoint := None;
    pointerOutOfBounds := false;
    labelNumber := 0;
    labels, lines, text := [], [], [];
    while true
      invariant pointGenerator.Valid() && pointGenerator.data == d
      invariant labelNumber * s < len
      invariant pointGenerator.index == labelNumber * s + 1
      invariant point == Some(PointAt(d, labelNumber * s))
      invariant labelNumber > 0 ==> lastPoint == point
      invariant labels == IndexLabels(d, s, labelNumber)
      invariant lines == DottedLines(d, labels) && text == LabelsText(d, labels)
      decreases len - labelNumber * s
    {
      var xLabel := XLabel(point.value.xCoordinate, labelNumber * s);
      DrawnWithLabel(d, labels, xLabel);
      lines := lines + [DottedLine(d, xLabel.x)];
      var glyphs := DrawLabelText(d, xLabel, labelFontSize);
      text := text + [glyphs];
      labels := labels + [xLabel];
      assert labels == IndexLabels(d, s, labelNumber + 1);
      var nextPoint, nextLast, outOfBounds := GetNextLabelToDraw(pointGenerator, s);
      assert (labelNumber + 1) * s == labelNumber * s + s;
      point := nextPoint;
      lastPoint := if nextLast.Some? then nextLast else lastPoint;
      pointerOutOfBounds := outOfBounds;
      labelNumber := labelNumber + 1;
      if !pointerOutOfBounds {
        StepsBelowCount(len, numberOfLabelsToDraw, s, labelNumber);
      }
      if !(labelNumber as real <= numberOfLabelsToDraw && !pointerOutOfBounds) {
        break;
      }
    }
  }

  /** Each label sits on the point whose index it reads; the first reads 0, the last the last index. */
  lemma {:induction false} XLabelsOnPoints(d: Data, maxSteps: nat)
    requires d.Valid() && maxSteps >= 1
    ensures var labels := XLabels(d, maxSteps);
      && |labels| >= 2
      && labels[0] == XLabelAt(d, 0)
      && labels[|labels| - 1] == XLabelAt(d, |d.dataset| - 1)
      && forall k :: 0 <= k < |labels| ==>
           0 <= labels[k].text < |d.dataset| && labels[k] == XLabelAt(d, labels[k].text)
  {
    var s := IndexSteps(d, maxSteps);
    var last := |d.dataset| - 1;
    DivStepBounds(last, s);
    IndexLabelsOnPoints(d, s, last / s + 1);
  }

  lemma {:induction false} IndexLabelsOnPoints(d: Data, s: nat, n: nat)
    requires d.Valid() && (n == 0 || (n - 1) * s < |d.dataset|)
    ensures forall k :: 0 <= k < n ==>
              k * s < |d.dataset| && IndexLabels(d, s, n)[k] == XLabelAt(d, k * s)
  {
    if n > 0 {
      if n >= 2 {
        MulMonotone(n - 2, n - 1, s);
      }
      IndexLabelsOnPoints(d, s, n - 1);
      forall k | 0 <= k < n
        ensures k * s < |d.dataset|
      {
        MulMonotone(k, n - 1, s);
      }
    }
  }

  /** At most `maxSteps` labels at regular steps, plus the closing label on the last point. */
  lemma XLabelsCount(d: Data, maxSteps: nat)
    requires d.Valid() && maxSteps >= 1
    ensures |XLabels(d, maxSteps)| == (|d.dataset| - 1) / IndexSteps(d, maxSteps) + 2
    ensures |XLabels(d, maxSteps)| <= maxSteps + 1
  {
    var s := IndexSteps(d, maxSteps);
    var len := |d.dataset|;
    var last := len - 1;
    var count := LabelCount(d.graphProperties.primeAdjustedLength as real, maxSteps);
    LabelCountSpec(d.graphProperties.primeAdjustedLength as real, maxSteps);
    assert count > 0.0 && count <= maxSteps as real;
    var k := last / s;
    DivStepBounds(last, s);
    assert k * s < len;
    StepsBelowCount(len, count, s, k);
    assert k < maxSteps;
    assert |XLabels(d, maxSteps)| == |IndexLabels(d, s, k + 1)| + 1;
  }

  // ---------------------------------------------------------------------------
  // Axis lines, dotted lines and the characters of the x labels

  /** A straight line from (x0, y0) to (x1, y1), as `moveTo` and `lineTo` receive it. */
  datatype Segment = Segment(x0: real, y0: real, x1: real, y1: real)

  /** `#drawXAxis`: along the bottom of the render area. */
  function XAxisLine(d: Data): Segment {
    Segment(d.canvasProperties.marginWidth, Bottom(d),
            d.canvasProperties.marginWidth + d.canvasProperties.renderAreaWidth, Bottom(d))
  }

  /** `#drawYAxis`: along the left edge of the render area, from its top down. */
  function YAxisLine(d: Data): Segment {
    Segment(d.canvasProperties.marginWidth, d.canvasProperties.marginHeight,
            d.canvasProperties.marginWidth, Bottom(d))
  }

  /** `#drawDottedVerticalLine`: from the bottom of the render area up to its top, at x. */
  function DottedLine(d: Data, x: int): Segment {
    Segment(x as real, Bottom(d), x as real, d.canvasProperties.marginHeight)
  }

  /** The dotted lines drawn with the given labels, one under each. */
  function DottedLines(d: Data, labels: seq<XLabel>): (lines: seq<Segment>)
    ensures |lines| == |labels|
  {
    seq(|labels|, i requires 0 <= i < |labels| => DottedLine(d, labels[i].x))
  }

  /** `parseInt(fontSettings.label, 10)`: the label size read back from the shorthand. */
  method LabelFontSize(d: Data) returns (labelFontSize: JsValue)
    requires d.Valid()
    ensures labelFontSize == d.fontSettings.fontSizeLabel
  {
    FontSettings.SizesReadBack(d.fontSettings);
    labelFontSize := ParseInt(d.fontSettings.Label());
  }

  /**
   * The top of the x labels: `Math.ceil(labelFontSize / 2)` below the x axis,
   * or `None` where that is NaN.  `labelFontSize` is the label size, as
   * `LabelFontSize` shows.
   */
  function XLabelRow(d: Data): (y: Option<real>)
    requires d.Valid()
    ensures y.Some? <==> d.fontSettings.fontSizeLabel.Num?
    ensures y.Some? ==>
      var half := d.fontSettings.fontSizeLabel.n as real / 2.0;
      Bottom(d) + half <= y.value < Bottom(d) + half + 1.0
  {
    var labelFontSize := d.fontSettings.fontSizeLabel;
    if labelFontSize.Num? then Some(Bottom(d) + Ceil(labelFontSize.n as real / 2.0) as real) else None
  }

  /** One `fillText` of a label character: the character, its centre x and its top y (`None` for NaN). */
  datatype Glyph = Glyph(character: char, x: int, y: Option<real>)

  /** Where the k-th character of an x label goes: `y + k * labelFontSize` on the label row. */
  function GlyphTop(d: Data, k: nat): Option<real>
    requires d.Valid()
  {
    var row := XLabelRow(d);
    if row.Some? then Some(row.value + (k * d.fontSettings.fontSizeLabel.n) as real) else None
  }

  /** The characters of a label's text, each centred on the label's x. */
  function LabelGlyphs(d: Data, xLabel: XLabel): seq<Glyph>
    requires d.Valid()
  {
    var text := NumberToString(Num(xLabel.text));
    seq(|text|, k requires 0 <= k < |text| => Glyph(text[k], xLabel.x, GlyphTop(d, k)))
  }

  /** The characters of each label, label by label. */
  function LabelsText(d: Data, labels: seq<XLabel>): (text: seq<seq<Glyph>>)
    requires d.Valid()
    ensures |text| == |labels|
  {
    seq(|labels|, i requires 0 <= i < |labels| => LabelGlyphs(d, labels[i]))
  }

  /** The inner loop of `#drawXAxisLabelsAndVerticalLine`: one `fillText` per character of the label. */
  method DrawLabelText(d: Data, xLabel: XLabel, labelFontSize: JsValue) returns (glyphs: seq<Glyph>)
    requires d.Valid() && labelFontSize == d.fontSettings.fontSizeLabel
    ensures glyphs == LabelGlyphs(d, xLabel)
  {
    var text := NumberToString(Num(xLabel.text));
    var y := XLabelRow(d);
    ghost var all := LabelGlyphs(d, xLabel);
    glyphs := [];
    for character := 0 to |text|
      invariant glyphs == all[..character]
    {
      var top := if y.Some? then Some(y.value + (character * labelFontSize.n) as real) else None;
      glyphs := glyphs + [Glyph(text[character], xLabel.x, top)];
    }
  }

  /** Drawing one more label adds its dotted line and its characters at the end. */
  lemma DrawnWithLabel(d: Data, labels: seq<XLabel>, xLabel: XLabel)
    requires d.Valid()
    ensures DottedLines(d, labels + [xLabel]) == DottedLines(d, labels) + [DottedLine(d, xLabel.x)]
    ensures LabelsText(d, labels + [xLabel]) == LabelsText(d, labels) + [LabelGlyphs(d, xLabel)]
  {
    assert forall i :: 0 <= i < |labels| ==> (labels + [xLabel])[i] == labels[i];
  }

  /** The axes meet at the bottom-left corner of the render area and span its width and height. */
  lemma AxesFrameRenderArea(d: Data)
    ensures XAxisLine(d).x0 == YAxisLine(d).x1 && XAxisLine(d).y0 == YAxisLine(d).y1
    ensures XAxisLine(d).y1 == XAxisLine(d).y0
    ensures XAxisLine(d).x1 - XAxisLine(d).x0 == d.canvasProperties.renderAreaWidth
    ensures YAxisLine(d).x1 == YAxisLine(d).x0
    ensures YAxisLine(d).y1 - YAxisLine(d).y0 == d.canvasProperties.renderAreaHeight
  {
  }

  /**
   * Each dotted line stands on its label's x, runs up from the x axis to the
   * top of the y axis, and rises from within the x axis's span (down to the
   * rounding of the left margin).
   */
  lemma DottedLinesAcrossRenderArea(d: Data, maxSteps: nat)
    requires Drawable(d) && maxSteps >= 1 && d.canvasProperties.renderAreaWidth > 0.0
    ensures var labels := XLabels(d, maxSteps); var lines := DottedLines(d, labels);
      forall i :: 0 <= i < |lines| ==>
        && lines[i].x0 == lines[i].x1 == labels[i].x as real
        && lines[i].y0 == XAxisLine(d).y0 && lines[i].y1 == YAxisLine(d).y0
        && XAxisLine(d).x0 - 1.0 < lines[i].x0 < XAxisLine(d).x1
  {
    var labels := XLabels(d, maxSteps);
    XLabelsOnPoints(d, maxSteps);
    forall i | 0 <= i < |labels|
      ensures XAxisLine(d).x0 - 1.0 < labels[i].x as real < XAxisLine(d).x1
    {
      PointsInsideHorizontally(d, labels[i].text);
    }
  }

  /**
   * A label's characters spell its text, centred on its x, in a column one
   * label size apart that starts on the label row, below the x axis.
   */
  lemma LabelTextStacked(d: Data, xLabel: XLabel)
    requires d.Valid()
    ensures var glyphs, text := LabelGlyphs(d, xLabel), NumberToString(Num(xLabel.text));
      && |glyphs| == |text|
      && (forall k :: 0 <= k < |glyphs| ==> glyphs[k].character == text[k] && glyphs[k].x == xLabel.x)
      && (forall k :: 0 <= k < |glyphs| ==> (glyphs[k].y.Some? <==> d.fontSettings.fontSizeLabel.Num?))
      && (d.fontSettings.fontSizeLabel.Num? ==>
            var size := d.fontSettings.fontSizeLabel.n as real;
            && glyphs[0].y == XLabelRow(d)
            && (forall k :: 0 <= k < |glyphs| - 1 ==> glyphs[k + 1].y.value - glyphs[k].y.value == size)
            && (forall k :: 0 <= k < |glyphs| ==> glyphs[k].y.value >= Bottom(d) + size / 2.0))
  {
    var glyphs := LabelGlyphs(d, xLabel);
    if d.fontSettings.fontSizeLabel.Num? {
      var size := d.fontSettings.fontSizeLabel.n;
      forall k | 0 <= k < |glyphs| - 1
        ensures glyphs[k + 1].y.value - glyphs[k].y.value == size as real
      {
        assert (k + 1) * size == k * size + size;
      }
      forall k | 0 <= k < |glyphs|
        ensures glyphs[k].y.value >= Bottom(d) + size as real / 2.0
      {
        MulMonotone(0, k, size);
      }
    }
  }

  // ---------------------------------------------------------------------------
  // Axis titles

  /** `parseInt(fontSettings.title, 10)`: the title size read back from the shorthand. */
  method TitleFontSize(d: Data) returns (titleFontSize: JsValue)
    requires d.Valid()
    ensures titleFontSize == d.fontSettings.fontSizeTitle
  {
    FontSettings.SizesReadBack(d.fontSettings);
    titleFontSize := ParseInt(d.fontSettings.Title());
  }

  /**
   * Where the x title goes: below the x axis by three title sizes, or `None`
   * where that is NaN.  Its x needs the measured width of the title text.
   */
  function XTitleY(d: Data): (y: Option<real>)
    requires d.Valid()
    ensures y.Some? <==> d.fontSettings.fontSizeTitle.Num?
    ensures y.Some? ==> y.value - XAxisLine(d).y0 == 3.0 * d.fontSettings.fontSizeTitle.n as real
  {
    var size := d.fontSettings.fontSizeTitle;
    if size.Num? then Some(Bottom(d) + (size.n * 3) as real) else None
  }

  /** `#drawXAxisTitle`: the y the canvas is translated to before the title is drawn. */
  method XAxisTitle(d: Data) returns (y: Option<real>)
    requires d.Valid()
    ensures y == XTitleY(d)
  {
    var titleFontSize := TitleFontSize(d);
    y := if titleFontSize.Num? then
      Some(d.canvasProperties.marginHeight + d.canvasProperties.renderAreaHeight + (titleFontSize.n * 3) as real)
    else None;
  }

  /**
   * Where the y title goes: left of the y axis by three title sizes, level
   * with its middle, or `None` where x is NaN.
   */
  function YTitleAt(d: Data): (p: Option<(real, real)>)
    requires d.Valid()
    ensures p.Some? <==> d.fontSettings.fontSizeTitle.Num?
    ensures p.Some? ==>
      && YAxisLine(d).x0 - p.value.0 == 3.0 * d.fontSettings.fontSizeTitle.n as real
      && p.value.1 - YAxisLine(d).y0 == YAxisLine(d).y1 - p.value.1
  {
    var size := d.fontSettings.fontSizeTitle;
    if size.Num? then
      Some((d.canvasProperties.marginWidth - (size.n * 3) as real,
            d.canvasProperties.marginHeight + d.canvasProperties.renderAreaHeight / 2.0))
    else None
  }

  /** `#drawYAxisTitle`: the point the canvas is translated to before it is rotated and the title drawn. */
  method YAxisTitle(d: Data) returns (p: Option<(real, real)>)
    requires d.Valid()
    ensures p == YTitleAt(d)
  {
    var titleFontSize := TitleFontSize(d);
    p := if titleFontSize.Num? then
      Some((d.canvasProperties.marginWidth - (titleFontSize.n * 3) as real,
            d.canvasProperties.marginHeight + d.canvasProperties.renderAreaHeight / 2.0))
    else None;
  }

  /** The y title is level with the middle one of the eleven y labels. */
  lemma YTitleLevelWithMiddleLabel(d: Data)
    requires d.Valid() && d.fontSettings.fontSizeTitle.Num?
    ensures |YLabels(d)| == 11 && YTitleAt(d).value.1 == YLabels(d)[5].y
  {
    assert YLabels(d)[5] == YLabelAt(d, 5);
  }

  // ---------------------------------------------------------------------------
  // Labels along the y axis and the zero line

  /** A y-axis label: its right edge, its vertical centre and the value it shows. */
  datatype YLabel = YLabel(x: real, y: real, text: int)

  const AxisToLabelMargin := 5

  function YLabelAt(d: Data, labelNumber: nat): YLabel
    requires d.Valid()
  {
    var n := d.numberOfLabelsOnYAxis;
    var y := Bottom(d) - labelNumber as real / n as real * d.canvasProperties.renderAreaHeight;
    YLabel(d.canvasProperties.marginWidth - AxisToLabelMargin as real, y,
           AdjustedMin(d.graphProperties) + labelNumber * RangeScale(d))
  }

  function YLabels(d: Data): seq<YLabel>
    requires d.Valid()
  {
    seq(d.numberOfLabelsOnYAxis + 1, k requires 0 <= k <= d.numberOfLabelsOnYAxis => YLabelAt(d, k))
  }

  /** `#drawYAxisLabels` */
  method YAxisLabels(d: Data) returns (labels: seq<YLabel>)
    requires d.Valid()
    ensures labels == YLabels(d)
  {
    var totalNrOfLabels := d.numberOfLabelsOnYAxis;
    labels := [];
    for labelNumber := 0 to totalNrOfLabels + 1
      invariant labels == YLabels(d)[..labelNumber]
    {
      var x := d.canvasProperties.marginWidth - AxisToLabelMargin as real;
      var bottomOfGraph := d.canvasProperties.marginHeight + d.canvasProperties.renderAreaHeight;
      var y := bottomOfGraph - labelNumber as real / totalNrOfLabels as real * d.canvasProperties.renderAreaHeight;
      var rangeToHeightRatio := Ceil(AdjustedRange(d.graphProperties) as real / totalNrOfLabels as real);
      var next := YLabel(x, y, AdjustedMin(d.graphProperties) + labelNumber * rangeToHeightRatio);
      assert next == YLabelAt(d, labelNumber);
      assert YLabels(d)[..labelNumber + 1] == YLabels(d)[..labelNumber] + [next];
      labels := labels + [next];
    }
  }

  /** The eleven labels run from the x axis to the top of the render area and cover the whole dataset. */
  lemma YLabelsSpan(d: Data)
    requires Drawable(d)
    ensures |YLabels(d)| == 11
    ensures YLabels(d)[0].y == Bottom(d) && YLabels(d)[10].y == d.canvasProperties.marginHeight
    ensures YLabels(d)[0].text <= d.graphProperties.min
    ensures YLabels(d)[10].text >= d.graphProperties.max
  {
    var g := d.graphProperties;
    var r := RangeScale(d);
    assert YLabels(d)[0] == YLabelAt(d, 0) && YLabels(d)[10] == YLabelAt(d, 10);
    assert AdjustedRange(g) as real <= 10.0 * r as real;
    if g.range < 2 {
      assert g.max - g.min <= 1;
      assert g.min <= Floor(g.average);
    }
  }

  /** Neighbouring labels are an equal distance apart and their values differ by the value scale. */
  lemma YLabelsEvenlySpaced(d: Data, k: nat)
    requires d.Valid() && k < 10
    ensures YLabels(d)[k + 1].text - YLabels(d)[k].text == RangeScale(d)
    ensures YLabels(d)[k].y - YLabels(d)[k + 1].y == d.canvasProperties.renderAreaHeight / 10.0
  {
    assert YLabels(d)[k] == YLabelAt(d, k) && YLabels(d)[k + 1] == YLabelAt(d, k + 1);
    assert (k + 1) * RangeScale(d) == k * RangeScale(d) + RangeScale(d);
  }

  /**
   * The value a label shows is drawn at the label's height only when the
   * render height is a multiple of ten: points use the rounded-up pixel step,
   * labels the exact one.
   */
  lemma LabelValueHeight(d: Data, k: nat)
    requires d.Valid() && k <= 10
    ensures YPosition(d, YLabels(d)[k].text) == Bottom(d) - (k * HeightScale(d)) as real
    ensures YLabels(d)[k].y == Bottom(d) - k as real * (d.canvasProperties.renderAreaHeight / 10.0)
  {
    var r := RangeScale(d) as real;
    assert ((k * RangeScale(d)) as real / r) == k as real;
  }

  /** `#drawZeroLineIfInRange`: the y coordinate of the zero line, if the data straddles zero. */
  function ZeroLine(d: Data): (y: Option<real>)
    requires d.Valid()
    ensures y.Some? <==> d.graphProperties.min < D.NonMagicZero && d.graphProperties.max > 0
  {
    var g := d.graphProperties;
    var mathematicalZero := 0;
    if g.min < D.NonMagicZero && g.max > mathematicalZero then
      var heightStep := Ceil(g.range as real / d.numberOfLabelsOnYAxis as real);
      Some(Bottom(d) - (mathematicalZero - g.min) as real / heightStep as real
                       * (d.canvasProperties.renderAreaHeight / d.numberOfLabelsOnYAxis as real))
    else None
  }

  /** When drawn, the zero line lies strictly inside a render area of positive height. */
  lemma ZeroLineInside(d: Data)
    requires d.Valid() && ZeroLine(d).Some? && d.canvasProperties.renderAreaHeight > 0.0
    ensures d.canvasProperties.marginHeight < ZeroLine(d).value < Bottom(d)
  {
    var g := d.graphProperties;
    var step := Ceil(g.range as real / 10.0) as real;
    var rh := d.canvasProperties.renderAreaHeight;
    var depth := (0 - g.min) as real;
    assert g.range == g.max - g.min;
    assert 0.0 < depth < g.range as real <= 10.0 * step;
    DivBelow(depth, step, 10.0);
    assert depth / step * (rh / 10.0) < 10.0 * (rh / 10.0);
    assert depth / step * (rh / 10.0) > 0.0;
  }

  /**
   * For integer data the zero line is drawn only when the range is at least 2,
   * so the flat-data substitution is never in force then: the line uses the
   * true minimum and range, and lies where the y-axis labels' scale puts 0.
   */
  lemma ZeroLineUnadjusted(d: Data)
    requires d.Valid() && ZeroLine(d).Some?
    ensures d.graphProperties.range >= 2
    ensures AdjustedMin(d.graphProperties) == d.graphProperties.min
    ensures AdjustedRange(d.graphProperties) == d.graphProperties.range
    ensures ZeroLine(d).value ==
              Bottom(d) - (0 - AdjustedMin(d.graphProperties)) as real / RangeScale(d) as real
                          * (d.canvasProperties.renderAreaHeight / 10.0)
  {
    var g := d.graphProperties;
    assert g.range == g.max - g.min;
  }
}
