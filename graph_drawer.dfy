/**
 * The custom element: its settings, the setters that validate and merge
 * partial updates into them, the getters that hand out copies, and the
 * rendering of a dataset into the coordinates and texts the canvas is given.
 * The shadow DOM and the canvas calls are not modelled; the container's
 * style size is kept as two fields.
 */
module GraphDrawer {
  import opened Strings
  import opened Js
  import FontSettings
  import ColorSettings
  import AxisTitles
  import CanvasProperties
  import GraphProperties
  import D = GraphAndCanvasData
  import Layout
  import W = WidgetValidation

  // ---------------------------------------------------------------- merging colour requests

  /** The seven colour properties of the settings. */
  datatype ColorProperty =
    GraphLineColor | GraphDotColor | ZeroLineColor | AxisColor | LabelColor | TitleColor | BackgroundColor

  /** The property's name in a request object. */
  function PropertyName(p: ColorProperty): string {
    match p
    case GraphLineColor => "graphLineColor"
    case GraphDotColor => "graphDotColor"
    case ZeroLineColor => "zeroLineColor"
    case AxisColor => "axisColor"
    case LabelColor => "labelColor"
    case TitleColor => "titleColor"
    case BackgroundColor => "backgroundColor"
  }

  /** The colour property a request key names, if any. */
  function PropertyNamed(key: string): (p: Option<ColorProperty>)
    ensures p.Some? <==> key in W.ColorPropertyNames
    ensures p.Some? ==> PropertyName(p.value) == key
  {
    if key == "graphLineColor" then Some(GraphLineColor)
    else if key == "graphDotColor" then Some(GraphDotColor)
    else if key == "zeroLineColor" then Some(ZeroLineColor)
    else if key == "axisColor" then Some(AxisColor)
    else if key == "labelColor" then Some(LabelColor)
    else if key == "titleColor" then Some(TitleColor)
    else if key == "backgroundColor" then Some(BackgroundColor)
    else None
  }

  /** Reading a property's name back gives the property. */
  lemma PropertyNameReadsBack(p: ColorProperty)
    ensures PropertyNamed(PropertyName(p)) == Some(p)
  {
    match p
    case GraphLineColor =>
    case GraphDotColor =>
    case ZeroLineColor =>
    case AxisColor =>
    case LabelColor =>
    case TitleColor =>
    case BackgroundColor =>
  }

  /** The colour a settings value holds for a property. */
  function ColorField(c: ColorSettings.ColorSettings, p: ColorProperty): string {
    match p
    case GraphLineColor => c.graphLineColor
    case GraphDotColor => c.graphDotColor
    case ZeroLineColor => c.zeroLineColor
    case AxisColor => c.axisColor
    case LabelColor => c.labelColor
    case TitleColor => c.titleColor
    case BackgroundColor => c.backgroundColor
  }

  /**
   * The `previousColors` object of `setColors`: the current colours by property.
   * A request key that names no colour property would add a property to that
   * object which the call to the constructor never reads, so it is not kept.
   */
  function ColorMap(c: ColorSettings.ColorSettings): map<ColorProperty, JsValue> {
    map[GraphLineColor := Str(c.graphLineColor), GraphDotColor := Str(c.graphDotColor),
        ZeroLineColor := Str(c.zeroLineColor), AxisColor := Str(c.axisColor),
        LabelColor := Str(c.labelColor), TitleColor := Str(c.titleColor),
        BackgroundColor := Str(c.backgroundColor)]
  }

  lemma ColorMapAt(c: ColorSettings.ColorSettings, p: ColorProperty)
    ensures p in ColorMap(c) && ColorMap(c)[p] == Str(ColorField(c, p))
    ensures c.Valid() ==> ColorSettings.IsValidColor(ColorField(c, p))
  {
    match p
    case GraphLineColor =>
    case GraphDotColor =>
    case ZeroLineColor =>
    case AxisColor =>
    case LabelColor =>
    case TitleColor =>
    case BackgroundColor =>
  }

  /** `Object.keys(request)[0]`, which becomes the key "undefined" for an object without keys. */
  function FirstKey(request: JsValue): string
    requires request.Obj?
  {
    if |request.props| > 0 then request.props[0].0 else "undefined"
  }

  predicate AllObjects(requests: seq<JsValue>) {
    forall i :: 0 <= i < |requests| ==> requests[i].Obj?
  }

  /** The loop of `setColors`: each request writes its first key's value into the object. */
  function ApplyColorRequests(m: map<ColorProperty, JsValue>, requests: seq<JsValue>): (r: map<ColorProperty, JsValue>)
    requires AllObjects(requests)
    ensures m.Keys <= r.Keys
  {
    if |requests| == 0 then m
    else
      var before := ApplyColorRequests(m, requests[..|requests| - 1]);
      var request := requests[|requests| - 1];
      var key := FirstKey(request);
      match PropertyNamed(key)
      case Some(p) => before[p := Get(request, key)]
      case None => before
  }

  /** The value of the last request whose first key names `p`, or `fallback` when there is none. */
  function RequestedValue(requests: seq<JsValue>, p: ColorProperty, fallback: JsValue): JsValue
    requires AllObjects(requests)
  {
    if |requests| == 0 then fallback
    else
      var request := requests[|requests| - 1];
      if PropertyNamed(FirstKey(request)) == Some(p) then Get(request, FirstKey(request))
      else RequestedValue(requests[..|requests| - 1], p, fallback)
  }

  /** Per property, the merged object holds the value of the last request for it, or the value before. */
  lemma {:induction false} ApplyColorRequestsAt(m: map<ColorProperty, JsValue>, requests: seq<JsValue>, p: ColorProperty)
    requires AllObjects(requests) && p in m
    ensures ApplyColorRequests(m, requests)[p] == RequestedValue(requests, p, m[p])
  {
    if |requests| > 0 {
      var init := requests[..|requests| - 1];
      assert AllObjects(init) by {
        assert forall i :: 0 <= i < |init| ==> init[i] == requests[i];
      }
      ApplyColorRequestsAt(m, init, p);
    }
  }

  /**
   * What a passing check guarantees about each request: an object whose values
   * are all palette colours.  Its property names are never checked.
   */
  predicate ColorRequestsAccepted(requests: seq<JsValue>) {
    forall i :: 0 <= i < |requests| ==>
      && requests[i].Obj?
      && W.PaletteValues(requests[i], ColorSettings.ValidColors)
  }

  /** The check `setColors` runs accepts a non-empty array of such requests. */
  lemma AcceptedRequests(requests: JsValue)
    requires W.ColorSettingsCheckAsWritten(requests).Success?
    ensures requests.Arr? && |requests.elems| >= 1 && ColorRequestsAccepted(requests.elems)
  {
    W.ColorSettingsCheckAsWrittenMeaning(requests);
  }

  /** Each of the seven properties holds a palette colour. */
  predicate PaletteMap(m: map<ColorProperty, JsValue>) {
    forall p :: p in m && m[p].Str? && ColorSettings.IsValidColor(m[p].s)
  }

  lemma ColorMapPalette(c: ColorSettings.ColorSettings)
    requires c.Valid()
    ensures PaletteMap(ColorMap(c))
  {
    forall p: ColorProperty
      ensures p in ColorMap(c) && ColorMap(c)[p].Str? && ColorSettings.IsValidColor(ColorMap(c)[p].s)
    {
      ColorMapAt(c, p);
    }
  }

  /** An accepted request whose first key names a colour property carries a palette colour under it. */
  lemma AcceptedRequestWrites(request: JsValue)
    requires request.Obj? && W.PaletteValues(request, ColorSettings.ValidColors)
    ensures PropertyNamed(FirstKey(request)).Some? ==>
              Get(request, FirstKey(request)).Str? && ColorSettings.IsValidColor(Get(request, FirstKey(request)).s)
  {
    if |request.props| > 0 {
      assert Get(request, FirstKey(request)) == request.props[0].1;
    }
  }

  lemma {:induction false} ApplyColorRequestsKeepsPalette(m: map<ColorProperty, JsValue>, requests: seq<JsValue>)
    requires PaletteMap(m) && ColorRequestsAccepted(requests)
    ensures AllObjects(requests) && PaletteMap(ApplyColorRequests(m, requests))
  {
    if |requests| > 0 {
      var init := requests[..|requests| - 1];
      assert ColorRequestsAccepted(init) by {
        assert forall i :: 0 <= i < |init| ==> init[i] == requests[i];
      }
      ApplyColorRequestsKeepsPalette(m, init);
      AcceptedRequestWrites(requests[|requests| - 1]);
    }
  }

  /** The settings holding the merged object's seven colours. */
  function ColorsFrom(m: map<ColorProperty, JsValue>): (c: ColorSettings.ColorSettings)
    requires PaletteMap(m)
    ensures c.Valid()
  {
    ColorSettings.ColorSettings(m[GraphLineColor].s, m[GraphDotColor].s, m[ZeroLineColor].s, m[AxisColor].s,
                                m[LabelColor].s, m[TitleColor].s, m[BackgroundColor].s)
  }

  /** `new ColorSettings(...)` of the merged object's seven values builds exactly those settings. */
  lemma ColorsFromCreated(m: map<ColorProperty, JsValue>)
    requires PaletteMap(m)
    ensures ColorSettings.Create(m[GraphLineColor], m[GraphDotColor], m[ZeroLineColor], m[AxisColor],
                                 m[LabelColor], m[TitleColor], m[BackgroundColor]) == Success(ColorsFrom(m))
  {
    ColorSettings.CopyIsIdentity(ColorsFrom(m));
  }

  /** Each colour of the new settings is the merged object's value for that property. */
  lemma ColorsFromField(m: map<ColorProperty, JsValue>, p: ColorProperty)
    requires PaletteMap(m)
    ensures Str(ColorField(ColorsFrom(m), p)) == m[p]
  {
    match p
    case GraphLineColor =>
    case GraphDotColor =>
    case ZeroLineColor =>
    case AxisColor =>
    case LabelColor =>
    case TitleColor =>
    case BackgroundColor =>
  }

  /** The colours after `setColors(requests)` on settings `c`. */
  function ColorsAfter(c: ColorSettings.ColorSettings, requests: seq<JsValue>): ColorSettings.ColorSettings
    requires c.Valid() && ColorRequestsAccepted(requests)
  {
    var m := ColorMap(c);
    ColorMapPalette(c);
    ApplyColorRequestsKeepsPalette(m, requests);
    ColorsFrom(ApplyColorRequests(m, requests))
  }

  /** The merged object's settings are the colours after the update. */
  lemma MergedColors(c: ColorSettings.ColorSettings, requests: seq<JsValue>, m: map<ColorProperty, JsValue>)
    requires c.Valid() && ColorRequestsAccepted(requests)
    requires AllObjects(requests) && m == ApplyColorRequests(ColorMap(c), requests)
    ensures PaletteMap(m) && ColorsFrom(m) == ColorsAfter(c, requests)
  {
    ColorMapPalette(c);
    ApplyColorRequestsKeepsPalette(ColorMap(c), requests);
  }

  /** Each colour after the update is the one the last request for that property named, or the colour before. */
  lemma ColorsAfterField(c: ColorSettings.ColorSettings, requests: seq<JsValue>, p: ColorProperty)
    requires c.Valid() && ColorRequestsAccepted(requests)
    ensures AllObjects(requests)
    ensures Str(ColorField(ColorsAfter(c, requests), p)) == RequestedValue(requests, p, Str(ColorField(c, p)))
  {
    var m := ColorMap(c);
    ColorMapPalette(c);
    ColorMapAt(c, p);
    ApplyColorRequestsKeepsPalette(m, requests);
    ApplyColorRequestsAt(m, requests, p);
    ColorsFromField(ApplyColorRequests(m, requests), p);
  }

  lemma {:induction false} RequestedValueUnmentioned(requests: seq<JsValue>, p: ColorProperty, fallback: JsValue)
    requires AllObjects(requests)
    requires forall i :: 0 <= i < |requests| ==> FirstKey(requests[i]) != PropertyName(p)
    ensures RequestedValue(requests, p, fallback) == fallback
  {
    if |requests| > 0 {
      var init := requests[..|requests| - 1];
      assert forall i :: 0 <= i < |init| ==> init[i] == requests[i];
      RequestedValueUnmentioned(init, p, fallback);
    }
  }

  lemma {:induction false} RequestedValueLast(requests: seq<JsValue>, p: ColorProperty, fallback: JsValue, i: nat)
    requires AllObjects(requests) && i < |requests| && FirstKey(requests[i]) == PropertyName(p)
    requires forall j :: i < j < |requests| ==> FirstKey(requests[j]) != PropertyName(p)
    ensures RequestedValue(requests, p, fallback) == Get(requests[i], PropertyName(p))
    decreases |requests|
  {
    PropertyNameReadsBack(p);
    if i < |requests| - 1 {
      var init := requests[..|requests| - 1];
      assert forall k :: 0 <= k < |init| ==> init[k] == requests[k];
      RequestedValueLast(init, p, fallback, i);
    }
  }

  /** A colour no request names keeps its value. */
  lemma UnmentionedColorKept(c: ColorSettings.ColorSettings, requests: seq<JsValue>, p: ColorProperty)
    requires c.Valid() && ColorRequestsAccepted(requests)
    requires forall i :: 0 <= i < |requests| ==> requests[i].Obj? && FirstKey(requests[i]) != PropertyName(p)
    ensures ColorField(ColorsAfter(c, requests), p) == ColorField(c, p)
  {
    ColorsAfterField(c, requests, p);
    RequestedValueUnmentioned(requests, p, Str(ColorField(c, p)));
  }

  /** The last request for a colour decides it. */
  lemma LastColorRequestWins(c: ColorSettings.ColorSettings, requests: seq<JsValue>, p: ColorProperty, i: nat)
    requires c.Valid() && ColorRequestsAccepted(requests)
    requires i < |requests| && requests[i].Obj? && FirstKey(requests[i]) == PropertyName(p)
    requires forall j :: i < j < |requests| ==> requests[j].Obj? && FirstKey(requests[j]) != PropertyName(p)
    ensures Str(ColorField(ColorsAfter(c, requests), p)) == Get(requests[i], PropertyName(p))
  {
    ColorsAfterField(c, requests, p);
    RequestedValueLast(requests, p, Str(ColorField(c, p)), i);
  }

  /** One request: a property its first key names takes that key's value, every other keeps its colour. */
  lemma SingleRequestField(c: ColorSettings.ColorSettings, request: JsValue, p: ColorProperty)
    requires c.Valid() && ColorRequestsAccepted([request])
    ensures ColorField(ColorsAfter(c, [request]), p) ==
              if PropertyNamed(FirstKey(request)) == Some(p) then Get(request, FirstKey(request)).s else ColorField(c, p)
  {
    ColorsAfterField(c, [request], p);
    assert [request][..0] == [];
  }

  /** Two colour settings that agree on every property are the same. */
  lemma ColorsEqualByField(a: ColorSettings.ColorSettings, b: ColorSettings.ColorSettings)
    requires forall p :: ColorField(a, p) == ColorField(b, p)
    ensures a == b
  {
    assert ColorField(a, GraphLineColor) == ColorField(b, GraphLineColor);
    assert ColorField(a, GraphDotColor) == ColorField(b, GraphDotColor);
    assert ColorField(a, ZeroLineColor) == ColorField(b, ZeroLineColor);
    assert ColorField(a, AxisColor) == ColorField(b, AxisColor);
    assert ColorField(a, LabelColor) == ColorField(b, LabelColor);
    assert ColorField(a, TitleColor) == ColorField(b, TitleColor);
    assert ColorField(a, BackgroundColor) == ColorField(b, BackgroundColor);
  }

  /** Requests whose first keys name no colour property change nothing, however many there are. */
  lemma UnnamedRequestsIgnored(c: ColorSettings.ColorSettings, requests: seq<JsValue>)
    requires c.Valid() && ColorRequestsAccepted(requests)
    requires forall i :: 0 <= i < |requests| ==> requests[i].Obj? && PropertyNamed(FirstKey(requests[i])).None?
    ensures ColorsAfter(c, requests) == c
  {
    var after := ColorsAfter(c, requests);
    forall p: ColorProperty
      ensures ColorField(after, p) == ColorField(c, p)
    {
      PropertyNameReadsBack(p);
      UnmentionedColorKept(c, requests, p);
    }
    ColorsEqualByField(after, c);
  }

  /**
   * When the line colour is the only property the requests name, and the last
   * request names it, its value becomes the line colour and nothing else changes.
   */
  lemma LastLineColorRequest(c: ColorSettings.ColorSettings, requests: seq<JsValue>, color: string)
    requires c.Valid() && ColorRequestsAccepted(requests) && |requests| > 0
    requires forall i :: 0 <= i < |requests| ==>
               requests[i].Obj? && PropertyNamed(FirstKey(requests[i])) in {None, Some(GraphLineColor)}
    requires PropertyNamed(FirstKey(requests[|requests| - 1])) == Some(GraphLineColor)
    requires Get(requests[|requests| - 1], FirstKey(requests[|requests| - 1])) == Str(color)
    ensures ColorsAfter(c, requests) == c.(graphLineColor := color)
  {
    var after := ColorsAfter(c, requests);
    LastColorRequestWins(c, requests, GraphLineColor, |requests| - 1);
    forall p: ColorProperty | p != GraphLineColor
      ensures ColorField(after, p) == ColorField(c, p)
    {
      PropertyNameReadsBack(p);
      UnmentionedColorKept(c, requests, p);
    }
    ColorsEqualByField(after, c.(graphLineColor := color));
  }

  /**
   * A request whose only property is not a colour property, such as
   * `[{foo: 'red'}]`, is accepted (as `WidgetValidation.UnknownColorPropertyAccepted`
   * shows of the check) and leaves every colour as it was.
   */
  lemma UnknownPropertyIgnored(c: ColorSettings.ColorSettings, key: string, color: string)
    requires c.Valid() && key !in W.ColorPropertyNames && ColorSettings.IsValidColor(color)
    ensures ColorRequestsAccepted([Obj([(key, Str(color))])])
    ensures ColorsAfter(c, [Obj([(key, Str(color))])]) == c
  {
    var request := Obj([(key, Str(color))]);
    assert W.PaletteValues(request, ColorSettings.ValidColors);
    assert ColorRequestsAccepted([request]);
    assert PropertyNamed(FirstKey(request)).None?;
    UnnamedRequestsIgnored(c, [request]);
  }

  /**
   * Only a request's first property is read: `[{graphLineColor: 'red', foo: 'blue'}]`
   * sets the line colour to red and keeps every other colour.
   */
  lemma FirstPropertyDecides(c: ColorSettings.ColorSettings, key: string, color: string, other: string)
    requires c.Valid() && ColorSettings.IsValidColor(color) && ColorSettings.IsValidColor(other)
    ensures ColorRequestsAccepted([Obj([("graphLineColor", Str(color)), (key, Str(other))])])
    ensures ColorsAfter(c, [Obj([("graphLineColor", Str(color)), (key, Str(other))])]) == c.(graphLineColor := color)
  {
    var request := Obj([("graphLineColor", Str(color)), (key, Str(other))]);
    assert W.PaletteValues(request, ColorSettings.ValidColors) by {
      assert request.props[0].1 == Str(color) && request.props[1].1 == Str(other);
    }
    assert ColorRequestsAccepted([request]);
    assert FirstKey(request) == "graphLineColor";
    assert Get(request, "graphLineColor") == Str(color);
    PropertyNameReadsBack(GraphLineColor);
    LastLineColorRequest(c, [request], color);
  }

  /** The loop of `setColors`, proved against the fold it computes. */
  method MergeColorRequests(current: ColorSettings.ColorSettings, requests: seq<JsValue>)
    returns (previousColors: map<ColorProperty, JsValue>)
    requires AllObjects(requests)
    ensures previousColors == ApplyColorRequests(ColorMap(current), requests)
  {
    previousColors := ColorMap(current);
    for i := 0 to |requests|
      invariant previousColors == ApplyColorRequests(ColorMap(current), requests[..i])
    {
      assert requests[..i + 1][..i] == requests[..i];
      var request := requests[i];
      var key := FirstKey(request);
      match PropertyNamed(key)
      case Some(p) => previousColors := previousColors[p := Get(request, key)];
      case None =>
    }
    assert requests[..|requests|] == requests;
  }

  // ---------------------------------------------------------------- merging axis titles

  /** `axisTitles.xAxis ?? current.xAxis`, and the same for the y title. */
  function MergedTitles(current: AxisTitles.AxisTitles, axisTitles: JsValue): AxisTitles.AxisTitles {
    var x := Get(axisTitles, "xAxis");
    var y := Get(axisTitles, "yAxis");
    AxisTitles.AxisTitles(if x.Str? then x.s else current.xAxis, if y.Str? then y.s else current.yAxis)
  }

  /** Setting the same titles twice is the same as setting them once. */
  lemma MergedTitlesIdempotent(current: AxisTitles.AxisTitles, axisTitles: JsValue)
    ensures MergedTitles(MergedTitles(current, axisTitles), axisTitles) == MergedTitles(current, axisTitles)
  {
  }

  /** A title that is given replaces the old one; a title that is not given is kept. */
  lemma MergedTitlesFields(current: AxisTitles.AxisTitles, axisTitles: JsValue)
    requires W.AxisTitlesCheck(axisTitles).Success?
    ensures "xAxis" in Keys(axisTitles.props) ==> MergedTitles(current, axisTitles).xAxis == Get(axisTitles, "xAxis").s
    ensures "xAxis" !in Keys(axisTitles.props) ==> MergedTitles(current, axisTitles).xAxis == current.xAxis
    ensures "yAxis" in Keys(axisTitles.props) ==> MergedTitles(current, axisTitles).yAxis == Get(axisTitles, "yAxis").s
    ensures "yAxis" !in Keys(axisTitles.props) ==> MergedTitles(current, axisTitles).yAxis == current.yAxis
  {
    W.AxisTitlesCheckedValues(axisTitles);
    var keys := Keys(axisTitles.props);
    assert W.FirstNonString(axisTitles, keys).None?;
    if "xAxis" in keys {
      var i :| 0 <= i < |keys| && keys[i] == "xAxis";
    }
    if "yAxis" in keys {
      var i :| 0 <= i < |keys| && keys[i] == "yAxis";
    }
  }

  // ---------------------------------------------------------------- the element

  /** What one rendering yields: the settings it was drawn with and where everything goes. */
  datatype Drawing = Drawing(
    background: string,
    colors: ColorSettings.ColorSettings,
    labelFont: string,
    titleFont: string,
    titles: AxisTitles.AxisTitles,
    xAxis: Layout.Segment,
    yAxis: Layout.Segment,
    zeroLine: Option<real>,
    xLabels: seq<Layout.XLabel>,
    dottedLines: seq<Layout.Segment>,
    xLabelText: seq<seq<Layout.Glyph>>,
    xTitleY: Option<real>,
    yLabels: seq<Layout.YLabel>,
    yTitleAt: Option<(real, real)>,
    points: seq<Layout.Point>)

  /** The drawing of one bundle of rendering data, labelling the x axis with up to `maxSteps` labels. */
  function DrawingOf(d: D.GraphAndCanvasData, maxSteps: nat): Drawing
    requires d.Valid() && maxSteps >= 1
  {
    var xLabels := Layout.XLabels(d, maxSteps);
    Drawing(d.colorSettings.backgroundColor, d.colorSettings, d.fontSettings.Label(), d.fontSettings.Title(),
            d.axisTitles, Layout.XAxisLine(d), Layout.YAxisLine(d), Layout.ZeroLine(d),
            xLabels, Layout.DottedLines(d, xLabels), Layout.LabelsText(d, xLabels), Layout.XTitleY(d),
            Layout.YLabels(d), Layout.YTitleAt(d), Layout.Points(d))
  }

  /** The rendering data `renderArrayAsGraph` puts together for a canvas of the given size. */
  function Scene(width: int, height: int, values: seq<int>, maxSteps: nat, font: FontSettings.FontSettings,
                 colors: ColorSettings.ColorSettings, titles: AxisTitles.AxisTitles): D.GraphAndCanvasData
    requires |values| >= 2
  {
    D.GraphAndCanvasData(CanvasProperties.FromSize(width, height), GraphProperties.Of(values), values,
                         Num(maxSteps), 10, font, colors, titles)
  }

  /** The rendering data of a dataset that passes the checks is valid and its statistics are its own. */
  lemma SceneDrawable(width: int, height: int, values: seq<int>, font: FontSettings.FontSettings,
                      colors: ColorSettings.ColorSettings, titles: AxisTitles.AxisTitles)
    requires |values| >= 2 && font.Valid() && colors.Valid()
    ensures Layout.Drawable(Scene(width, height, values, 20, font, colors, titles))
  {
  }

  const DatasetTooShort := "GraphDrawer: The dataset is too short. It must contain at least two numbers."

  class GraphDrawer {
    const numberOfStepsOnYAxis: int
    const maxNumberOfStepsOnXAxis: int
    var fontSettings: FontSettings.FontSettings
    var colorSettings: ColorSettings.ColorSettings
    var axisTitles: AxisTitles.AxisTitles
    /** The container's style width and height, which `setSize` writes. */
    var containerWidth: string
    var containerHeight: string

    /** What construction establishes and every setter keeps. */
    predicate Valid()
      reads this
    {
      && numberOfStepsOnYAxis == 10 && maxNumberOfStepsOnXAxis == 20
      && fontSettings.Valid() && colorSettings.Valid()
    }

    constructor ()
      ensures Valid()
      ensures fontSettings == FontSettings.FontSettings("Arial", Num(12), Num(16))
      ensures colorSettings == ColorSettings.ColorSettings("black", "black", "gray", "black", "black", "black", "white")
      ensures axisTitles == AxisTitles.AxisTitles("Index", "Values")
      ensures containerWidth == "100%" && containerHeight == "100%"
    {
      numberOfStepsOnYAxis := 10;
      maxNumberOfStepsOnXAxis := 20;
      fontSettings := FontSettings.FontSettings("Arial", Num(12), Num(16));
      colorSettings := ColorSettings.ColorSettings("black", "black", "gray", "black", "black", "black", "white");
      axisTitles := AxisTitles.AxisTitles("Index", "Values");
      containerWidth := "100%";
      containerHeight := "100%";
    }

    /** `get axisTitles`: a copy, equal to the titles held. */
    function GetAxisTitles(): (t: AxisTitles.AxisTitles)
      reads this
      ensures t == axisTitles
    {
      AxisTitles.CopyIsIdentity(axisTitles);
      AxisTitles.Create(Str(axisTitles.xAxis), Str(axisTitles.yAxis)).value
    }

    /** `get colorSettings`: a copy, equal to the colours held. */
    function GetColorSettings(): (c: ColorSettings.ColorSettings)
      requires Valid()
      reads this
      ensures c == colorSettings
    {
      var k := colorSettings;
      ColorSettings.CopyIsIdentity(k);
      ColorSettings.Create(Str(k.graphLineColor), Str(k.graphDotColor), Str(k.zeroLineColor), Str(k.axisColor),
                           Str(k.labelColor), Str(k.titleColor), Str(k.backgroundColor)).value
    }

    /**
     * `get fontSettings` as written: the family is read back as the second
     * space-separated word of the label shorthand, the sizes with `parseInt`.
     */
    function GetFontSettingsAsWritten(): (f: FontSettings.FontSettings)
      requires Valid()
      reads this
      ensures f.fontSizeLabel == fontSettings.fontSizeLabel && f.fontSizeTitle == fontSettings.fontSizeTitle
      ensures |Split(fontSettings.Label(), ' ')| >= 2 && f.font == Split(fontSettings.Label(), ' ')[1]
      ensures ' ' !in fontSettings.font ==> f == fontSettings
    {
      var shorthand := fontSettings.Label();
      FontSettings.SizesReadBack(fontSettings);
      ShorthandWords(fontSettings);
      var family := Split(shorthand, ' ')[1];
      FontSettings.Create(Str(family), ParseInt(shorthand), ParseInt(fontSettings.Title())).value
    }

    /** `get fontSettings` as evidently intended: a copy of the settings held. */
    function GetFontSettings(): (f: FontSettings.FontSettings)
      requires Valid()
      reads this
      ensures f == fontSettings
    {
      FontSettings.SizesReadBack(fontSettings);
      FontSettings.Create(Str(fontSettings.font), ParseInt(fontSettings.Label()), ParseInt(fontSettings.Title())).value
    }

    /** `setAxisTitles`: on success the given titles replace the old ones and the others are kept. */
    method SetAxisTitles(titles: JsValue) returns (r: Result<()>)
      modifies this`axisTitles
      ensures r == W.AxisTitlesCheck(titles)
      ensures r.Success? ==> axisTitles == MergedTitles(old(axisTitles), titles)
      ensures r.Failure? ==> axisTitles == old(axisTitles)
    {
      r := W.ValidateAxisTitles(titles);
      if r.Failure? {
        return;
      }
      W.AxisTitlesCheckedValues(titles);
      var current := GetAxisTitles();
      var created := AxisTitles.Create(Coalesce(Get(titles, "xAxis"), Str(current.xAxis)),
                                       Coalesce(Get(titles, "yAxis"), Str(current.yAxis)));
      axisTitles := created.value;
    }

    /**
     * `setColors`: on success each request's first property takes its colour
     * when it names one of the seven, later requests overriding earlier ones;
     * a first property that names none of them changes nothing.
     */
    method SetColors(requests: JsValue) returns (r: Result<()>)
      requires Valid()
      modifies this`colorSettings
      ensures Valid()
      ensures r == W.ColorSettingsCheckAsWritten(requests)
      ensures r.Success? ==> requests.Arr? && ColorRequestsAccepted(requests.elems)
      ensures r.Success? ==> colorSettings == ColorsAfter(old(colorSettings), requests.elems)
      ensures r.Failure? ==> colorSettings == old(colorSettings)
    {
      r := W.ValidateColorSettings(requests);
      if r.Failure? {
        return;
      }
      AcceptedRequests(requests);
      ApplyColors(requests.elems);
    }

    /** The part of `setColors` after the check: merge the requests into the current colours. */
    method ApplyColors(requests: seq<JsValue>)
      requires Valid() && ColorRequestsAccepted(requests)
      modifies this`colorSettings
      ensures Valid()
      ensures colorSettings == ColorsAfter(old(colorSettings), requests)
    {
      var previousColors := MergeColorRequests(colorSettings, requests);
      MergedColors(colorSettings, requests, previousColors);
      ColorsFromCreated(previousColors);
      var created := ColorSettings.Create(previousColors[GraphLineColor], previousColors[GraphDotColor],
                                          previousColors[ZeroLineColor], previousColors[AxisColor],
                                          previousColors[LabelColor], previousColors[TitleColor],
                                          previousColors[BackgroundColor]);
      colorSettings := created.value;
    }

    /** `setFontSettings`: on success the three given values become the font settings. */
    method SetFontSettings(settings: JsValue) returns (r: Result<()>)
      requires Valid()
      modifies this`fontSettings
      ensures Valid()
      ensures r == W.FontSettingsCheck(settings)
      ensures r.Success? ==>
                fontSettings == FontSettings.FontSettings(Get(settings, "fontFamily").s, Get(settings, "labelFontSize"),
                                                          Get(settings, "titleFontSize"))
      ensures r.Failure? ==> fontSettings == old(fontSettings)
    {
      r := W.ValidateFontSettings(settings);
      if r.Failure? {
        return;
      }
      W.FontValuesCheckMeaning(settings);
      var created := FontSettings.Create(Get(settings, "fontFamily"), Get(settings, "labelFontSize"),
                                         Get(settings, "titleFontSize"));
      fontSettings := created.value;
    }

    /** `setSize`: on success the container's style takes the two given lengths. */
    method SetSize(size: JsValue) returns (r: Result<()>)
      modifies this`containerWidth, this`containerHeight
      ensures r.Success? <==> W.SizeCheck(size).Success?
      ensures r.Failure? ==> r == W.SizeCheck(size).PropagateFailure()
      ensures r.Success? ==> (containerWidth, containerHeight) == W.SizeCheck(size).value
      ensures r.Failure? ==> containerWidth == old(containerWidth) && containerHeight == old(containerHeight)
    {
      var checked := W.ValidateSizeObject(size);
      if checked.Failure? {
        return checked.PropagateFailure();
      }
      containerWidth := checked.value.0;
      containerHeight := checked.value.1;
      return Success(());
    }

    /**
     * `renderArrayAsGraph` on a canvas whose computed size is `width` by
     * `height` pixels: the dataset is checked twice, first by the element and
     * then by the rendering data, which also wants at least two numbers.
     */
    method RenderArrayAsGraph(dataset: JsValue, width: int, height: int) returns (r: Result<Drawing>)
      requires Valid()
      ensures r.Success? <==> dataset.Arr? && |dataset.elems| >= 2 && GraphProperties.AllNumbers(dataset.elems)
      ensures W.DatasetCheck(dataset).Failure? ==> r == W.DatasetCheck(dataset).PropagateFailure()
      ensures dataset.Arr? && |dataset.elems| == 1 && GraphProperties.AllNumbers(dataset.elems) ==>
                r == Failure(Error(DatasetTooShort))
      ensures r.Success? ==>
                var values := GraphProperties.Numbers(dataset.elems);
                r.value == DrawingOf(Scene(width, height, values, maxNumberOfStepsOnXAxis, fontSettings, colorSettings,
                                           axisTitles), maxNumberOfStepsOnXAxis)
    {
      var checked := W.DatasetCheck(dataset);
      if checked.Failure? {
        return checked.PropagateFailure();
      }
      var canvasProperties := CanvasProperties.FromSize(width, height);
      var created := GraphProperties.Create(dataset);
      var graphProperties := created.value;
      var data :- D.Create(canvasProperties, graphProperties, dataset, Num(maxNumberOfStepsOnXAxis),
                           Num(numberOfStepsOnYAxis), fontSettings, colorSettings, axisTitles);
      var zeroLine := Layout.ZeroLine(data);
      var xLabels, dottedLines, xLabelText := Layout.XAxisLabels(data, maxNumberOfStepsOnXAxis);
      var yLabels := Layout.YAxisLabels(data);
      var xTitleY := Layout.XAxisTitle(data);
      var yTitleAt := Layout.YAxisTitle(data);
      var points := Layout.TracePoints(data);
      return Success(Drawing(colorSettings.backgroundColor, colorSettings, fontSettings.Label(), fontSettings.Title(),
                             axisTitles, Layout.XAxisLine(data), Layout.YAxisLine(data), zeroLine,
                             xLabels, dottedLines, xLabelText, xTitleY,
                             yLabels, yTitleAt, points));
    }
  }

  /** The label shorthand always holds a space, so its second word exists; it is the family when that has no space. */
  lemma ShorthandWords(f: FontSettings.FontSettings)
    requires f.Valid()
    ensures |Split(f.Label(), ' ')| >= 2
    ensures ' ' !in f.font ==> Split(f.Label(), ' ')[1] == f.font
  {
    if ' ' !in f.font {
      FontSettings.FamilyReadBack(f);
    }
    var size := NumberToString(f.fontSizeLabel) + "px";
    assert ' ' !in size by {
      if f.fontSizeLabel.Num? {
        FontSettings.NonNegativeRenderingHasNoSpace(f.fontSizeLabel.n);
      }
    }
    assert f.Label() == size + [' '] + f.font;
    SplitAfterHead(size, f.font, ' ');
  }

  /** A family with a space is cut at it by the getter as written: "Times New Roman" comes back as "Times". */
  lemma FamilyWithSpaceTruncated(f: FontSettings.FontSettings, first: string, rest: string)
    requires f.Valid() && f.font == first + [' '] + rest && ' ' !in first
    ensures |Split(f.Label(), ' ')| >= 2 && Split(f.Label(), ' ')[1] == first
    ensures first != f.font
  {
    var size := NumberToString(f.fontSizeLabel) + "px";
    assert ' ' !in size by {
      if f.fontSizeLabel.Num? {
        FontSettings.NonNegativeRenderingHasNoSpace(f.fontSizeLabel.n);
      }
    }
    assert f.Label() == size + [' '] + f.font;
    SplitAfterHead(size, f.font, ' ');
    SplitAfterHead(first, rest, ' ');
    assert |first| < |f.font|;
  }
}
