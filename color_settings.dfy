/** The seven colours of a graph, each one of ten colour names, stored in lower case. */
module ColorSettings {
  import opened Strings
  import opened Js

  const ValidColors: seq<string> := ["red", "green", "lime", "blue", "yellow", "orange", "purple", "black", "gray", "white"]

  /** `validColors.includes(s)` */
  predicate IsValidColor(s: string) {
    s in ValidColors
  }

  const DefaultColor := "black"
  const BackgroundDefaultColor := "white"

  datatype ColorSettings = ColorSettings(
    graphLineColor: string,
    graphDotColor: string,
    zeroLineColor: string,
    axisColor: string,
    labelColor: string,
    titleColor: string,
    backgroundColor: string)
  {
    predicate Valid() {
      && IsValidColor(graphLineColor) && IsValidColor(graphDotColor) && IsValidColor(zeroLineColor)
      && IsValidColor(axisColor) && IsValidColor(labelColor) && IsValidColor(titleColor)
      && IsValidColor(backgroundColor)
    }
  }

  /** A colour argument that passes: a string whose lower-case form is a valid colour. */
  predicate Acceptable(color: JsValue) {
    color.Str? && IsValidColor(ToLower(color.s))
  }

  /** The message of the constructor's TypeError for an argument outside the palette. */
  function ColorMessage(name: string): string {
    name + " must be a valid color"
  }

  /**
   * The reason V8 gives when `toLowerCase` is called on a value that is not a
   * string: undefined and null have no properties to read, any other value has
   * no such method.
   */
  function NonStringReason(color: JsValue, name: string): string {
    if color.Undefined? then "Cannot read properties of undefined (reading 'toLowerCase')"
    else if color.Null? then "Cannot read properties of null (reading 'toLowerCase')"
    else name + ".toLowerCase is not a function"
  }

  /** The TypeError an argument that does not pass raises. */
  function ColorError(color: JsValue, name: string): Thrown {
    if color.Str? then TypeError(ColorMessage(name)) else TypeError(NonStringReason(color, name))
  }

  /**
   * `validColors.includes(name.toLowerCase())` for the argument `name`, throwing
   * when it fails.  A value that is not a string has no `toLowerCase`, so
   * calling it throws before the palette is consulted.
   */
  function CheckColor(color: JsValue, name: string): (r: Result<string>)
    ensures r.Success? <==> Acceptable(color)
    ensures r.Success? ==> r.value == ToLower(color.s)
    ensures !color.Str? ==> r == Failure(TypeError(NonStringReason(color, name)))
    ensures color.Str? && !Acceptable(color) ==> r == Failure(TypeError(ColorMessage(name)))
  {
    if !color.Str? then Failure(TypeError(NonStringReason(color, name)))
    else if !IsValidColor(ToLower(color.s)) then Failure(TypeError(ColorMessage(name)))
    else Success(ToLower(color.s))
  }

  /** Every colour name has three to six letters. */
  lemma ColorLength(c: string)
    requires IsValidColor(c)
    ensures 3 <= |c| <= 6
  {
  }

  /** `s || fallback` on strings: the empty string is falsy. */
  function OrDefault(s: string, fallback: string): string {
    if s != "" then s else fallback
  }

  /**
   * The constructor: seven checks in argument order, then the lower-cased
   * values are stored.  The first argument that does not pass decides the error.
   */
  function Create(graphLineColor: JsValue, graphDotColor: JsValue, zeroLineColor: JsValue, axisColor: JsValue,
                  labelColor: JsValue, titleColor: JsValue, backgroundColor: JsValue): (r: Result<ColorSettings>)
    ensures r.Success? <==>
              && Acceptable(graphLineColor) && Acceptable(graphDotColor) && Acceptable(zeroLineColor)
              && Acceptable(axisColor) && Acceptable(labelColor) && Acceptable(titleColor)
              && Acceptable(backgroundColor)
    ensures !Acceptable(graphLineColor) ==> r == Failure(ColorError(graphLineColor, "graphLineColor"))
    ensures Acceptable(graphLineColor) && !Acceptable(graphDotColor) ==>
              r == Failure(ColorError(graphDotColor, "graphDotColor"))
    ensures Acceptable(graphLineColor) && Acceptable(graphDotColor) && !Acceptable(zeroLineColor) ==>
              r == Failure(ColorError(zeroLineColor, "zeroLineColor"))
    ensures Acceptable(graphLineColor) && Acceptable(graphDotColor) && Acceptable(zeroLineColor)
            && !Acceptable(axisColor) ==>
              r == Failure(ColorError(axisColor, "axisColor"))
    ensures Acceptable(graphLineColor) && Acceptable(graphDotColor) && Acceptable(zeroLineColor)
            && Acceptable(axisColor) && !Acceptable(labelColor) ==>
              r == Failure(ColorError(labelColor, "labelColor"))
    ensures Acceptable(graphLineColor) && Acceptable(graphDotColor) && Acceptable(zeroLineColor)
            && Acceptable(axisColor) && Acceptable(labelColor) && !Acceptable(titleColor) ==>
              r == Failure(ColorError(titleColor, "titleColor"))
    ensures Acceptable(graphLineColor) && Acceptable(graphDotColor) && Acceptable(zeroLineColor)
            && Acceptable(axisColor) && Acceptable(labelColor) && Acceptable(titleColor)
            && !Acceptable(backgroundColor) ==>
              r == Failure(ColorError(backgroundColor, "backgroundColor"))
    ensures r.Success? ==>
              && r.value.Valid()
              && r.value == ColorSettings(ToLower(graphLineColor.s), ToLower(graphDotColor.s), ToLower(zeroLineColor.s),
                                          ToLower(axisColor.s), ToLower(labelColor.s), ToLower(titleColor.s),
                                          ToLower(backgroundColor.s))
  {
    var line :- CheckColor(graphLineColor, "graphLineColor");
    var dot :- CheckColor(graphDotColor, "graphDotColor");
    var zero :- CheckColor(zeroLineColor, "zeroLineColor");
    var axis :- CheckColor(axisColor, "axisColor");
    var forLabels :- CheckColor(labelColor, "labelColor");
    var title :- CheckColor(titleColor, "titleColor");
    var background :- CheckColor(backgroundColor, "backgroundColor");
    NoColorIsEmpty(line); NoColorIsEmpty(dot); NoColorIsEmpty(zero); NoColorIsEmpty(axis);
    NoColorIsEmpty(forLabels); NoColorIsEmpty(title); NoColorIsEmpty(background);
    Success(ColorSettings(OrDefault(line, DefaultColor), OrDefault(dot, DefaultColor), OrDefault(zero, DefaultColor),
                          OrDefault(axis, DefaultColor), OrDefault(forLabels, DefaultColor), OrDefault(title, DefaultColor),
                          OrDefault(background, BackgroundDefaultColor)))
  }

  /** Every valid colour name is already in lower case. */
  lemma ValidColorsAreLowerCase(c: string)
    requires IsValidColor(c)
    ensures ToLower(c) == c
  {
    assert HasNoUpperCase(c);
    LowercaseUnchanged(c);
  }

  /** The empty string is not a colour, so the `|| 'black'` and `|| 'white'` fallbacks never apply. */
  lemma NoColorIsEmpty(c: string)
    requires IsValidColor(c)
    ensures OrDefault(c, DefaultColor) == c && OrDefault(c, BackgroundDefaultColor) == c
  {
  }

  /** Rebuilding from the seven getters, as the widget's getter does, gives back the same settings. */
  lemma CopyIsIdentity(c: ColorSettings)
    requires c.Valid()
    ensures Create(Str(c.graphLineColor), Str(c.graphDotColor), Str(c.zeroLineColor), Str(c.axisColor),
                   Str(c.labelColor), Str(c.titleColor), Str(c.backgroundColor)) == Success(c)
  {
    ValidColorsAreLowerCase(c.graphLineColor);
    ValidColorsAreLowerCase(c.graphDotColor);
    ValidColorsAreLowerCase(c.zeroLineColor);
    ValidColorsAreLowerCase(c.axisColor);
    ValidColorsAreLowerCase(c.labelColor);
    ValidColorsAreLowerCase(c.titleColor);
    ValidColorsAreLowerCase(c.backgroundColor);
  }

  lemma UpperCaseExamples()
    ensures Acceptable(Str("RED")) && ToLower("RED") == "red"
    ensures Acceptable(Str("Black")) && ToLower("Black") == "black"
  {
    assert ToLower("RED") == "red" by {
      assert |ToLower("RED")| == 3;
    }
    assert ToLower("Black") == "black" by {
      assert |ToLower("Black")| == 5;
    }
    assert IsValidColor("red") && IsValidColor("black");
  }

  /** Upper-case names are accepted and stored in lower case. */
  lemma CreateLowersCase()
    ensures Create(Str("RED"), Str("Black"), Str("gray"), Str("black"), Str("black"), Str("black"), Str("white"))
            == Success(ColorSettings("red", "black", "gray", "black", "black", "black", "white"))
  {
    UpperCaseExamples();
    ValidColorsAreLowerCase("gray");
    ValidColorsAreLowerCase("black");
    ValidColorsAreLowerCase("white");
    assert Acceptable(Str("RED")) && Acceptable(Str("Black")) && Acceptable(Str("gray"));
    assert Acceptable(Str("black")) && Acceptable(Str("white"));
  }

  /** A Kelvin sign lowers to k, so `'blac\u212A'` is taken as black. */
  lemma KelvinSignLowered()
    ensures Acceptable(Str("blac" + [KelvinSign])) && ToLower("blac" + [KelvinSign]) == "black"
  {
    assert ToLower("blac" + [KelvinSign]) == "black" by {
      assert |ToLower("blac" + [KelvinSign])| == 5;
    }
    assert IsValidColor("black");
  }

  /** A later argument that is not a string raises the host's reason for it, once the earlier ones pass. */
  lemma CreateRefusesMissingBackground(c: ColorSettings)
    requires c.Valid()
    ensures Create(Str(c.graphLineColor), Str(c.graphDotColor), Str(c.zeroLineColor), Str(c.axisColor),
                   Str(c.labelColor), Str(c.titleColor), Undefined)
            == Failure(TypeError("Cannot read properties of undefined (reading 'toLowerCase')"))
  {
    ValidColorsAreLowerCase(c.graphLineColor);
    ValidColorsAreLowerCase(c.graphDotColor);
    ValidColorsAreLowerCase(c.zeroLineColor);
    ValidColorsAreLowerCase(c.axisColor);
    ValidColorsAreLowerCase(c.labelColor);
    ValidColorsAreLowerCase(c.titleColor);
  }

  /** A name that is not in the palette is refused even though it is in lower case. */
  lemma UnknownNameRefused()
    ensures ToLower("chartreuse") == "chartreuse" && !Acceptable(Str("chartreuse"))
  {
    assert HasNoUpperCase("chartreuse");
    LowercaseUnchanged("chartreuse");
    OutOfLengthIsNoColor("chartreuse");
  }

  lemma EmptyNameRefused()
    ensures !Acceptable(Str(""))
  {
    assert ToLower("") == "";
    OutOfLengthIsNoColor("");
  }

  /** A name shorter than three or longer than six letters is not a colour. */
  lemma OutOfLengthIsNoColor(c: string)
    requires |c| < 3 || |c| > 6
    ensures !IsValidColor(c)
  {
  }

  /** A name outside the palette is refused with the argument's name in the message, whatever follows it. */
  lemma CreateRefusesUnknownColor(dot: JsValue, zero: JsValue, axis: JsValue, forLabels: JsValue, title: JsValue,
                                  background: JsValue)
    ensures Create(Str("chartreuse"), dot, zero, axis, forLabels, title, background)
            == Failure(TypeError(ColorMessage("graphLineColor")))
  {
    UnknownNameRefused();
  }

  /** The empty string is refused: the first offender in argument order is reported. */
  lemma CreateRefusesEmptyColor(axis: JsValue, forLabels: JsValue, title: JsValue, background: JsValue)
    ensures Create(Str("red"), Str(""), Str(""), axis, forLabels, title, background)
            == Failure(TypeError(ColorMessage("graphDotColor")))
  {
    EmptyNameRefused();
    ValidColorsAreLowerCase("red");
  }
}
