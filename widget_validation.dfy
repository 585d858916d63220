/**
 * The widget's own input checks: its dataset check and the private validators
 * behind `setAxisTitles`, `setColors`, `setFontSettings` and `setSize`.  Each
 * validator builds fresh validation collections and reads their diagnostics,
 * as the widget does; each is specified by a function that spells the outcome
 * out in terms of the argument, and lemmas say what passing means.
 */
module WidgetValidation {
  import opened Strings
  import opened Js
  import opened ValidationCollection
  import ColorSettings
  import GraphProperties

  const AxisTitleNames: seq<string> := ["xAxis", "yAxis"]
  const ColorPropertyNames: seq<string> :=
    ["graphLineColor", "graphDotColor", "zeroLineColor", "axisColor", "labelColor", "titleColor", "backgroundColor"]
  const FontPropertyNames: seq<string> := ["fontFamily", "labelFontSize", "titleFontSize"]
  const SizePropertyNames: seq<string> := ["width", "height"]

  // ---------------------------------------------------------------- dataset

  /** `verifyDatasetIntegrity`: an array of at least one number other than NaN. */
  function DatasetCheck(dataset: JsValue): (r: Result<()>)
    ensures r.Success? <==> dataset.Arr? && |dataset.elems| >= 1 && GraphProperties.AllNumbers(dataset.elems)
    ensures dataset.Undefined? || dataset.Null? ==> r == Failure(TypeError("dataset must not be undefined or null"))
    ensures !dataset.Undefined? && !dataset.Null? && !dataset.Arr? ==> r == Failure(TypeError("dataset must be an array"))
    ensures dataset.Arr? && |dataset.elems| == 0 ==> r == Failure(Error("dataset must not be empty"))
    ensures dataset.Arr? && |dataset.elems| > 0 && !GraphProperties.AllNumbers(dataset.elems) ==>
              r == Failure(TypeError("dataset must only contain numbers"))
  {
    if dataset.Undefined? || dataset.Null? then Failure(TypeError("dataset must not be undefined or null"))
    else if !dataset.Arr? then Failure(TypeError("dataset must be an array"))
    else if |dataset.elems| == 0 then Failure(Error("dataset must not be empty"))
    else if exists i :: 0 <= i < |dataset.elems| && NotANumber(dataset.elems[i]) then
      Failure(TypeError("dataset must only contain numbers"))
    else Success(())
  }

  /** `value === undefined || value === null || typeof value !== 'number' || isNaN(value)` */
  predicate NotANumber(value: JsValue) {
    value.Undefined? || value.Null? || TypeOf(value) != "number" || IsNaN(value)
  }

  // ---------------------------------------------------------------- options

  /** `{ validProperties: ['xAxis', 'yAxis'], minimumLength: 1 }` */
  const AxisTitlesOptions := Obj([("validProperties", Arr(StrSeq(AxisTitleNames))), ("minimumLength", Num(1))])
  /** `{ minimumLength: 1 }` */
  const ColorArrayOptions := Obj([("minimumLength", Num(1))])
  /** `{ validProperties: validColorProperties, validValues: validColorStrings }` */
  const ColorOptions :=
    Obj([("validProperties", Arr(StrSeq(ColorPropertyNames))), ("validValues", Arr(StrSeq(ColorSettings.ValidColors)))])
  /** `{ validProperties: validProperties }` */
  const FontOptions := Obj([("validProperties", Arr(StrSeq(FontPropertyNames)))])
  const SizeOptions := Obj([("validProperties", Arr(StrSeq(SizePropertyNames)))])

  lemma OneOption(a: (string, JsValue))
    ensures ParseOptions([a]) == ApplyOption(DefaultSetup, a.0, a.1)
  {
    assert [a][..0] == [];
  }

  lemma TwoOptions(a: (string, JsValue), b: (string, JsValue))
    ensures ParseOptions([a, b]) ==
              var first := ApplyOption(DefaultSetup, a.0, a.1);
              if first.Failure? then first else ApplyOption(first.value, b.0, b.1)
  {
    assert [a, b][..1] == [a];
    OneOption(a);
    assert [a, b][1] == b;
  }

  lemma ApplyLength(acc: Setup, value: JsValue)
    ensures ApplyOption(acc, "minimumLength", value) ==
              Success(if IsPositiveNumberValue(value) then acc.(minimumLength := value.n) else acc.(typeThatFailed := TypeOf(value)))
  {
  }

  lemma ApplyProperties(acc: Setup, value: JsValue)
    ensures ApplyOption(acc, "validProperties", value) ==
              Success(if value.Arr? then acc.(validProperties := value.elems) else acc.(typeThatFailed := TypeOf(value)))
  {
  }

  lemma ApplyValues(acc: Setup, value: JsValue)
    ensures ApplyOption(acc, "validValues", value) ==
              Success(if value.Arr? then acc.(validValues := value.elems) else acc.(typeThatFailed := TypeOf(value)))
  {
  }

  /** Each options object the widget writes configures its collection as intended. */
  lemma AxisTitlesOptionsParse()
    ensures ParseOptions(AxisTitlesOptions.props) == Success(Setup(1, 0, StrSeq(AxisTitleNames), [], [], ""))
  {
    var names := Arr(StrSeq(AxisTitleNames));
    TwoOptions(("validProperties", names), ("minimumLength", Num(1)));
    ApplyProperties(DefaultSetup, names);
    ApplyLength(DefaultSetup.(validProperties := names.elems), Num(1));
  }

  lemma ColorArrayOptionsParse()
    ensures ParseOptions(ColorArrayOptions.props) == Success(Setup(1, 0, [], [], [], ""))
  {
    OneOption(("minimumLength", Num(1)));
    ApplyLength(DefaultSetup, Num(1));
  }

  lemma ColorOptionsParse()
    ensures ParseOptions(ColorOptions.props) ==
              Success(Setup(0, 0, StrSeq(ColorPropertyNames), StrSeq(ColorSettings.ValidColors), [], ""))
  {
    var names := Arr(StrSeq(ColorPropertyNames));
    var colors := Arr(StrSeq(ColorSettings.ValidColors));
    TwoOptions(("validProperties", names), ("validValues", colors));
    ApplyProperties(DefaultSetup, names);
    ApplyValues(DefaultSetup.(validProperties := names.elems), colors);
  }

  lemma FontOptionsParse()
    ensures ParseOptions(FontOptions.props) == Success(Setup(0, 0, StrSeq(FontPropertyNames), [], [], ""))
  {
    OneOption(("validProperties", Arr(StrSeq(FontPropertyNames))));
    ApplyProperties(DefaultSetup, Arr(StrSeq(FontPropertyNames)));
  }

  lemma SizeOptionsParse()
    ensures ParseOptions(SizeOptions.props) == Success(Setup(0, 0, StrSeq(SizePropertyNames), [], [], ""))
  {
    OneOption(("validProperties", Arr(StrSeq(SizePropertyNames))));
    ApplyProperties(DefaultSetup, Arr(StrSeq(SizePropertyNames)));
  }

  // ---------------------------------------------------------------- axis titles

  /** `Object.keys(v).length` for a value that is neither undefined nor null. */
  function KeyCount(v: JsValue): nat {
    match v
    case Obj(props) => |props|
    case Arr(elems) => |elems|
    case Str(s) => |s|
    case _ => 0
  }

  /** The first of `keys` whose value in `v` is not a string. */
  function FirstNonString(v: JsValue, keys: seq<string>): (r: Option<string>)
    ensures r.None? <==> forall i :: 0 <= i < |keys| ==> Get(v, keys[i]).Str?
    ensures r.Some? ==> r.value in keys && !Get(v, r.value).Str?
  {
    if |keys| == 0 then None
    else
      var init := keys[..|keys| - 1];
      assert forall i :: 0 <= i < |init| ==> init[i] == keys[i];
      match FirstNonString(v, init)
      case Some(key) => Some(key)
      case None => if Get(v, keys[|keys| - 1]).Str? then None else Some(keys[|keys| - 1])
  }

  /*
   * The fixed parts of the messages are written out once each, as constants; the lists of names in them are the constants above,
   * joined with ", ".
   */
  const AxisTitlesPrefix: string :=
    "axisTitles must be an object with one-two of the following properties: xAxis, yAxis but contains: "

  const PropertiesSuffix: string :=
    " properties"

  const NotAStringInfix: string :=
    " value must be a string, but is: "

  function AxisTitlesShapeMessage(contains: string): string {
    AxisTitlesPrefix + contains
  }

  function NotAStringMessage(key: string, value: JsValue): string {
    key + NotAStringInfix + TypeOf(value)
  }

  /**
   * `isAnObjectThatMayHavePropertiesAndMustHaveMinLength` for a collection with
   * valid properties `valid` and minimum length `minimum`, and the message the
   * widget throws when it fails.
   */
  function AxisTitlesShape(axisTitles: JsValue, valid: seq<JsValue>, minimum: nat): Result<()> {
    if axisTitles.Undefined? || axisTitles.Null? then Failure(OwnNames(axisTitles).error)
    else
      var unexpected := Strip(OwnNames(axisTitles).value, valid);
      if axisTitles.Obj? && unexpected == [] && |axisTitles.props| >= minimum then Success(())
      else
        Failure(TypeError(AxisTitlesShapeMessage(
          if |unexpected| > 0 then JoinWith(unexpected, ", ") else NatToString(KeyCount(axisTitles)) + PropertiesSuffix)))
  }

  /** `#validateAxisTitles`: one or two of the two title names, each holding a string. */
  function AxisTitlesCheck(axisTitles: JsValue): Result<()> {
    var _ :- AxisTitlesShape(axisTitles, StrSeq(AxisTitleNames), 1);
    match FirstNonString(axisTitles, Keys(axisTitles.props))
    case Some(key) => Failure(TypeError(NotAStringMessage(key, Get(axisTitles, key))))
    case None => Success(())
  }

  /** `Str(k)` is among the string values of `names` exactly when `k` is among `names`. */
  lemma StrSeqMembers(names: seq<string>, k: string)
    ensures Str(k) in StrSeq(names) <==> k in names
  {
    if k in names {
      var i :| 0 <= i < |names| && names[i] == k;
      assert StrSeq(names)[i] == Str(k);
    }
  }

  /** With unique keys, the values found by key are the entries' values. */
  lemma ValuesAreLookups(v: JsValue)
    requires v.Obj? && DistinctKeys(v)
    ensures FirstNonString(v, Keys(v.props)).None? <==> forall i :: 0 <= i < |v.props| ==> v.props[i].1.Str?
  {
    var keys := Keys(v.props);
    forall i | 0 <= i < |v.props|
      ensures Get(v, keys[i]) == v.props[i].1
    {
      LookupDistinct(v.props, i);
    }
  }

  /** The check passes exactly for a non-empty object of title names whose values are strings. */
  lemma AxisTitlesCheckPasses(v: JsValue)
    requires v.Obj?
    ensures AxisTitlesCheck(v).Success? <==>
              && Strip(Keys(v.props), StrSeq(AxisTitleNames)) == [] && |v.props| >= 1
              && FirstNonString(v, Keys(v.props)).None?
  {
  }

  /** Every key is a title name, stated over the entries. */
  lemma KeysAmong(v: JsValue, names: seq<string>)
    requires v.Obj?
    ensures (forall k :: k in Keys(v.props) ==> Str(k) in StrSeq(names)) <==>
            (forall i :: 0 <= i < |v.props| ==> v.props[i].0 in names)
  {
    var keys := Keys(v.props);
    forall k | k in keys
      ensures Str(k) in StrSeq(names) <==> k in names
    {
      StrSeqMembers(names, k);
    }
    if forall i :: 0 <= i < |v.props| ==> v.props[i].0 in names {
      forall k | k in keys ensures k in names {
        var i :| 0 <= i < |keys| && keys[i] == k;
      }
    }
    if forall k :: k in keys ==> k in names {
      forall i | 0 <= i < |v.props| ensures v.props[i].0 in names {
        assert keys[i] in keys;
      }
    }
  }

  /** Passing means: a plain object with one or two entries, each a title name holding a string. */
  lemma AxisTitlesCheckMeaning(v: JsValue)
    requires DistinctKeys(v)
    ensures AxisTitlesCheck(v).Success? <==>
              && v.Obj? && |v.props| >= 1
              && (forall i :: 0 <= i < |v.props| ==> v.props[i].0 in AxisTitleNames && v.props[i].1.Str?)
  {
    if v.Obj? {
      AxisTitlesCheckPasses(v);
      MayHavePropertiesMeaning(v, StrSeq(AxisTitleNames));
      KeysAmong(v, AxisTitleNames);
      ValuesAreLookups(v);
    }
  }

  /** After a successful check, each title is a string or absent. */
  lemma AxisTitlesCheckedValues(v: JsValue)
    requires AxisTitlesCheck(v).Success?
    ensures v.Obj?
    ensures Get(v, "xAxis").Str? || Get(v, "xAxis").Undefined?
    ensures Get(v, "yAxis").Str? || Get(v, "yAxis").Undefined?
  {
    var keys := Keys(v.props);
    assert FirstNonString(v, keys).None?;
    if "xAxis" in keys {
      var i :| 0 <= i < |keys| && keys[i] == "xAxis";
    }
    if "yAxis" in keys {
      var i :| 0 <= i < |keys| && keys[i] == "yAxis";
    }
  }

  method ValidateAxisTitles(axisTitles: JsValue) returns (r: Result<()>)
    ensures r == AxisTitlesCheck(axisTitles)
  {
    AxisTitlesOptionsParse();
    var created := ValidationCollection.New(AxisTitlesOptions);
    var validators := created.value;
    var shape := CheckAxisTitlesShape(validators, axisTitles);
    if shape.Failure? {
      return shape;
    }
    var bad := FindNonString(validators, axisTitles, Keys(axisTitles.props));
    if bad.Some? {
      return Failure(TypeError(NotAStringMessage(bad.value, Get(axisTitles, bad.value))));
    }
    return Success(());
  }

  /** The first half of `#validateAxisTitles`, on a fresh collection. */
  method CheckAxisTitlesShape(validators: ValidationCollection, axisTitles: JsValue) returns (r: Result<()>)
    requires validators.unexpectedProperties == []
    modifies validators`typeThatFailed, validators`unexpectedProperties
    ensures r == AxisTitlesShape(axisTitles, old(validators.validProperties), old(validators.minimumLength))
  {
    var ok :- validators.IsAnObjectThatMayHavePropertiesAndMustHaveMinLength(axisTitles);
    if !ok {
      if |validators.unexpectedProperties| > 0 {
        return Failure(TypeError(AxisTitlesShapeMessage(JoinWith(validators.unexpectedProperties, ", "))));
      }
      return Failure(TypeError(AxisTitlesShapeMessage(NatToString(KeyCount(axisTitles)) + PropertiesSuffix)));
    }
    return Success(());
  }

  /** `for (const key of keys) if (!validators.isString(v[key])) …`: the first key whose value is not a string. */
  method FindNonString(validators: ValidationCollection, v: JsValue, keys: seq<string>) returns (bad: Option<string>)
    modifies validators`typeThatFailed
    ensures bad == FirstNonString(v, keys)
  {
    for i := 0 to |keys|
      invariant FirstNonString(v, keys[..i]).None?
    {
      assert keys[..i + 1][..i] == keys[..i];
      var isString := validators.IsString(Get(v, keys[i]));
      if !isString {
        assert FirstNonString(v, keys[..i + 1]) == Some(keys[i]);
        FirstNonStringSticks(v, keys, i + 1);
        return Some(keys[i]);
      }
    }
    assert keys[..|keys|] == keys;
    return None;
  }

  /** Once a prefix has a non-string, the whole list reports the same key. */
  lemma {:induction false} FirstNonStringSticks(v: JsValue, keys: seq<string>, j: nat)
    requires j <= |keys| && FirstNonString(v, keys[..j]).Some?
    ensures FirstNonString(v, keys) == FirstNonString(v, keys[..j])
    decreases |keys| - j
  {
    if j < |keys| {
      assert keys[..j + 1][..j] == keys[..j];
      FirstNonStringSticks(v, keys, j + 1);
    } else {
      assert keys[..j] == keys;
    }
  }

  // ---------------------------------------------------------------- one check per element

  /** Runs `check` on each element in order and stops at the first failure. */
  function CheckEach(elems: seq<JsValue>, check: JsValue -> Result<()>): (r: Result<()>)
    ensures r.Failure? ==> exists i :: 0 <= i < |elems| && r == check(elems[i])
  {
    if |elems| == 0 then Success(())
    else
      var init := elems[..|elems| - 1];
      var before := CheckEach(init, check);
      if before.Failure? then before else check(elems[|elems| - 1])
  }

  lemma {:induction false} CheckEachMeaning(elems: seq<JsValue>, check: JsValue -> Result<()>)
    ensures CheckEach(elems, check).Success? <==> forall i :: 0 <= i < |elems| ==> check(elems[i]).Success?
  {
    if |elems| > 0 {
      var init := elems[..|elems| - 1];
      CheckEachMeaning(init, check);
      assert forall i :: 0 <= i < |init| ==> init[i] == elems[i];
    }
  }

  /** The first failure decides the outcome, whatever follows it. */
  lemma {:induction false} CheckEachSticks(elems: seq<JsValue>, check: JsValue -> Result<()>, j: nat)
    requires j <= |elems| && CheckEach(elems[..j], check).Failure?
    ensures CheckEach(elems, check) == CheckEach(elems[..j], check)
    decreases |elems| - j
  {
    if j < |elems| {
      assert elems[..j + 1][..j] == elems[..j];
      CheckEachSticks(elems, check, j + 1);
    } else {
      assert elems[..j] == elems;
    }
  }

  // ---------------------------------------------------------------- colours

  const ColorShapePrefix: string :=
    "colorSettings must be an array of objects with one of the following properties each: "
    + "graphLineColor, graphDotColor, zeroLineColor, axisColor, labelColor, titleColor, backgroundColor"

  const ColorTypePrefix: string :=
    "colorSettings must be an array of objects. But is: "

  const ColorValuesPrefix: string :=
    "colorSettings must be an array of objects with one of the following colors: "
    + "red, green, lime, blue, yellow, orange, purple, black, gray, white but contains: "

  const ContainsInfix: string :=
    " but contains: "

  function ColorShapeMessage(unexpected: seq<string>): string {
    ColorShapePrefix + ContainsInfix + JoinWith(unexpected, ", ")
  }

  function ColorValuesMessage(unexpected: seq<JsValue>): string {
    ColorValuesPrefix + JoinValues(unexpected)
  }

  /** The first two checks of `#validateColorSettings`: a non-empty array of objects, where null counts as one. */
  function ColorArrayCheck(colorSettings: JsValue): Result<()> {
    if !(colorSettings.Arr? && |colorSettings.elems| >= 1) then Failure(TypeError(ColorShapePrefix))
    else
      match LastNonObjectType(colorSettings.elems)
      case Some(t) => Failure(TypeError(ColorTypePrefix + t))
      case None => Success(())
  }

  /**
   * `isObjectThatMustHaveSanctionedValues(request)`, throwing when it fails.  A
   * request that is not an object (null) fails without recording anything, and
   * nothing was recorded before it, so its message lists no colours.
   */
  function SanctionedCheck(request: JsValue, colors: seq<JsValue>): (r: Result<()>)
    ensures r.Success? ==> request.Obj?
  {
    if !request.Obj? then Failure(TypeError(ColorValuesMessage([])))
    else
      var bad := Unsanctioned(Values(request.props), colors);
      if bad == [] then Success(()) else Failure(TypeError(ColorValuesMessage(bad)))
  }

  /** The loop body as intended: `isAnObjectThatMayHaveProperties(request)` is called, then the colours are checked. */
  function ColorRequestCheck(request: JsValue, properties: seq<JsValue>, colors: seq<JsValue>): (r: Result<()>)
    ensures r.Success? ==> request.Obj?
  {
    if request.Undefined? || request.Null? then Failure(OwnNames(request).error)
    else
      var unexpected := Strip(OwnNames(request).value, properties);
      if !(request.Obj? && unexpected == []) then Failure(TypeError(ColorShapeMessage(unexpected)))
      else SanctionedCheck(request, colors)
  }

  /** `#validateColorSettings` as written: the property check on each request is never called. */
  function ColorSettingsCheckAsWrittenWith(colorSettings: JsValue, colors: seq<JsValue>): Result<()> {
    var _ :- ColorArrayCheck(colorSettings);
    CheckEach(colorSettings.elems, request => SanctionedCheck(request, colors))
  }

  /** `#validateColorSettings` with the property check on each request in place. */
  function ColorSettingsCheckWith(colorSettings: JsValue, properties: seq<JsValue>, colors: seq<JsValue>): Result<()> {
    var _ :- ColorArrayCheck(colorSettings);
    CheckEach(colorSettings.elems, request => ColorRequestCheck(request, properties, colors))
  }

  function ColorSettingsCheckAsWritten(colorSettings: JsValue): Result<()> {
    ColorSettingsCheckAsWrittenWith(colorSettings, StrSeq(ColorSettings.ValidColors))
  }

  function ColorSettingsCheck(colorSettings: JsValue): Result<()> {
    ColorSettingsCheckWith(colorSettings, StrSeq(ColorPropertyNames), StrSeq(ColorSettings.ValidColors))
  }

  /** A request passes the colour check exactly when it is an object whose values all are sanctioned. */
  lemma SanctionedCheckMeaning(request: JsValue, colors: seq<JsValue>)
    ensures SanctionedCheck(request, colors).Success? <==>
              request.Obj? && forall i :: 0 <= i < |request.props| ==> Includes(colors, request.props[i].1)
  {
    if request.Obj? {
      var values := Values(request.props);
      UnsanctionedMembers(values, colors);
      var bad := Unsanctioned(values, colors);
      if bad != [] {
        assert bad[0] in bad;
      }
      if exists i :: 0 <= i < |request.props| && !Includes(colors, request.props[i].1) {
        var i :| 0 <= i < |request.props| && !Includes(colors, request.props[i].1);
        assert values[i] in values;
        assert values[i] in bad;
      }
    }
  }

  /** For an object, the intended check is the property check followed by the colour check. */
  lemma ColorRequestCheckPasses(request: JsValue, properties: seq<JsValue>, colors: seq<JsValue>)
    requires request.Obj?
    ensures ColorRequestCheck(request, properties, colors).Success? <==>
              Strip(Keys(request.props), properties) == [] && SanctionedCheck(request, colors).Success?
  {
  }

  /** A request passes the intended check exactly when it is an object of colour names holding sanctioned colours. */
  lemma ColorRequestCheckMeaning(request: JsValue, properties: seq<JsValue>, colors: seq<JsValue>)
    requires DistinctKeys(request)
    ensures ColorRequestCheck(request, properties, colors).Success? <==>
              && request.Obj?
              && (forall k :: k in Keys(request.props) ==> Str(k) in properties)
              && (forall i :: 0 <= i < |request.props| ==> Includes(colors, request.props[i].1))
  {
    SanctionedCheckMeaning(request, colors);
    if request.Obj? {
      ColorRequestCheckPasses(request, properties, colors);
      MayHavePropertiesMeaning(request, properties);
    }
  }

  /** Both colour checks, after the array checks, come down to the check on each request. */
  lemma ColorSettingsCheckPasses(colorSettings: JsValue, properties: seq<JsValue>, colors: seq<JsValue>)
    ensures ColorSettingsCheckAsWrittenWith(colorSettings, colors).Success? <==>
              && colorSettings.Arr? && |colorSettings.elems| >= 1 && LastNonObjectType(colorSettings.elems).None?
              && CheckEach(colorSettings.elems, request => SanctionedCheck(request, colors)).Success?
    ensures ColorSettingsCheckWith(colorSettings, properties, colors).Success? <==>
              && colorSettings.Arr? && |colorSettings.elems| >= 1 && LastNonObjectType(colorSettings.elems).None?
              && CheckEach(colorSettings.elems, request => ColorRequestCheck(request, properties, colors)).Success?
  {
  }

  /** Each request passes: stated over the elements, for any per-request check that refuses non-objects. */
  lemma EachRequestPasses(elems: seq<JsValue>, check: JsValue -> Result<()>)
    requires forall e :: check(e).Success? ==> e.Obj?
    ensures CheckEach(elems, check).Success? <==>
              LastNonObjectType(elems).None? && forall i :: 0 <= i < |elems| ==> check(elems[i]).Success?
  {
    CheckEachMeaning(elems, check);
    LastNonObjectTypeNone(elems);
  }

  lemma ColorSettingsCheckAsWrittenWithMeaning(colorSettings: JsValue, colors: seq<JsValue>)
    ensures ColorSettingsCheckAsWrittenWith(colorSettings, colors).Success? <==>
              && colorSettings.Arr? && |colorSettings.elems| >= 1
              && forall i :: 0 <= i < |colorSettings.elems| ==>
                   var request := colorSettings.elems[i];
                   request.Obj? && forall j :: 0 <= j < |request.props| ==> Includes(colors, request.props[j].1)
  {
    ColorSettingsCheckPasses(colorSettings, [], colors);
    if colorSettings.Arr? {
      var check := request => SanctionedCheck(request, colors);
      EachRequestPasses(colorSettings.elems, check);
      forall i | 0 <= i < |colorSettings.elems| {
        SanctionedCheckMeaning(colorSettings.elems[i], colors);
      }
    }
  }

  lemma ColorSettingsCheckWithMeaning(colorSettings: JsValue, properties: seq<JsValue>, colors: seq<JsValue>)
    requires colorSettings.Arr? ==> forall i :: 0 <= i < |colorSettings.elems| ==> DistinctKeys(colorSettings.elems[i])
    ensures ColorSettingsCheckWith(colorSettings, properties, colors).Success? <==>
              && colorSettings.Arr? && |colorSettings.elems| >= 1
              && forall i :: 0 <= i < |colorSettings.elems| ==>
                   var request := colorSettings.elems[i];
                   && request.Obj?
                   && (forall k :: k in Keys(request.props) ==> Str(k) in properties)
                   && forall j :: 0 <= j < |request.props| ==> Includes(colors, request.props[j].1)
  {
    if colorSettings.Arr? {
      EachColorRequestPasses(colorSettings, properties, colors);
      var elems := colorSettings.elems;
      forall i | 0 <= i < |elems|
        ensures ColorRequestCheck(elems[i], properties, colors).Success? <==>
                  && elems[i].Obj?
                  && (forall k :: k in Keys(elems[i].props) ==> Str(k) in properties)
                  && (forall j :: 0 <= j < |elems[i].props| ==> Includes(colors, elems[i].props[j].1))
      {
        ColorRequestCheckMeaning(elems[i], properties, colors);
      }
    } else {
      ColorSettingsCheckPasses(colorSettings, properties, colors);
    }
  }

  /** The intended check on an array passes exactly when it is non-empty and every request passes. */
  lemma EachColorRequestPasses(colorSettings: JsValue, properties: seq<JsValue>, colors: seq<JsValue>)
    requires colorSettings.Arr?
    ensures ColorSettingsCheckWith(colorSettings, properties, colors).Success? <==>
              && |colorSettings.elems| >= 1
              && forall i :: 0 <= i < |colorSettings.elems| ==>
                   ColorRequestCheck(colorSettings.elems[i], properties, colors).Success?
  {
    ColorSettingsCheckPasses(colorSettings, properties, colors);
    var check := request => ColorRequestCheck(request, properties, colors);
    EachRequestPasses(colorSettings.elems, check);
  }

  /** `Includes` on a list of strings is membership of a string. */
  lemma IncludesStrSeq(names: seq<string>, v: JsValue)
    ensures Includes(StrSeq(names), v) <==> v.Str? && v.s in names
  {
    if v.Str? {
      StrSeqMembers(names, v.s);
    }
  }

  /** A request's values are all names from `palette`. */
  predicate PaletteValues(request: JsValue, palette: seq<string>)
    requires request.Obj?
  {
    forall j :: 0 <= j < |request.props| ==> request.props[j].1.Str? && request.props[j].1.s in palette
  }

  /** A request's property names are all from `names`. */
  predicate NamedProperties(request: JsValue, names: seq<string>)
    requires request.Obj?
  {
    forall k :: k in Keys(request.props) ==> k in names
  }

  lemma ColorRequestIncluded(request: JsValue, names: seq<string>, palette: seq<string>)
    requires request.Obj?
    ensures (forall j :: 0 <= j < |request.props| ==> Includes(StrSeq(palette), request.props[j].1)) <==>
              PaletteValues(request, palette)
    ensures (forall k :: k in Keys(request.props) ==> Str(k) in StrSeq(names)) <==> NamedProperties(request, names)
  {
    forall j | 0 <= j < |request.props| {
      IncludesStrSeq(palette, request.props[j].1);
    }
    forall k | k in Keys(request.props) {
      StrSeqMembers(names, k);
    }
  }

  /** The check as written, stated over names rather than values. */
  lemma ColorSettingsCheckAsWrittenNamed(colorSettings: JsValue, palette: seq<string>)
    ensures ColorSettingsCheckAsWrittenWith(colorSettings, StrSeq(palette)).Success? <==>
              && colorSettings.Arr? && |colorSettings.elems| >= 1
              && forall i :: 0 <= i < |colorSettings.elems| ==>
                   colorSettings.elems[i].Obj? && PaletteValues(colorSettings.elems[i], palette)
  {
    ColorSettingsCheckAsWrittenWithMeaning(colorSettings, StrSeq(palette));
    if colorSettings.Arr? {
      forall i | 0 <= i < |colorSettings.elems| && colorSettings.elems[i].Obj? {
        ColorRequestIncluded(colorSettings.elems[i], [], palette);
      }
    }
  }

  /** The intended check, stated over names rather than values. */
  lemma ColorSettingsCheckNamed(colorSettings: JsValue, names: seq<string>, palette: seq<string>)
    requires colorSettings.Arr? ==> forall i :: 0 <= i < |colorSettings.elems| ==> DistinctKeys(colorSettings.elems[i])
    ensures ColorSettingsCheckWith(colorSettings, StrSeq(names), StrSeq(palette)).Success? <==>
              && colorSettings.Arr? && |colorSettings.elems| >= 1
              && forall i :: 0 <= i < |colorSettings.elems| ==>
                   var request := colorSettings.elems[i];
                   request.Obj? && NamedProperties(request, names) && PaletteValues(request, palette)
  {
    ColorSettingsCheckWithMeaning(colorSettings, StrSeq(names), StrSeq(palette));
    if colorSettings.Arr? {
      forall i | 0 <= i < |colorSettings.elems| && colorSettings.elems[i].Obj? {
        ColorRequestIncluded(colorSettings.elems[i], names, palette);
      }
    }
  }

  /**
   * Passing the check as written: a non-empty array of objects whose values are
   * all palette names, spelt in lower case; the property names are never looked at.
   */
  lemma ColorSettingsCheckAsWrittenMeaning(colorSettings: JsValue)
    ensures ColorSettingsCheckAsWritten(colorSettings).Success? <==>
              && colorSettings.Arr? && |colorSettings.elems| >= 1
              && forall i :: 0 <= i < |colorSettings.elems| ==>
                   colorSettings.elems[i].Obj? && PaletteValues(colorSettings.elems[i], ColorSettings.ValidColors)
  {
    ColorSettingsCheckAsWrittenNamed(colorSettings, ColorSettings.ValidColors);
  }

  /** Passing the intended check: in addition, every request names only colour properties. */
  lemma ColorSettingsCheckMeaning(colorSettings: JsValue)
    requires colorSettings.Arr? ==> forall i :: 0 <= i < |colorSettings.elems| ==> DistinctKeys(colorSettings.elems[i])
    ensures ColorSettingsCheck(colorSettings).Success? <==>
              && colorSettings.Arr? && |colorSettings.elems| >= 1
              && forall i :: 0 <= i < |colorSettings.elems| ==>
                   var request := colorSettings.elems[i];
                   && request.Obj?
                   && NamedProperties(request, ColorPropertyNames)
                   && PaletteValues(request, ColorSettings.ValidColors)
  {
    ColorSettingsCheckNamed(colorSettings, ColorPropertyNames, ColorSettings.ValidColors);
  }

  /**
   * `#validateColorSettings` as written: the two array checks, then only the
   * colour check on each request, since the property check is never called.
   */
  method ValidateColorSettings(colorSettings: JsValue) returns (r: Result<()>)
    ensures r == ColorSettingsCheckAsWritten(colorSettings)
  {
    r := CheckColorArray(colorSettings);
    if r.Failure? {
      return;
    }
    ColorOptionsParse();
    var created := ValidationCollection.New(ColorOptions);
    var validators := created.value;
    r := CheckSanctionedRequests(validators, colorSettings.elems);
  }

  /** `#validateColorSettings` with the property check of line 356 called, as evidently intended. */
  method ValidateColorSettingsIntended(colorSettings: JsValue) returns (r: Result<()>)
    ensures r == ColorSettingsCheck(colorSettings)
  {
    r := CheckColorArray(colorSettings);
    if r.Failure? {
      return;
    }
    ColorOptionsParse();
    var created := ValidationCollection.New(ColorOptions);
    var validators := created.value;
    r := CheckColorRequests(validators, colorSettings.elems);
  }

  /** The loop of `#validateColorSettings` as written: each request's values against the palette. */
  method CheckSanctionedRequests(validators: ValidationCollection, requests: seq<JsValue>) returns (r: Result<()>)
    requires validators.unexpectedValues == []
    modifies validators`typeThatFailed, validators`unexpectedValues
    ensures r == CheckEach(requests, request => SanctionedCheck(request, old(validators.validValues)))
  {
    ghost var colors := validators.validValues;
    ghost var check := request => SanctionedCheck(request, colors);
    for i := 0 to |requests|
      invariant CheckEach(requests[..i], check).Success?
      invariant validators.unexpectedValues == []
      invariant validators.validValues == colors
    {
      assert requests[..i + 1][..i] == requests[..i];
      var sanctioned := validators.IsObjectThatMustHaveSanctionedValues(requests[i]);
      if !sanctioned {
        r := Failure(TypeError(ColorValuesMessage(validators.unexpectedValues)));
        assert CheckEach(requests[..i + 1], check) == r;
        CheckEachSticks(requests, check, i + 1);
        return;
      }
      assert CheckEach(requests[..i + 1], check).Success?;
    }
    assert requests[..|requests|] == requests;
    return Success(());
  }

  /** The two array checks, each on a collection of its own. */
  method CheckColorArray(colorSettings: JsValue) returns (r: Result<()>)
    ensures r == ColorArrayCheck(colorSettings)
  {
    ColorArrayOptionsParse();
    var created := ValidationCollection.New(ColorArrayOptions);
    var validators := created.value;
    var isArray := validators.IsArrayThatMustHaveMinLength(colorSettings);
    if !isArray {
      return Failure(TypeError(ColorShapePrefix));
    }
    ColorOptionsParse();
    created := ValidationCollection.New(ColorOptions);
    validators := created.value;
    var isArrayOfObjects := validators.IsArrayOfObjects(colorSettings);
    if !isArrayOfObjects {
      return Failure(TypeError(ColorTypePrefix + validators.typeThatFailed));
    }
    return Success(());
  }

  /** The body of the loop of `#validateColorSettings`, with its property check. */
  method CheckColorRequest(validators: ValidationCollection, request: JsValue) returns (r: Result<()>)
    requires validators.unexpectedProperties == [] && validators.unexpectedValues == []
    modifies validators`typeThatFailed, validators`unexpectedProperties, validators`unexpectedValues
    ensures r == ColorRequestCheck(request, old(validators.validProperties), old(validators.validValues))
    ensures r.Success? ==> validators.unexpectedProperties == [] && validators.unexpectedValues == []
  {
    ghost var expected := ColorRequestCheck(request, validators.validProperties, validators.validValues);
    var mayHave :- validators.IsAnObjectThatMayHaveProperties(request);
    ghost var unexpected := Strip(OwnNames(request).value, validators.validProperties);
    assert validators.unexpectedProperties == unexpected;
    if !mayHave {
      assert expected == Failure(TypeError(ColorShapeMessage(unexpected)));
      return Failure(TypeError(ColorShapeMessage(validators.unexpectedProperties)));
    }
    assert expected == SanctionedCheck(request, validators.validValues);
    var sanctioned := validators.IsObjectThatMustHaveSanctionedValues(request);
    if !sanctioned {
      return Failure(TypeError(ColorValuesMessage(validators.unexpectedValues)));
    }
    return Success(());
  }

  /** The loop of `#validateColorSettings`, on the collection configured with the colour names and the palette. */
  method CheckColorRequests(validators: ValidationCollection, requests: seq<JsValue>) returns (r: Result<()>)
    requires validators.unexpectedProperties == [] && validators.unexpectedValues == []
    modifies validators`typeThatFailed, validators`unexpectedProperties, validators`unexpectedValues
    ensures r == CheckEach(requests, request => ColorRequestCheck(request, old(validators.validProperties),
                                                                  old(validators.validValues)))
  {
    ghost var properties, colors := validators.validProperties, validators.validValues;
    ghost var check := request => ColorRequestCheck(request, properties, colors);
    for i := 0 to |requests|
      invariant CheckEach(requests[..i], check).Success?
      invariant validators.unexpectedProperties == [] && validators.unexpectedValues == []
      invariant validators.validProperties == properties && validators.validValues == colors
    {
      assert requests[..i + 1][..i] == requests[..i];
      r := CheckColorRequest(validators, requests[i]);
      assert CheckEach(requests[..i + 1], check) == r;
      if r.Failure? {
        CheckEachSticks(requests, check, i + 1);
        return;
      }
    }
    assert requests[..|requests|] == requests;
    return Success(());
  }

  /** A request naming any property at all, with a palette colour, slips through the check as written ... */
  lemma UnknownColorPropertyAccepted(key: string, color: string)
    requires color in ColorSettings.ValidColors
    ensures ColorSettingsCheckAsWritten(Arr([Obj([(key, Str(color))])])).Success?
  {
    SingleRequestAccepted(key, color, ColorSettings.ValidColors);
  }

  lemma SingleRequestAccepted(key: string, color: string, palette: seq<string>)
    requires color in palette
    ensures ColorSettingsCheckAsWrittenWith(Arr([Obj([(key, Str(color))])]), StrSeq(palette)).Success?
  {
    var request := Obj([(key, Str(color))]);
    assert PaletteValues(request, palette) by {
      assert request.props[0].1 == Str(color);
    }
    ColorSettingsCheckAsWrittenNamed(Arr([request]), palette);
  }

  /** ... and the intended check refuses it when the property is not a colour property. */
  lemma UnknownColorPropertyRefused(key: string, color: string)
    requires key !in ColorPropertyNames
    ensures ColorSettingsCheck(Arr([Obj([(key, Str(color))])])).Failure?
  {
    SingleRequestUnnamedRefused(key, color, ColorPropertyNames, ColorSettings.ValidColors);
  }

  lemma SingleRequestUnnamedRefused(key: string, color: string, names: seq<string>, palette: seq<string>)
    requires key !in names
    ensures ColorSettingsCheckWith(Arr([Obj([(key, Str(color))])]), StrSeq(names), StrSeq(palette)).Failure?
  {
    var request := Obj([(key, Str(color))]);
    assert Keys(request.props) == [key];
    EachColorRequestPasses(Arr([request]), StrSeq(names), StrSeq(palette));
    ColorRequestCheckMeaning(request, StrSeq(names), StrSeq(palette));
    StrSeqMembers(names, key);
  }

  /**
   * The widget compares colours strictly: a colour the settings would accept
   * after lowering its case, such as "RED", is refused here.
   */
  lemma CaseSensitiveColors(key: string, color: string)
    requires color !in ColorSettings.ValidColors
    ensures ColorSettingsCheckAsWritten(Arr([Obj([(key, Str(color))])])).Failure?
    ensures ColorSettingsCheck(Arr([Obj([(key, Str(color))])])).Failure?
  {
    var request := Obj([(key, Str(color))]);
    assert !PaletteValues(request, ColorSettings.ValidColors) by {
      assert request.props[0].1 == Str(color);
    }
    ColorSettingsCheckAsWrittenNamed(Arr([request]), ColorSettings.ValidColors);
    SingleRequestOffPaletteRefused(key, color, ColorPropertyNames, ColorSettings.ValidColors);
  }

  lemma SingleRequestOffPaletteRefused(key: string, color: string, names: seq<string>, palette: seq<string>)
    requires color !in palette
    ensures ColorSettingsCheckWith(Arr([Obj([(key, Str(color))])]), StrSeq(names), StrSeq(palette)).Failure?
  {
    var request := Obj([(key, Str(color))]);
    assert Keys(request.props) == [key];
    assert request.props[0].1 == Str(color);
    EachColorRequestPasses(Arr([request]), StrSeq(names), StrSeq(palette));
    ColorRequestCheckMeaning(request, StrSeq(names), StrSeq(palette));
    IncludesStrSeq(palette, Str(color));
  }

  lemma UpperCaseRedAcceptedBySettings()
    ensures "RED" !in ColorSettings.ValidColors && ColorSettings.Acceptable(Str("RED"))
  {
    assert ToLower("RED") == "red";
  }

  // ---------------------------------------------------------------- objects that must have every property

  const MissingInfix: string :=
    ", and missing: "

  /**
   * `isAnObjectThatMustHaveProperties(v)`, throwing when it is false; the
   * message is `prefix`, then the unexpected names, then the missing ones.
   */
  function MustHaveShape(v: JsValue, valid: seq<JsValue>, prefix: string): (r: Result<()>)
    ensures r.Success? ==> v.Obj?
  {
    if v.Undefined? || v.Null? then Failure(OwnNames(v).error)
    else
      var unexpected := Strip(OwnNames(v).value, valid);
      var missing := Missing(v, valid);
      if v.Obj? && unexpected == [] && missing == [] then Success(())
      else Failure(TypeError(prefix + JoinWith(unexpected, ", ") + MissingInfix + JoinValues(missing)))
  }

  lemma MustHaveShapePasses(v: JsValue, valid: seq<JsValue>, prefix: string)
    requires v.Obj?
    ensures MustHaveShape(v, valid, prefix).Success? <==> Strip(Keys(v.props), valid) == [] && Missing(v, valid) == []
  {
  }

  /** Every listed name is a key, stated over names rather than values. */
  lemma StrSeqAllKeys(names: seq<string>, keys: seq<string>)
    ensures (forall p :: p in StrSeq(names) ==> p.Str? && p.s in keys) <==> (forall n :: n in names ==> n in keys)
  {
    var values := StrSeq(names);
    if forall p :: p in values ==> p.Str? && p.s in keys {
      forall n | n in names ensures n in keys {
        var i :| 0 <= i < |names| && names[i] == n;
        assert values[i] in values;
      }
    }
  }

  /** Passing means: a plain object whose keys are exactly `names`. */
  lemma MustHaveShapeMeaning(v: JsValue, names: seq<string>, prefix: string)
    requires DistinctKeys(v)
    ensures MustHaveShape(v, StrSeq(names), prefix).Success? <==>
              v.Obj? && NamedProperties(v, names) && forall n :: n in names ==> n in Keys(v.props)
  {
    if v.Obj? {
      MustHaveShapePasses(v, StrSeq(names), prefix);
      MustHavePropertiesMeaning(v, StrSeq(names));
      StrSeqAllKeys(names, Keys(v.props));
      forall k | k in Keys(v.props) {
        StrSeqMembers(names, k);
      }
    }
  }

  /** `isAnObjectThatMustHaveProperties` with the message built from what it recorded. */
  method CheckMustHave(validators: ValidationCollection, v: JsValue, prefix: string) returns (r: Result<()>)
    requires validators.unexpectedProperties == [] && validators.missingProperties == []
    modifies validators`typeThatFailed, validators`unexpectedProperties, validators`missingProperties
    ensures r == MustHaveShape(v, old(validators.validProperties), prefix)
  {
    var ok :- validators.IsAnObjectThatMustHaveProperties(v);
    if !ok {
      return Failure(TypeError(prefix + JoinWith(validators.unexpectedProperties, ", ") + MissingInfix
                               + JoinValues(validators.missingProperties)));
    }
    return Success(());
  }

  // ---------------------------------------------------------------- font settings

  const FontShapePrefix: string :=
    "fontSettings must be an object with the following properties: fontFamily, labelFontSize, titleFontSize but contains: "

  const FontFamilyTypePrefix: string :=
    "fontFamily value must be a string, but is: "

  const LabelSizeMessage: string :=
    "labelFontSize value must be a positive number."

  const TitleSizeMessage: string :=
    "titleFontSize value must be a positive number."

  const EmptyFamilyMessage: string :=
    "fontFamily value must not be empty"

  /** The checks on the three values, in the order `#validateFontSettings` makes them. */
  function FontValuesCheck(fontSettings: JsValue): Result<()> {
    var family := Get(fontSettings, "fontFamily");
    if !family.Str? then Failure(TypeError(FontFamilyTypePrefix + TypeOf(family)))
    else if !IsPositiveNumberValue(Get(fontSettings, "labelFontSize")) then Failure(TypeError(LabelSizeMessage))
    else if !IsPositiveNumberValue(Get(fontSettings, "titleFontSize")) then Failure(TypeError(TitleSizeMessage))
    else if family.s == "" then Failure(TypeError(EmptyFamilyMessage))
    else Success(())
  }

  function FontSettingsCheckWith(fontSettings: JsValue, valid: seq<JsValue>): Result<()> {
    var _ :- MustHaveShape(fontSettings, valid, FontShapePrefix);
    FontValuesCheck(fontSettings)
  }

  /** `#validateFontSettings` */
  function FontSettingsCheck(fontSettings: JsValue): Result<()> {
    FontSettingsCheckWith(fontSettings, StrSeq(FontPropertyNames))
  }

  /** The value checks pass on a non-empty family and two sizes that are numbers of at least 0 (NaN is refused). */
  lemma FontValuesCheckMeaning(fontSettings: JsValue)
    ensures FontValuesCheck(fontSettings).Success? <==>
              && Get(fontSettings, "fontFamily").Str? && Get(fontSettings, "fontFamily").s != ""
              && IsPositiveNumberValue(Get(fontSettings, "labelFontSize"))
              && IsPositiveNumberValue(Get(fontSettings, "titleFontSize"))
  {
  }

  lemma FontSettingsCheckNamed(fontSettings: JsValue, names: seq<string>)
    requires DistinctKeys(fontSettings)
    ensures FontSettingsCheckWith(fontSettings, StrSeq(names)).Success? <==>
              && fontSettings.Obj? && NamedProperties(fontSettings, names)
              && (forall n :: n in names ==> n in Keys(fontSettings.props))
              && FontValuesCheck(fontSettings).Success?
  {
    MustHaveShapeMeaning(fontSettings, names, FontShapePrefix);
  }

  /**
   * Passing means: a plain object with exactly the keys fontFamily,
   * labelFontSize and titleFontSize, a non-empty family and two sizes that are
   * numbers of at least 0.
   */
  lemma FontSettingsCheckMeaning(fontSettings: JsValue)
    requires DistinctKeys(fontSettings)
    ensures FontSettingsCheck(fontSettings).Success? <==>
              && fontSettings.Obj? && NamedProperties(fontSettings, FontPropertyNames)
              && (forall n :: n in FontPropertyNames ==> n in Keys(fontSettings.props))
              && Get(fontSettings, "fontFamily").Str? && Get(fontSettings, "fontFamily").s != ""
              && IsPositiveNumberValue(Get(fontSettings, "labelFontSize"))
              && IsPositiveNumberValue(Get(fontSettings, "titleFontSize"))
  {
    FontSettingsCheckNamed(fontSettings, FontPropertyNames);
    FontValuesCheckMeaning(fontSettings);
  }

  method ValidateFontSettings(fontSettings: JsValue) returns (r: Result<()>)
    ensures r == FontSettingsCheck(fontSettings)
  {
    FontOptionsParse();
    var created := ValidationCollection.New(FontOptions);
    var validators := created.value;
    r := CheckMustHave(validators, fontSettings, FontShapePrefix);
    if r.Failure? {
      return;
    }
    r := CheckFontValues(validators, fontSettings);
  }

  method CheckFontValues(validators: ValidationCollection, fontSettings: JsValue) returns (r: Result<()>)
    modifies validators`typeThatFailed
    ensures r == FontValuesCheck(fontSettings)
  {
    var family := Get(fontSettings, "fontFamily");
    var isString := validators.IsString(family);
    if !isString {
      return Failure(TypeError(FontFamilyTypePrefix + validators.typeThatFailed));
    }
    var labelOk := validators.IsPositiveNumber(Get(fontSettings, "labelFontSize"));
    if !labelOk {
      return Failure(TypeError(LabelSizeMessage));
    }
    var titleOk := validators.IsPositiveNumber(Get(fontSettings, "titleFontSize"));
    if !titleOk {
      return Failure(TypeError(TitleSizeMessage));
    }
    if family.s == "" {
      return Failure(TypeError(EmptyFamilyMessage));
    }
    return Success(());
  }

  // ---------------------------------------------------------------- size

  const SizeShapePrefix: string :=
    "size must be an object with the following properties: width, height but contains: "

  const SizeTypePrefix: string :=
    "width and height values must be strings, but are: "

  const AndInfix: string :=
    " and "

  const EmptyWidthMessage: string :=
    "width value must not be empty"

  const EmptyHeightMessage: string :=
    "height value must not be empty"

  const WidthUnitMessage: string :=
    "width value must end in % or px"

  const HeightUnitMessage: string :=
    "height value must end in % or px"

  /** `s.endsWith('%') || s.endsWith('px')` */
  predicate IsCssLength(s: string) {
    EndsWith(s, "%") || EndsWith(s, "px")
  }

  /** The emptiness checks are implied by the unit checks; they only choose the message. */
  lemma CssLengthNotEmpty(s: string)
    requires IsCssLength(s)
    ensures s != ""
  {
  }

  /** The checks on the two values; on success, the width and height the canvas is given. */
  function SizeValuesCheck(size: JsValue): Result<(string, string)> {
    var width := Get(size, "width");
    var height := Get(size, "height");
    if !width.Str? || !height.Str? then Failure(TypeError(SizeTypePrefix + TypeOf(width) + AndInfix + TypeOf(height)))
    else if width.s == "" then Failure(TypeError(EmptyWidthMessage))
    else if height.s == "" then Failure(TypeError(EmptyHeightMessage))
    else if !IsCssLength(width.s) then Failure(TypeError(WidthUnitMessage))
    else if !IsCssLength(height.s) then Failure(TypeError(HeightUnitMessage))
    else Success((width.s, height.s))
  }

  function SizeCheckWith(size: JsValue, valid: seq<JsValue>): Result<(string, string)> {
    var _ :- MustHaveShape(size, valid, SizeShapePrefix);
    SizeValuesCheck(size)
  }

  /** `#validateSizeObject`, returning the two values `setSize` then writes to the canvas style. */
  function SizeCheck(size: JsValue): Result<(string, string)> {
    SizeCheckWith(size, StrSeq(SizePropertyNames))
  }

  lemma SizeValuesCheckMeaning(size: JsValue)
    ensures SizeValuesCheck(size).Success? <==>
              && Get(size, "width").Str? && IsCssLength(Get(size, "width").s)
              && Get(size, "height").Str? && IsCssLength(Get(size, "height").s)
    ensures SizeValuesCheck(size).Success? ==> SizeValuesCheck(size).value == (Get(size, "width").s, Get(size, "height").s)
  {
    var width := Get(size, "width");
    var height := Get(size, "height");
    if width.Str? && IsCssLength(width.s) {
      CssLengthNotEmpty(width.s);
    }
    if height.Str? && IsCssLength(height.s) {
      CssLengthNotEmpty(height.s);
    }
  }

  lemma SizeCheckNamed(size: JsValue, names: seq<string>)
    requires DistinctKeys(size)
    ensures SizeCheckWith(size, StrSeq(names)).Success? <==>
              && size.Obj? && NamedProperties(size, names)
              && (forall n :: n in names ==> n in Keys(size.props))
              && SizeValuesCheck(size).Success?
    ensures SizeCheckWith(size, StrSeq(names)).Success? ==> SizeCheckWith(size, StrSeq(names)) == SizeValuesCheck(size)
  {
    MustHaveShapeMeaning(size, names, SizeShapePrefix);
  }

  /**
   * Passing means: a plain object with exactly the keys width and height, each
   * a string ending in "%" or "px"; the result is the pair of them.
   */
  lemma SizeCheckMeaning(size: JsValue)
    requires DistinctKeys(size)
    ensures SizeCheck(size).Success? <==>
              && size.Obj? && NamedProperties(size, SizePropertyNames)
              && (forall n :: n in SizePropertyNames ==> n in Keys(size.props))
              && Get(size, "width").Str? && IsCssLength(Get(size, "width").s)
              && Get(size, "height").Str? && IsCssLength(Get(size, "height").s)
    ensures SizeCheck(size).Success? ==> SizeCheck(size).value == (Get(size, "width").s, Get(size, "height").s)
  {
    SizeCheckNamed(size, SizePropertyNames);
    SizeValuesCheckMeaning(size);
  }

  method ValidateSizeObject(size: JsValue) returns (r: Result<(string, string)>)
    ensures r == SizeCheck(size)
  {
    SizeOptionsParse();
    var created := ValidationCollection.New(SizeOptions);
    var validators := created.value;
    var shape := CheckMustHave(validators, size, SizeShapePrefix);
    if shape.Failure? {
      return shape.PropagateFailure();
    }
    r := CheckSizeValues(validators, size);
  }

  method CheckSizeValues(validators: ValidationCollection, size: JsValue) returns (r: Result<(string, string)>)
    modifies validators`typeThatFailed
    ensures r == SizeValuesCheck(size)
  {
    var width := Get(size, "width");
    var height := Get(size, "height");
    var widthOk := validators.IsString(width);
    var heightOk := false;
    if widthOk {
      heightOk := validators.IsString(height);
    }
    if !widthOk || !heightOk {
      return Failure(TypeError(SizeTypePrefix + TypeOf(width) + AndInfix + TypeOf(height)));
    }
    if width.s == "" {
      return Failure(TypeError(EmptyWidthMessage));
    }
    if height.s == "" {
      return Failure(TypeError(EmptyHeightMessage));
    }
    if !EndsWith(width.s, "%") && !EndsWith(width.s, "px") {
      return Failure(TypeError(WidthUnitMessage));
    }
    if !EndsWith(height.s, "%") && !EndsWith(height.s, "px") {
      return Failure(TypeError(HeightUnitMessage));
    }
    return Success((width.s, height.s));
  }
}
