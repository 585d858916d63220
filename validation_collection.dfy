/**
 * A reusable checker configured once with length limits and lists of valid
 * property names, values and value types.  Each check answers whether its
 * argument passes and, as a side effect, records what was wrong in "sticky"
 * output fields: a passing check leaves them alone, a failing one overwrites
 * only the lists it fills, and nothing ever resets them.
 */
module ValidationCollection {
  import opened Js

  /** The configuration a collection holds, plus `typeThatFailed`, which option parsing can set. */
  datatype Setup = Setup(
    minimumLength: nat,
    maximumLength: nat,
    validProperties: seq<JsValue>,
    validValues: seq<JsValue>,
    validValueTypes: seq<JsValue>,
    typeThatFailed: string)

  const DefaultSetup := Setup(0, 0, [], [], [], "")

  /** The check behind `isPositiveNumber`: a number other than NaN that is at least 0. */
  predicate IsPositiveNumberValue(v: JsValue) {
    v.Num? && v.n >= 0
  }

  /** One step of the constructor's loop over the argument's own properties. */
  function ApplyOption(acc: Setup, name: string, value: JsValue): Result<Setup> {
    if name == "minimumLength" then
      Success(if IsPositiveNumberValue(value) then acc.(minimumLength := value.n) else acc.(typeThatFailed := TypeOf(value)))
    else if name == "maximumLength" then
      Success(if IsPositiveNumberValue(value) then acc.(maximumLength := value.n) else acc.(typeThatFailed := TypeOf(value)))
    else if name == "validProperties" then
      Success(if value.Arr? then acc.(validProperties := value.elems) else acc.(typeThatFailed := TypeOf(value)))
    else if name == "validValues" then
      Success(if value.Arr? then acc.(validValues := value.elems) else acc.(typeThatFailed := TypeOf(value)))
    else if name == "validValueTypes" then
      Success(if value.Arr? then acc.(validValueTypes := value.elems) else acc.(typeThatFailed := TypeOf(value)))
    else
      Failure(Error("argumentObject contains an invalid property: " + name))
  }

  /** The constructor's loop, as a fold over the properties in order. */
  function ParseOptions(props: seq<(string, JsValue)>): Result<Setup> {
    if |props| == 0 then Success(DefaultSetup)
    else
      var acc :- ParseOptions(props[..|props| - 1]);
      ApplyOption(acc, props[|props| - 1].0, props[|props| - 1].1)
  }

  /** Construction fails exactly when some property is not one of the five options. */
  lemma {:induction false} ParseOptionsFails(props: seq<(string, JsValue)>)
    ensures ParseOptions(props).Failure? <==>
              exists i :: 0 <= i < |props| && props[i].0 !in OptionNames
  {
    if |props| > 0 {
      var init := props[..|props| - 1];
      ParseOptionsFails(init);
      assert forall i :: 0 <= i < |init| ==> init[i] == props[i];
      if ParseOptions(init).Success? {
        assert ParseOptions(props) == ApplyOption(ParseOptions(init).value, props[|props| - 1].0, props[|props| - 1].1);
      }
      if exists i :: 0 <= i < |props| && props[i].0 !in OptionNames {
        var i :| 0 <= i < |props| && props[i].0 !in OptionNames;
        if i < |init| {
          assert init[i].0 !in OptionNames;
        }
      }
    }
  }

  /** Once a prefix of the properties fails, the whole fold fails with the same exception. */
  lemma {:induction false} ParseOptionsFailureSticks(props: seq<(string, JsValue)>, j: nat)
    requires j <= |props| && ParseOptions(props[..j]).Failure?
    ensures ParseOptions(props) == ParseOptions(props[..j])
    decreases |props| - j
  {
    if j < |props| {
      assert props[..j + 1][..j] == props[..j];
      ParseOptionsFailureSticks(props, j + 1);
    } else {
      assert props[..j] == props;
    }
  }

  const OptionNames: set<string> := {"minimumLength", "maximumLength", "validProperties", "validValues", "validValueTypes"}

  /** One option changes the minimum length only to a number it names, and the valid properties only to an array it names. */
  lemma ApplyOptionKinds(acc: Setup, name: string, value: JsValue)
    requires ApplyOption(acc, name, value).Success?
    ensures var r := ApplyOption(acc, name, value).value;
      && (r.minimumLength == acc.minimumLength || (name, value) == ("minimumLength", Num(r.minimumLength)))
      && (r.validProperties == acc.validProperties || (name, value) == ("validProperties", Arr(r.validProperties)))
  {
  }

  /** A limit is taken only from a number >= 0 and a list only from an array; otherwise the earlier value stays. */
  lemma {:induction false} ParseOptionsKeepsKinds(props: seq<(string, JsValue)>)
    requires ParseOptions(props).Success?
    ensures var s := ParseOptions(props).value;
      && (s.minimumLength == 0 || exists i :: 0 <= i < |props| && props[i] == ("minimumLength", Num(s.minimumLength)))
      && (s.validProperties == [] || exists i :: 0 <= i < |props| && props[i] == ("validProperties", Arr(s.validProperties)))
  {
    if |props| > 0 {
      var n := |props| - 1;
      var init := props[..n];
      ParseOptionsKeepsKinds(init);
      var last := props[n];
      var before := ParseOptions(init).value;
      assert ParseOptions(props) == ApplyOption(before, last.0, last.1);
      ApplyOptionKinds(before, last.0, last.1);
      var after := ParseOptions(props).value;
      if after.minimumLength != before.minimumLength {
        assert props[n] == ("minimumLength", Num(after.minimumLength));
      } else if after.minimumLength != 0 {
        var i :| 0 <= i < |init| && init[i] == ("minimumLength", Num(before.minimumLength));
        assert props[i] == init[i];
      }
      if after.validProperties != before.validProperties {
        assert props[n] == ("validProperties", Arr(after.validProperties));
      } else if after.validProperties != [] {
        var i :| 0 <= i < |init| && init[i] == ("validProperties", Arr(before.validProperties));
        assert props[i] == init[i];
      }
    }
  }

  /** `list.indexOf(x)` followed by `list.splice(index, 1)` when found. */
  function RemoveFirst(list: seq<string>, x: string): (r: seq<string>)
    ensures x !in list ==> r == list
    ensures x in list ==> |r| == |list| - 1
    ensures forall y :: y in r ==> y in list
  {
    if |list| == 0 then []
    else if list[0] == x then list[1..]
    else [list[0]] + RemoveFirst(list[1..], x)
  }

  /** The own names left over once every valid property name is crossed off once, in order. */
  function Strip(names: seq<string>, valid: seq<JsValue>): seq<string> {
    if |valid| == 0 then names
    else
      var rest := Strip(names, valid[..|valid| - 1]);
      var p := valid[|valid| - 1];
      if p.Str? then RemoveFirst(rest, p.s) else rest
  }

  /** The valid properties the value does not own, in order. */
  function Missing(v: JsValue, valid: seq<JsValue>): seq<JsValue>
    requires !v.Undefined? && !v.Null?
  {
    if |valid| == 0 then []
    else
      var p := valid[|valid| - 1];
      Missing(v, valid[..|valid| - 1]) + (if HasOwnProperty(v, p) then [] else [p])
  }

  /** The values not in the sanctioned list, in order. */
  function Unsanctioned(values: seq<JsValue>, valid: seq<JsValue>): seq<JsValue> {
    if |values| == 0 then []
    else
      var x := values[|values| - 1];
      Unsanctioned(values[..|values| - 1], valid) + (if Includes(valid, x) then [] else [x])
  }

  /** `validValueTypes.includes(typeof x)` */
  predicate HasValidType(validTypes: seq<JsValue>, x: JsValue) {
    Includes(validTypes, Str(TypeOf(x)))
  }

  /** The values whose `typeof` is not in the list of valid types, in order. */
  function UnexpectedTypes(values: seq<JsValue>, validTypes: seq<JsValue>): seq<JsValue> {
    if |values| == 0 then []
    else
      var x := values[|values| - 1];
      UnexpectedTypes(values[..|values| - 1], validTypes) + (if HasValidType(validTypes, x) then [] else [x])
  }

  /** The `typeof` of the last element that is not a number other than NaN, if any. */
  function LastNonNumberType(elems: seq<JsValue>): Option<string> {
    if |elems| == 0 then None
    else if !elems[|elems| - 1].Num? then Some(TypeOf(elems[|elems| - 1]))
    else LastNonNumberType(elems[..|elems| - 1])
  }

  /** The `typeof` of the last element that is not a plain object or null, if any. */
  function LastNonObjectType(elems: seq<JsValue>): Option<string> {
    if |elems| == 0 then None
    else if !IsObjectNotArray(elems[|elems| - 1]) then Some(TypeOf(elems[|elems| - 1]))
    else LastNonObjectType(elems[..|elems| - 1])
  }

  function OrElse(o: Option<string>, fallback: string): string {
    if o.Some? then o.value else fallback
  }

  /**
   * The loop of `isAnObjectThatMustHaveProperties`: each valid property the
   * value owns is crossed off its own names once, each one it lacks is missing.
   */
  method CrossOffProperties(v: JsValue, valid: seq<JsValue>) returns (unexpected: seq<string>, missing: seq<JsValue>)
    requires !v.Undefined? && !v.Null?
    ensures unexpected == Strip(OwnNames(v).value, valid)
    ensures missing == Missing(v, valid)
  {
    var names := OwnNames(v).value;
    unexpected, missing := names, [];
    for i := 0 to |valid|
      invariant missing == Missing(v, valid[..i])
      invariant unexpected == Strip(names, valid[..i])
      invariant forall y :: y in unexpected ==> y in names
    {
      var property := valid[i];
      assert valid[..i + 1][..i] == valid[..i];
      if !HasOwnProperty(v, property) {
        if property.Str? {
          assert RemoveFirst(unexpected, property.s) == unexpected;
        }
        missing := missing + [property];
      } else {
        unexpected := RemoveFirst(unexpected, property.s);
      }
    }
    assert valid[..|valid|] == valid;
  }

  /** The loop of `isObjectThatMustHaveSanctionedValues` over the object's values. */
  method CollectUnsanctioned(values: seq<JsValue>, valid: seq<JsValue>) returns (unexpected: seq<JsValue>)
    ensures unexpected == Unsanctioned(values, valid)
  {
    unexpected := [];
    for i := 0 to |values|
      invariant unexpected == Unsanctioned(values[..i], valid)
    {
      assert values[..i + 1][..i] == values[..i];
      if !Includes(valid, values[i]) {
        unexpected := unexpected + [values[i]];
      }
    }
    assert values[..|values|] == values;
  }

  /** The loop of `isAnObjectThatMustHaveValueType` over the object's values. */
  method CollectUnexpectedTypes(values: seq<JsValue>, validTypes: seq<JsValue>) returns (unexpected: seq<JsValue>)
    ensures unexpected == UnexpectedTypes(values, validTypes)
  {
    unexpected := [];
    for i := 0 to |values|
      invariant unexpected == UnexpectedTypes(values[..i], validTypes)
    {
      assert values[..i + 1][..i] == values[..i];
      if !HasValidType(validTypes, values[i]) {
        unexpected := unexpected + [values[i]];
      }
    }
    assert values[..|values|] == values;
  }

  // ---------------------------------------------------------------------------
  // What the recorded lists mean

  lemma {:induction false} RemoveFirstMembers(list: seq<string>, x: string)
    requires Distinct(list)
    ensures Distinct(RemoveFirst(list, x))
    ensures forall y :: y in RemoveFirst(list, x) <==> y in list && y != x
  {
    if |list| > 0 {
      assert forall j :: 0 <= j < |list[1..]| ==> list[1..][j] == list[j + 1];
      if list[0] != x {
        RemoveFirstMembers(list[1..], x);
        var r := RemoveFirst(list[1..], x);
        assert list[0] !in r;
        assert forall y :: y in [list[0]] + r <==> y == list[0] || y in r;
        forall i, j | 0 <= i < j < |[list[0]] + r|
          ensures ([list[0]] + r)[i] != ([list[0]] + r)[j]
        {
          if i > 0 {
            assert ([list[0]] + r)[i] == r[i - 1];
          }
        }
      } else {
        assert forall y :: y in list <==> y == list[0] || y in list[1..];
      }
    }
  }

  /** With unique own names, the leftovers are exactly the own names that are not valid properties. */
  lemma {:induction false} StripMembers(names: seq<string>, valid: seq<JsValue>)
    requires Distinct(names)
    ensures Distinct(Strip(names, valid))
    ensures forall y :: y in Strip(names, valid) <==> y in names && Str(y) !in valid
  {
    if |valid| > 0 {
      var init := valid[..|valid| - 1];
      var p := valid[|valid| - 1];
      StripMembers(names, init);
      assert valid == init + [p];
      if p.Str? {
        RemoveFirstMembers(Strip(names, init), p.s);
      }
    }
  }

  lemma {:induction false} MissingMembers(v: JsValue, valid: seq<JsValue>)
    requires !v.Undefined? && !v.Null?
    ensures forall p :: p in Missing(v, valid) <==> p in valid && !HasOwnProperty(v, p)
  {
    if |valid| > 0 {
      var init := valid[..|valid| - 1];
      MissingMembers(v, init);
      assert valid == init + [valid[|valid| - 1]];
    }
  }

  lemma {:induction false} UnsanctionedMembers(values: seq<JsValue>, valid: seq<JsValue>)
    ensures forall x :: x in Unsanctioned(values, valid) <==> x in values && !Includes(valid, x)
  {
    if |values| > 0 {
      var init := values[..|values| - 1];
      UnsanctionedMembers(init, valid);
      assert values == init + [values[|values| - 1]];
    }
  }

  lemma {:induction false} UnexpectedTypesMembers(values: seq<JsValue>, validTypes: seq<JsValue>)
    ensures forall x :: x in UnexpectedTypes(values, validTypes) <==> x in values && !HasValidType(validTypes, x)
  {
    if |values| > 0 {
      var init := values[..|values| - 1];
      UnexpectedTypesMembers(init, validTypes);
      assert values == init + [values[|values| - 1]];
    }
  }

  lemma {:induction false} LastNonNumberTypeNone(elems: seq<JsValue>)
    ensures LastNonNumberType(elems).None? <==> forall i :: 0 <= i < |elems| ==> elems[i].Num?
  {
    if |elems| > 0 {
      var init := elems[..|elems| - 1];
      LastNonNumberTypeNone(init);
      assert forall i :: 0 <= i < |init| ==> init[i] == elems[i];
    }
  }

  lemma {:induction false} LastNonObjectTypeNone(elems: seq<JsValue>)
    ensures LastNonObjectType(elems).None? <==> forall i :: 0 <= i < |elems| ==> IsObjectNotArray(elems[i])
  {
    if |elems| > 0 {
      var init := elems[..|elems| - 1];
      LastNonObjectTypeNone(init);
      assert forall i :: 0 <= i < |init| ==> init[i] == elems[i];
    }
  }

  /** `isAnObjectThatMustHaveProperties` passes iff the own names and the valid properties are the same set. */
  lemma MustHavePropertiesMeaning(v: JsValue, valid: seq<JsValue>)
    requires v.Obj? && DistinctKeys(v)
    ensures (Strip(Keys(v.props), valid) == [] && Missing(v, valid) == []) <==>
              (forall p :: p in valid ==> p.Str? && p.s in Keys(v.props)) &&
              (forall k :: k in Keys(v.props) ==> Str(k) in valid)
  {
    StripMembers(Keys(v.props), valid);
    MissingMembers(v, valid);
    if Strip(Keys(v.props), valid) != [] {
      assert Strip(Keys(v.props), valid)[0] in Strip(Keys(v.props), valid);
    }
    if Missing(v, valid) != [] {
      assert Missing(v, valid)[0] in Missing(v, valid);
    }
  }

  /** `isAnObjectThatMayHaveProperties` passes iff every own name is a valid property. */
  lemma MayHavePropertiesMeaning(v: JsValue, valid: seq<JsValue>)
    requires v.Obj? && DistinctKeys(v)
    ensures Strip(Keys(v.props), valid) == [] <==> forall k :: k in Keys(v.props) ==> Str(k) in valid
  {
    StripMembers(Keys(v.props), valid);
    if Strip(Keys(v.props), valid) != [] {
      assert Strip(Keys(v.props), valid)[0] in Strip(Keys(v.props), valid);
    }
  }

  /** What a collection reports: the six output fields. */
  datatype Diagnostics = Diagnostics(
    unexpectedProperties: seq<string>,
    missingProperties: seq<JsValue>,
    unexpectedValues: seq<JsValue>,
    unexpectedValueTypes: seq<JsValue>,
    missingValues: seq<JsValue>,
    typeThatFailed: string)

  /**
   * `isNegativeNumber` negates before it checks, and negation converts an
   * array through its text: `[]` and `[-5]` pass, an array of two numbers fails.
   */
  lemma NegatedArrays(n: int, m: int)
    ensures IsPositiveNumberValue(Negate(Arr([])))
    ensures IsPositiveNumberValue(Negate(Arr([Num(n)]))) <==> n <= 0
    ensures !IsPositiveNumberValue(Negate(Arr([Num(n), Num(m)])))
  {
    ArrayToNumber(n);
    PairToNumber(n, m);
  }

  class ValidationCollection {
    // input properties
    var minimumLength: nat
    var maximumLength: nat
    var validProperties: seq<JsValue>
    var validValues: seq<JsValue>
    var validValueTypes: seq<JsValue>

    // output properties; the getters return copies, which for sequences are the values themselves
    var unexpectedProperties: seq<string>
    var missingProperties: seq<JsValue>
    var unexpectedValues: seq<JsValue>
    var unexpectedValueTypes: seq<JsValue>
    var missingValues: seq<JsValue>
    var typeThatFailed: string

    function Configuration(): Setup
      reads this
    {
      Setup(minimumLength, maximumLength, validProperties, validValues, validValueTypes, typeThatFailed)
    }

    function Diag(): Diagnostics
      reads this
    {
      Diagnostics(unexpectedProperties, missingProperties, unexpectedValues, unexpectedValueTypes, missingValues, typeThatFailed)
    }

    /** The field initialisers. */
    constructor Blank()
      ensures Configuration() == DefaultSetup
      ensures Diag() == Diagnostics([], [], [], [], [], "")
    {
      minimumLength, maximumLength := 0, 0;
      validProperties, validValues, validValueTypes := [], [], [];
      unexpectedProperties, missingProperties, unexpectedValues := [], [], [];
      unexpectedValueTypes, missingValues, typeThatFailed := [], [], "";
    }

    /** `new ValidationCollection(argumentObject)` */
    static method New(argumentObject: JsValue) returns (r: Result<ValidationCollection>)
      ensures argumentObject.Null? ==> r == Failure(TypeError("Cannot convert undefined or null to object"))
      ensures !argumentObject.Obj? && !argumentObject.Null? ==> r == Failure(TypeError("argumentObject must be an object"))
      ensures argumentObject.Obj? && ParseOptions(argumentObject.props).Failure? ==>
                r == Failure(ParseOptions(argumentObject.props).error)
      ensures argumentObject.Obj? && ParseOptions(argumentObject.props).Success? ==> r.Success?
      ensures r.Success? ==>
                && fresh(r.value)
                && argumentObject.Obj?
                && r.value.Configuration() == ParseOptions(argumentObject.props).value
                && r.value.Diag() == Diagnostics([], [], [], [], [], r.value.typeThatFailed)
    {
      if !argumentObject.Obj? {
        if argumentObject.Null? {
          return Failure(TypeError("Cannot convert undefined or null to object"));
        }
        return Failure(TypeError("argumentObject must be an object"));
      }
      var props := argumentObject.props;
      var vc := new ValidationCollection.Blank();
      var i := 0;
      while i < |props|
        invariant 0 <= i <= |props|
        invariant ParseOptions(props[..i]) == Success(vc.Configuration())
        invariant vc.Diag() == Diagnostics([], [], [], [], [], vc.typeThatFailed)
      {
        var (property, value) := props[i];
        assert props[..i + 1][..i] == props[..i];
        assert props[..i + 1][i] == props[i];
        var known := vc.SetOption(property, value);
        if !known {
          ParseOptionsFailureSticks(props, i + 1);
          return Failure(Error("argumentObject contains an invalid property: " + property));
        }
        i := i + 1;
      }
      assert props[..|props|] == props;
      return Success(vc);
    }

    /** One pass of the constructor's loop: an option is taken when its value passes its check. */
    method SetOption(property: string, value: JsValue) returns (known: bool)
      modifies this`minimumLength, this`maximumLength, this`validProperties, this`validValues,
               this`validValueTypes, this`typeThatFailed
      ensures known <==> property in OptionNames
      ensures known ==> ApplyOption(old(Configuration()), property, value) == Success(Configuration())
      ensures !known ==> Configuration() == old(Configuration())
      ensures Diag() == old(Diag()).(typeThatFailed := typeThatFailed)
    {
      known := true;
      if property == "minimumLength" {
        var ok := IsPositiveNumber(value);
        if ok {
          minimumLength := value.n;
        }
      } else if property == "maximumLength" {
        var ok := IsPositiveNumber(value);
        if ok {
          maximumLength := value.n;
        }
      } else if property == "validProperties" {
        var ok := IsArray(value);
        if ok {
          validProperties := value.elems;
        }
      } else if property == "validValues" {
        var ok := IsArray(value);
        if ok {
          validValues := value.elems;
        }
      } else if property == "validValueTypes" {
        var ok := IsArray(value);
        if ok {
          validValueTypes := value.elems;
        }
      } else {
        known := false;
      }
    }

    method IsString(unknownData: JsValue) returns (result: bool)
      modifies this`typeThatFailed
      ensures result == unknownData.Str?
      ensures typeThatFailed == if result then old(typeThatFailed) else TypeOf(unknownData)
    {
      result := true;
      if unknownData.Undefined? || unknownData.Null? || TypeOf(unknownData) != "string" {
        result := false;
        typeThatFailed := TypeOf(unknownData);
      }
    }

    method IsNumber(unknownData: JsValue) returns (result: bool)
      modifies this`typeThatFailed
      ensures result == unknownData.Num?
      ensures typeThatFailed == if result then old(typeThatFailed) else TypeOf(unknownData)
    {
      result := true;
      if unknownData.Undefined? || unknownData.Null? || TypeOf(unknownData) != "number" || IsNaN(unknownData) {
        result := false;
        typeThatFailed := TypeOf(unknownData);
      }
    }

    method IsPositiveNumber(unknownData: JsValue) returns (result: bool)
      modifies this`typeThatFailed
      ensures result == IsPositiveNumberValue(unknownData)
      ensures typeThatFailed == if result then old(typeThatFailed) else TypeOf(unknownData)
    {
      result := true;
      if unknownData.Undefined? || unknownData.Null? || TypeOf(unknownData) != "number" || IsNaN(unknownData)
         || unknownData.n < 0
      {
        result := false;
        typeThatFailed := TypeOf(unknownData);
      }
    }

    /** `isPositiveNumber(-unknownData)`, so it also converts strings and booleans. */
    method IsNegativeNumber(unknownData: JsValue) returns (result: bool)
      modifies this`typeThatFailed
      ensures result == IsPositiveNumberValue(Negate(unknownData))
      ensures unknownData.Num? ==> (result <==> unknownData.n <= 0)
      ensures typeThatFailed == if result then old(typeThatFailed) else "number"
    {
      result := IsPositiveNumber(Negate(unknownData));
    }

    /** True iff the value is a number with min <= value <= max; only a non-number records its type. */
    method IsNumberBetweenMinMax(unknownData: JsValue, min: int, max: int) returns (result: bool)
      modifies this`typeThatFailed
      ensures result <==> unknownData.Num? && min <= unknownData.n <= max
      ensures typeThatFailed == if unknownData.Num? then old(typeThatFailed) else TypeOf(unknownData)
    {
      result := IsNumber(unknownData);
      if result && (unknownData.n < min || unknownData.n > max) {
        result := false;
      }
    }

    /** The source returns the object itself or false; only its truthiness is used. */
    method IsAnObject(unknownData: JsValue) returns (result: bool)
      modifies this`typeThatFailed
      ensures result == unknownData.Obj?
      ensures typeThatFailed == if result then old(typeThatFailed) else TypeOf(unknownData)
    {
      result := true;
      if unknownData.Undefined? || unknownData.Null? || TypeOf(unknownData) != "object" || unknownData.Arr? {
        result := false;
        typeThatFailed := TypeOf(unknownData);
      }
    }

    method IsAnObjectThatMustHaveProperties(unknownData: JsValue) returns (r: Result<bool>)
      modifies this`typeThatFailed, this`unexpectedProperties, this`missingProperties
      ensures typeThatFailed == if unknownData.Obj? then old(typeThatFailed) else TypeOf(unknownData)
      ensures unknownData.Undefined? || unknownData.Null? ==>
                && r == Failure(OwnNames(unknownData).error)
                && unexpectedProperties == old(unexpectedProperties)
                && missingProperties == old(missingProperties)
      ensures !unknownData.Undefined? && !unknownData.Null? ==>
                var unexpected := Strip(OwnNames(unknownData).value, validProperties);
                var missing := Missing(unknownData, validProperties);
                && r == Success(unknownData.Obj? && unexpected == [] && missing == [])
                && unexpectedProperties == (if unexpected != [] then unexpected else old(unexpectedProperties))
                && missingProperties == (if missing != [] then missing else old(missingProperties))
    {
      var result := IsAnObject(unknownData);
      var names := OwnNames(unknownData);
      if names.Failure? {
        return Failure(names.error);
      }
      var unexpected, missing := CrossOffProperties(unknownData, validProperties);
      result := result && missing == [];
      if |unexpected| > 0 {
        result := false;
        unexpectedProperties := unexpected;
      }
      if |missing| > 0 {
        result := false;
        missingProperties := missing;
      }
      return Success(result);
    }

    method IsAnObjectThatMayHaveProperties(unknownData: JsValue) returns (r: Result<bool>)
      modifies this`typeThatFailed, this`unexpectedProperties
      ensures typeThatFailed == if unknownData.Obj? then old(typeThatFailed) else TypeOf(unknownData)
      ensures unknownData.Undefined? || unknownData.Null? ==>
                r == Failure(OwnNames(unknownData).error) && unexpectedProperties == old(unexpectedProperties)
      ensures !unknownData.Undefined? && !unknownData.Null? ==>
                var unexpected := Strip(OwnNames(unknownData).value, validProperties);
                && r == Success(unknownData.Obj? && unexpected == [])
                && unexpectedProperties == (if unexpected != [] then unexpected else old(unexpectedProperties))
    {
      var result := IsAnObject(unknownData);
      var names := OwnNames(unknownData);
      if names.Failure? {
        return Failure(names.error);
      }
      var unexpected := names.value;
      var i := 0;
      while i < |validProperties|
        invariant 0 <= i <= |validProperties|
        invariant unexpected == Strip(names.value, validProperties[..i])
      {
        var property := validProperties[i];
        assert validProperties[..i + 1][..i] == validProperties[..i];
        assert validProperties[..i + 1][i] == property;
        ghost var before := unexpected;
        assert Strip(names.value, validProperties[..i + 1]) ==
               if property.Str? then RemoveFirst(before, property.s) else before;
        if property.Str? && property.s in unexpected {
          unexpected := RemoveFirst(unexpected, property.s);
        } else if property.Str? {
          assert RemoveFirst(before, property.s) == before;
        }
        assert unexpected == Strip(names.value, validProperties[..i + 1]);
        i := i + 1;
      }
      assert validProperties[..|validProperties|] == validProperties;
      if |unexpected| > 0 {
        result := false;
        unexpectedProperties := unexpected;
      }
      return Success(result);
    }

    method IsAnObjectThatMayHavePropertiesAndMustHaveMinLength(unknownData: JsValue) returns (r: Result<bool>)
      modifies this`typeThatFailed, this`unexpectedProperties
      ensures typeThatFailed == if unknownData.Obj? then old(typeThatFailed) else TypeOf(unknownData)
      ensures unknownData.Undefined? || unknownData.Null? ==>
                r == Failure(OwnNames(unknownData).error) && unexpectedProperties == old(unexpectedProperties)
      ensures !unknownData.Undefined? && !unknownData.Null? ==>
                var unexpected := Strip(OwnNames(unknownData).value, validProperties);
                && r == Success(unknownData.Obj? && unexpected == [] && |unknownData.props| >= minimumLength)
                && unexpectedProperties == (if unexpected != [] then unexpected else old(unexpectedProperties))
    {
      var result :- IsAnObjectThatMayHaveProperties(unknownData);
      if result && |OwnNames(unknownData).value| < minimumLength {
        result := false;
      }
      return Success(result);
    }

    method IsArray(unknownData: JsValue) returns (result: bool)
      modifies this`typeThatFailed
      ensures result == unknownData.Arr?
      ensures typeThatFailed == if result then old(typeThatFailed) else TypeOf(unknownData)
    {
      result := true;
      if unknownData.Undefined? || unknownData.Null? || !unknownData.Arr? {
        result := false;
        typeThatFailed := TypeOf(unknownData);
      }
    }

    method IsArrayThatMustHaveMinLength(unknownData: JsValue) returns (result: bool)
      modifies this`typeThatFailed
      ensures result <==> unknownData.Arr? && |unknownData.elems| >= minimumLength
      ensures typeThatFailed == if unknownData.Arr? then old(typeThatFailed) else TypeOf(unknownData)
    {
      result := IsArray(unknownData);
      if result && |unknownData.elems| < minimumLength {
        result := false;
      }
    }

    method IsArrayThatMustHaveMaxLength(unknownData: JsValue) returns (result: bool)
      modifies this`typeThatFailed
      ensures result <==> unknownData.Arr? && |unknownData.elems| <= maximumLength
      ensures typeThatFailed == if unknownData.Arr? then old(typeThatFailed) else TypeOf(unknownData)
    {
      result := IsArray(unknownData);
      if result && |unknownData.elems| > maximumLength {
        result := false;
      }
    }

    method IsArrayThatMustHaveMinAndMaxLength(unknownData: JsValue) returns (result: bool)
      modifies this`typeThatFailed
      ensures result <==> unknownData.Arr? && minimumLength <= |unknownData.elems| <= maximumLength
      ensures typeThatFailed == if unknownData.Arr? then old(typeThatFailed) else TypeOf(unknownData)
    {
      result := IsArray(unknownData);
      if result && (|unknownData.elems| < minimumLength || |unknownData.elems| > maximumLength) {
        result := false;
      }
    }

    method IsObjectThatMustHaveSanctionedValues(unknownData: JsValue) returns (result: bool)
      modifies this`typeThatFailed, this`unexpectedValues
      ensures typeThatFailed == if unknownData.Obj? then old(typeThatFailed) else TypeOf(unknownData)
      ensures !unknownData.Obj? ==> !result && unexpectedValues == old(unexpectedValues)
      ensures unknownData.Obj? ==>
                var bad := Unsanctioned(Values(unknownData.props), validValues);
                && result == (bad == [])
                && unexpectedValues == (if bad != [] then bad else old(unexpectedValues))
    {
      result := IsAnObject(unknownData);
      if result {
        var unexpected := CollectUnsanctioned(Values(unknownData.props), validValues);
        result := unexpected == [];
        if |unexpected| > 0 {
          unexpectedValues := unexpected;
        }
      }
    }

    /** Records the offending values in `unexpectedValues`, not in `unexpectedValueTypes`. */
    method IsAnObjectThatMustHaveValueType(unknownData: JsValue) returns (result: bool)
      modifies this`typeThatFailed, this`unexpectedValues
      ensures typeThatFailed == if unknownData.Obj? then old(typeThatFailed) else TypeOf(unknownData)
      ensures !unknownData.Obj? ==> !result && unexpectedValues == old(unexpectedValues)
      ensures unknownData.Obj? ==>
                var bad := UnexpectedTypes(Values(unknownData.props), validValueTypes);
                && result == (bad == [])
                && unexpectedValues == (if bad != [] then bad else old(unexpectedValues))
    {
      result := IsAnObject(unknownData);
      if result {
        var unexpected := CollectUnexpectedTypes(Values(unknownData.props), validValueTypes);
        result := unexpected == [];
        if |unexpected| > 0 {
          unexpectedValues := unexpected;
        }
      }
    }

    /** True iff an array of numbers other than NaN; records the type of the last offending element. */
    method IsArrayOfNumbers(unknownData: JsValue) returns (result: bool)
      modifies this`typeThatFailed
      ensures result <==> unknownData.Arr? && LastNonNumberType(unknownData.elems).None?
      ensures typeThatFailed ==
                if !unknownData.Arr? then TypeOf(unknownData)
                else OrElse(LastNonNumberType(unknownData.elems), old(typeThatFailed))
    {
      result := IsArray(unknownData);
      if result {
        var elems := unknownData.elems;
        var i := 0;
        while i < |elems|
          invariant 0 <= i <= |elems|
          invariant result == LastNonNumberType(elems[..i]).None?
          invariant typeThatFailed == OrElse(LastNonNumberType(elems[..i]), old(typeThatFailed))
        {
          assert elems[..i + 1][..i] == elems[..i];
          if TypeOf(elems[i]) != "number" || IsNaN(elems[i]) {
            result := false;
            typeThatFailed := TypeOf(elems[i]);
          }
          i := i + 1;
        }
        assert elems[..|elems|] == elems;
      }
    }

    /** True iff an array whose elements all have `typeof` 'object' and are not arrays; null passes. */
    method IsArrayOfObjects(unknownData: JsValue) returns (result: bool)
      modifies this`typeThatFailed
      ensures result <==> unknownData.Arr? && LastNonObjectType(unknownData.elems).None?
      ensures typeThatFailed ==
                if !unknownData.Arr? then TypeOf(unknownData)
                else OrElse(LastNonObjectType(unknownData.elems), old(typeThatFailed))
    {
      result := IsArray(unknownData);
      if result {
        var elems := unknownData.elems;
        var i := 0;
        while i < |elems|
          invariant 0 <= i <= |elems|
          invariant result == LastNonObjectType(elems[..i]).None?
          invariant typeThatFailed == OrElse(LastNonObjectType(elems[..i]), old(typeThatFailed))
        {
          assert elems[..i + 1][..i] == elems[..i];
          if TypeOf(elems[i]) != "object" || elems[i].Arr? {
            result := false;
            typeThatFailed := TypeOf(elems[i]);
          }
          i := i + 1;
        }
        assert elems[..|elems|] == elems;
      }
    }

    method IsOfValidValueType(unknownData: JsValue) returns (result: bool)
      modifies this`typeThatFailed
      ensures result == Includes(validValueTypes, Str(TypeOf(unknownData)))
      ensures typeThatFailed == if result then old(typeThatFailed) else TypeOf(unknownData)
    {
      result := true;
      if !Includes(validValueTypes, Str(TypeOf(unknownData))) {
        result := false;
        typeThatFailed := TypeOf(unknownData);
      }
    }
  }
}
