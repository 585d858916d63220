/**
 * The host language's dynamically typed values, as far as the validators and
 * value objects inspect them: `typeof`, truthiness, `||` and `??`, own
 * property names, `Number(...)` / `isNaN` / `parseInt` on integers, and the
 * two exception classes the component throws.
 *
 * Numbers are integers (plus NaN); objects are lists of key/value pairs,
 * read in own-property order: the order `Object.keys` lists them in, which puts
 * integer-like keys first, ascending, and the other keys after them in
 * insertion order.  Two arrays or objects are never the same reference, so
 * `includes` never finds one.
 */
module Js {
  import opened Strings

  datatype JsValue =
    | Undefined
    | Null
    | Bool(b: bool)
    | Num(n: int)
    | NaN
    | Str(s: string)
    | Arr(elems: seq<JsValue>)
    | Obj(props: seq<(string, JsValue)>)

  /** The two exception classes the component throws, with their message. */
  datatype Thrown = TypeError(message: string) | Error(message: string)

  /** Either a returned value or a thrown exception. */
  datatype Result<+T> = Success(value: T) | Failure(error: Thrown) {
    predicate IsFailure() {
      Failure?
    }

    function PropagateFailure<U>(): Result<U>
      requires Failure?
    {
      Failure(error)
    }

    function Extract(): T
      requires Success?
    {
      value
    }
  }

  datatype Option<+T> = None | Some(value: T)

  /** `typeof v` */
  function TypeOf(v: JsValue): string {
    match v
    case Undefined => "undefined"
    case Bool(_) => "boolean"
    case Num(_) => "number"
    case NaN => "number"
    case Str(_) => "string"
    case _ => "object"
  }

  /** `typeof v === 'number'` */
  predicate IsNumber(v: JsValue) {
    v.Num? || v.NaN?
  }

  /** `typeof v === 'object' && !Array.isArray(v)`: plain objects and `null`. */
  predicate IsObjectNotArray(v: JsValue) {
    v.Obj? || v.Null?
  }

  /** `Object.keys(o)` of a plain object: the entry list, which is kept in own-property order. */
  function Keys(props: seq<(string, JsValue)>): (ks: seq<string>)
    ensures |ks| == |props|
    ensures forall i :: 0 <= i < |props| ==> ks[i] == props[i].0
  {
    if |props| == 0 then [] else [props[0].0] + Keys(props[1..])
  }

  /** `Object.values(o)` of a plain object, in the same order as its keys. */
  function Values(props: seq<(string, JsValue)>): (vs: seq<JsValue>)
    ensures |vs| == |props|
    ensures forall i :: 0 <= i < |props| ==> vs[i] == props[i].1
  {
    if |props| == 0 then [] else [props[0].1] + Values(props[1..])
  }

  /** `o[key]` for a plain object: the value of the first entry with that key, else undefined. */
  function Lookup(props: seq<(string, JsValue)>, key: string): (r: JsValue)
    ensures key !in Keys(props) ==> r == Undefined
    ensures key in Keys(props) ==> exists i :: 0 <= i < |props| && props[i] == (key, r)
  {
    if |props| == 0 then Undefined
    else if props[0].0 == key then props[0].1
    else
      var r := Lookup(props[1..], key);
      assert key in Keys(props[1..]) ==> exists i :: 0 <= i < |props[1..]| && props[1..][i] == (key, r);
      r
  }

  /** With unique keys, looking an entry's key up finds that entry's value. */
  lemma {:induction false} LookupDistinct(props: seq<(string, JsValue)>, i: nat)
    requires Distinct(Keys(props)) && i < |props|
    ensures Lookup(props, props[i].0) == props[i].1
  {
    if i > 0 {
      assert Keys(props)[0] != Keys(props)[i];
      assert Distinct(Keys(props[1..])) by {
        forall a, b | 0 <= a < b < |props[1..]|
          ensures Keys(props[1..])[a] != Keys(props[1..])[b]
        {
          assert Keys(props)[a + 1] != Keys(props)[b + 1];
        }
      }
      LookupDistinct(props[1..], i - 1);
      assert props[1..][i - 1] == props[i];
    }
  }

  /** `v[key]` where only plain objects carry named properties. */
  function Get(v: JsValue, key: string): JsValue {
    if v.Obj? then Lookup(v.props, key) else Undefined
  }

  predicate Distinct<T(==)>(s: seq<T>) {
    forall i, j :: 0 <= i < j < |s| ==> s[i] != s[j]
  }

  /** A plain object's own property names are unique, as in every host object. */
  predicate DistinctKeys(v: JsValue) {
    v.Obj? ==> Distinct(Keys(v.props))
  }

  /** ToBoolean */
  predicate Truthy(v: JsValue) {
    match v
    case Undefined => false
    case Null => false
    case Bool(b) => b
    case Num(n) => n != 0
    case NaN => false
    case Str(s) => s != ""
    case _ => true
  }

  /** `a || b` */
  function Or(a: JsValue, b: JsValue): JsValue {
    if Truthy(a) then a else b
  }

  /** `a ?? b` */
  function Coalesce(a: JsValue, b: JsValue): JsValue {
    if a.Undefined? || a.Null? then b else a
  }

  /** An optionally signed run of decimal digits. */
  predicate IsIntegerToken(t: string) {
    if |t| >= 1 && (t[0] == '-' || t[0] == '+') then |t| >= 2 && AllDigits(t[1..])
    else |t| >= 1 && AllDigits(t)
  }

  function TokenValue(t: string): int
    requires IsIntegerToken(t)
  {
    if t[0] == '-' then -(DigitsValue(t[1..]) as int)
    else if t[0] == '+' then DigitsValue(t[1..])
    else DigitsValue(t)
  }

  /** `Number(s)` for strings holding an integer, blank strings (0) and everything else (NaN). */
  function StringToNumber(s: string): (r: JsValue)
    ensures IsNumber(r)
  {
    var t := Trim(s);
    if t == "" then Num(0)
    else if IsIntegerToken(t) then Num(TokenValue(t))
    else NaN
  }

  /**
   * ToNumber.  An array or object is first turned into its string, as
   * `Array.prototype.join` or `Object.prototype.toString` writes it.
   */
  function ToNumber(v: JsValue): (r: JsValue)
    ensures IsNumber(r)
  {
    match v
    case Undefined => NaN
    case Null => Num(0)
    case Bool(b) => Num(if b then 1 else 0)
    case Num(n) => v
    case NaN => NaN
    case Str(s) => StringToNumber(s)
    case Arr(_) => StringToNumber(Display(v))
    case Obj(_) => NaN
  }

  /** An array converts through its joined text: an empty one to 0, one holding a single number to that number. */
  lemma ArrayToNumber(n: int)
    ensures ToNumber(Arr([])) == Num(0)
    ensures ToNumber(Arr([Num(n)])) == Num(n)
    ensures ToNumber(Arr([Str(IntToString(n))])) == Num(n)
  {
    DisplaySingle(Num(n));
    DisplaySingle(Str(IntToString(n)));
    NumberOfRendered(n);
  }

  /** A one-element array is written as its element. */
  lemma DisplaySingle(e: JsValue)
    ensures Display(Arr([e])) == Display(e)
  {
    var parts := seq(1, i requires 0 <= i < 1 => Display([e][i]));
    assert |parts| == 1 && parts[0] == Display(e);
  }

  /** An array of two numbers joins to text with a comma, which is no number. */
  lemma PairToNumber(n: int, m: int)
    ensures ToNumber(Arr([Num(n), Num(m)])).NaN?
  {
    var a, b := IntToString(n), IntToString(m);
    var parts := seq(2, i requires 0 <= i < 2 => Display([Num(n), Num(m)][i]));
    assert parts == [a, b];
    assert JoinWith([a, b], ",") == a + "," + b;
    assert Display(Arr([Num(n), Num(m)])) == a + "," + b;
    assert !IsWhitespace(a[0]) by {
      if n >= 0 {
        assert IsDigit(a[0]);
      }
    }
    assert IsDigit(b[|b| - 1]) by {
      if m < 0 {
        assert b[|b| - 1] == NatToString(-m)[|NatToString(-m)| - 1];
      }
    }
    CommaIsNoNumber(a, b);
  }

  /** Text holding a comma between two non-blank parts is not a number. */
  lemma CommaIsNoNumber(a: string, b: string)
    requires |a| > 0 && |b| > 0 && !IsWhitespace(a[0]) && !IsWhitespace(b[|b| - 1])
    ensures StringToNumber(a + "," + b).NaN?
  {
    var t := a + "," + b;
    assert t[0] == a[0] && t[|t| - 1] == b[|b| - 1];
    TrimOfUnpadded(t);
    assert t[|a|] == ',' && !IsDigit(t[|a|]);
    if t[0] == '-' || t[0] == '+' {
      assert t[1..][|a| - 1] == t[|a|];
    }
    assert !IsIntegerToken(t);
  }

  /** A string that starts and ends with a non-blank character is its own trim. */
  lemma TrimOfUnpadded(t: string)
    requires |t| > 0 && !IsWhitespace(t[0]) && !IsWhitespace(t[|t| - 1])
    ensures Trim(t) == t
  {
    assert TrimStart(t) == t;
  }

  /** `Number(String(n)) == n` */
  lemma NumberOfRendered(n: int)
    ensures StringToNumber(IntToString(n)) == Num(n)
  {
    var t := IntToString(n);
    if n < 0 {
      var digits := NatToString(-n);
      NatToStringValue(-n);
      assert t == "-" + digits && t[1..] == digits;
      assert !IsWhitespace(t[|t| - 1]) by {
        assert t[|t| - 1] == digits[|digits| - 1];
      }
      TrimOfUnpadded(t);
      assert IsIntegerToken(t);
      assert TokenValue(t) == n;
    } else {
      NatToStringValue(n);
      assert IsDigit(t[0]) && IsDigit(t[|t| - 1]);
      TrimOfUnpadded(t);
      assert IsIntegerToken(t);
      assert TokenValue(t) == n;
    }
  }



  /** The global `isNaN(v)`, which converts its argument first. */
  predicate IsNaN(v: JsValue) {
    ToNumber(v).NaN?
  }

  /** `-v` */
  function Negate(v: JsValue): JsValue {
    var x := ToNumber(v);
    if x.Num? then Num(-x.n) else NaN
  }

  /** `parseInt(s)`: skip whitespace, an optional sign, then the longest run of digits. */
  function ParseInt(s: string): (r: JsValue)
    ensures IsNumber(r)
  {
    var t := TrimStart(s);
    var negative := |t| > 0 && t[0] == '-';
    var body := if |t| > 0 && (t[0] == '-' || t[0] == '+') then t[1..] else t;
    var k := DigitRun(body);
    if k == 0 then NaN
    else
      var m: int := DigitsValue(body[..k]);
      Num(if negative then -m else m)
  }

  /** `String(v)` / template interpolation of a number. */
  function NumberToString(v: JsValue): (r: string)
    requires IsNumber(v)
    ensures |r| >= 1
  {
    if v.Num? then IntToString(v.n) else "NaN"
  }

  lemma ParseIntOfDigits(ds: string, rest: string)
    requires |ds| > 0 && AllDigits(ds)
    requires |rest| > 0 && !IsDigit(rest[0])
    ensures ParseInt(ds + rest) == Num(DigitsValue(ds))
  {
    var s := ds + rest;
    assert s[0] == ds[0];
    assert !IsWhitespace(s[0]) && s[0] != '-' && s[0] != '+';
    assert TrimStart(s) == s;
    DigitRunAfterDigits(ds, rest);
    assert DigitRun(rest) == 0;
    var k := DigitRun(s);
    assert k == |ds|;
    assert s[..k] == ds;
    assert ParseInt(s) == Num(DigitsValue(s[..k]));
  }

  /** Reading back a rendered non-negative number (or NaN) followed by a non-digit. */
  lemma ParseIntOfRendered(v: JsValue, rest: string)
    requires v.NaN? || (v.Num? && v.n >= 0)
    requires |rest| > 0 && !IsDigit(rest[0])
    ensures ParseInt(NumberToString(v) + rest) == v
  {
    if v.Num? {
      ParseIntOfDigits(NatToString(v.n), rest);
      NatToStringValue(v.n);
    } else {
      var s := "NaN" + rest;
      assert s[0] == 'N' && !IsWhitespace(s[0]);
      assert TrimStart(s) == s;
    }
  }

  /**
   * `String(v)` as `Array.prototype.join` applies it to each element: undefined
   * and null become the empty string, an array joins its elements with commas.
   */
  function Display(v: JsValue): string
    decreases v
  {
    match v
    case Undefined => ""
    case Null => ""
    case Bool(b) => if b then "true" else "false"
    case Num(n) => IntToString(n)
    case NaN => "NaN"
    case Str(s) => s
    case Arr(elems) => JoinWith(seq(|elems|, i requires 0 <= i < |elems| => Display(elems[i])), ",")
    case Obj(_) => "[object Object]"
  }

  /** `values.join(', ')` */
  function JoinValues(values: seq<JsValue>): string {
    JoinWith(seq(|values|, i requires 0 <= i < |values| => Display(values[i])), ", ")
  }

  /** The index names "0" … "n-1" of an array or string. */
  function IndexNames(n: nat): (r: seq<string>)
    ensures |r| == n
    ensures forall i :: 0 <= i < n ==> r[i] == NatToString(i)
  {
    if n == 0 then [] else IndexNames(n - 1) + [NatToString(n - 1)]
  }

  /** `Object.getOwnPropertyNames(v)`; it throws for undefined and null. */
  function OwnNames(v: JsValue): Result<seq<string>> {
    match v
    case Undefined => Failure(TypeError("Cannot convert undefined or null to object"))
    case Null => Failure(TypeError("Cannot convert undefined or null to object"))
    case Obj(props) => Success(Keys(props))
    case Arr(elems) => Success(IndexNames(|elems|) + ["length"])
    case Str(s) => Success(IndexNames(|s|) + ["length"])
    case _ => Success([])
  }

  /**
   * `v.hasOwnProperty(p)` for a value that is neither undefined nor null.
   * Only string names are looked up; any other `p` names nothing.
   */
  predicate HasOwnProperty(v: JsValue, p: JsValue)
    requires !v.Undefined? && !v.Null?
  {
    p.Str? && p.s in OwnNames(v).value
  }

  /** `list.includes(v)`: same primitive value (NaN finds NaN); an array or object is never found. */
  predicate Includes(list: seq<JsValue>, v: JsValue) {
    !v.Arr? && !v.Obj? && v in list
  }

  /** `v.length` */
  function LengthOf(v: JsValue): JsValue {
    match v
    case Str(s) => Num(|s|)
    case Arr(elems) => Num(|elems|)
    case Obj(props) => Lookup(props, "length")
    case _ => Undefined
  }

  function StrSeq(names: seq<string>): (r: seq<JsValue>)
    ensures |r| == |names|
    ensures forall i :: 0 <= i < |names| ==> r[i] == Str(names[i])
  {
    if |names| == 0 then [] else [Str(names[0])] + StrSeq(names[1..])
  }
}
