/**
 * The page's input helpers: a character-class check that a text field holds
 * something shaped like an array of numbers, and two converters from such a
 * text to an array, one that reads each piece as a number and one that keeps
 * the pieces as strings after refusing a list of dangerous characters.
 * The regular expressions are written out as character predicates and counts.
 */
module Helpers {
  import opened Strings
  import opened Js

  // ---------------------------------------------------------------- characters and counts

  /** The characters `/[^0-9\[\]\,\.-\s]/` does not match. */
  predicate IsAllowedCharacter(c: char) {
    IsDigit(c) || c == '[' || c == ']' || c == ',' || c == '.' || c == '-' || IsWhitespace(c)
  }

  /** The characters of the dangerous-character class of the unsafe converter. */
  const DangerousCharacters: string := "<>(){}*/?!@#$%^&=_`~:\\'\";"

  predicate HasDangerousCharacter(s: string) {
    exists i :: 0 <= i < |s| && s[i] in DangerousCharacters
  }

  lemma {:induction false} CountCharAppend(a: string, b: string, c: char)
    ensures CountChar(a + b, c) == CountChar(a, c) + CountChar(b, c)
    decreases |a|
  {
    if |a| > 0 {
      assert (a + b)[0] == a[0];
      assert (a + b)[1..] == a[1..] + b;
      CountCharAppend(a[1..], b, c);
    } else {
      assert a + b == b;
    }
  }

  /** `.length === 0`, for the values that have a length. */
  predicate LengthIsZero(v: JsValue) {
    match v
    case Str(s) => |s| == 0
    case Arr(elems) => |elems| == 0
    case Obj(_) => Get(v, "length") == Num(0)
    case _ => false
  }

  const NotAFunctionMessage := "untrustedUserInput.match is not a function"
  const NullLengthMessage := "Cannot read properties of null (reading 'length')"

  // ---------------------------------------------------------------- isVerifiableInputIntegrity

  /** `untrustedUserInput[1]`: a one-character string, or undefined past the end. */
  function SecondCharacter(s: string): JsValue {
    if |s| >= 2 then Str([s[1]]) else Undefined
  }

  /** `isNaN(c)` of a one-character string: NaN unless it is a digit or blank. */
  lemma SingleCharacterNumber(c: char)
    ensures IsNaN(Str([c])) <==> !IsDigit(c) && !IsWhitespace(c)
  {
    var s := [c];
    if IsWhitespace(c) {
      assert TrimStart(s[1..]) == "";
      assert Trim(s) == "";
    } else {
      assert TrimStart(s) == s;
      assert TrimEnd(s) == s;
      assert Trim(s) == s;
      if IsDigit(c) {
        assert IsIntegerToken(s);
      }
    }
  }

  /**
   * `isVerifiableInputIntegrity` as written.  A string in the allowed character
   * set without `[`, or with one `[` and no `]`, makes `match` return null, and
   * reading `.length` of null throws.  A value that is not a string has no
   * `match` to call.
   */
  function IsVerifiableInputIntegrity(untrustedUserInput: JsValue): (r: Result<bool>)
    ensures untrustedUserInput.Undefined? || untrustedUserInput.Null? || LengthIsZero(untrustedUserInput) ==>
              r == Success(false)
    ensures (!untrustedUserInput.Undefined? && !untrustedUserInput.Null? && !LengthIsZero(untrustedUserInput)
             && !untrustedUserInput.Str?) ==> r == Failure(TypeError(NotAFunctionMessage))
    ensures untrustedUserInput.Str? && |untrustedUserInput.s| > 0 && HasOnlyAllowedCharacters(untrustedUserInput.s) ==>
              (r.Failure? <==> BracketMatchIsNull(untrustedUserInput.s))
    ensures r.Failure? ==> r.error == TypeError(NotAFunctionMessage) || r.error == TypeError(NullLengthMessage)
  {
    var input := untrustedUserInput;
    if input.Undefined? || input.Null? || LengthIsZero(input) then Success(false)
    else if !input.Str? then Failure(TypeError(NotAFunctionMessage))
    else StringIntegrity(input.s)
  }

  /** The checks on a non-empty string: the character set, then the two bracket matches, then the shape. */
  function StringIntegrity(s: string): (r: Result<bool>)
    ensures HasOnlyAllowedCharacters(s) ==> (r.Failure? <==> BracketMatchIsNull(s))
    ensures r.Failure? ==> r.error == TypeError(NullLengthMessage)
  {
    if !HasOnlyAllowedCharacters(s) then Success(false)
    else if CountChar(s, '[') == 0 then Failure(TypeError(NullLengthMessage))
    else if CountChar(s, '[') > 1 then Success(false)
    else if CountChar(s, ']') == 0 then Failure(TypeError(NullLengthMessage))
    else
      var containsMultipleBrackets := CountChar(s, ']') > 1;
      var firstCharacterIsBracket := s[0] == '[';
      var lastCharacterIsBracket := s[|s| - 1] == ']';
      var second := SecondCharacter(s);
      var secondCharacterIsNotANumber := IsNaN(second) && second != Str("-");
      Success(!(containsMultipleBrackets || !firstCharacterIsBracket || !lastCharacterIsBracket
                || secondCharacterIsNotANumber))
  }

  predicate HasOnlyAllowedCharacters(s: string) {
    forall i :: 0 <= i < |s| ==> IsAllowedCharacter(s[i])
  }

  /** The inputs on which one of the two bracket matches finds nothing. */
  predicate BracketMatchIsNull(s: string) {
    CountChar(s, '[') == 0 || (CountChar(s, '[') == 1 && CountChar(s, ']') == 0)
  }

  /** The shape the check accepts: one bracket at each end, and a digit, blank or minus sign after the first. */
  predicate AcceptedShape(s: string) {
    && HasOnlyAllowedCharacters(s)
    && CountChar(s, '[') == 1 && CountChar(s, ']') == 1
    && |s| >= 2 && s[0] == '[' && s[|s| - 1] == ']'
    && (IsDigit(s[1]) || IsWhitespace(s[1]) || s[1] == '-')
  }

  /** The check answers true exactly on the accepted shape. */
  lemma IsVerifiableInputIntegrityMeaning(untrustedUserInput: JsValue)
    ensures IsVerifiableInputIntegrity(untrustedUserInput) == Success(true) <==>
              untrustedUserInput.Str? && AcceptedShape(untrustedUserInput.s)
  {
    var input := untrustedUserInput;
    if input.Str? && |input.s| > 0 {
      assert !LengthIsZero(input);
      assert IsVerifiableInputIntegrity(input) == StringIntegrity(input.s);
      StringIntegrityMeaning(input.s);
    } else if input.Str? {
      assert !AcceptedShape(input.s);
    }
  }

  lemma StringIntegrityMeaning(s: string)
    ensures StringIntegrity(s) == Success(true) <==> AcceptedShape(s)
  {
    SecondCharacterCheck(s);
    if HasOnlyAllowedCharacters(s) && CountChar(s, '[') == 1 && CountChar(s, ']') >= 1 {
      var second := SecondCharacter(s);
      var verdict := !(CountChar(s, ']') > 1 || s[0] != '[' || s[|s| - 1] != ']'
                       || (IsNaN(second) && second != Str("-")));
      assert StringIntegrity(s) == Success(verdict);
    } else {
      assert !AcceptedShape(s);
      assert StringIntegrity(s) != Success(true);
    }
  }

  /** The test on the second character passes exactly on a digit, a blank or a minus sign. */
  lemma SecondCharacterCheck(s: string)
    ensures var second := SecondCharacter(s);
            !(IsNaN(second) && second != Str("-")) <==> |s| >= 2 && (IsDigit(s[1]) || IsWhitespace(s[1]) || s[1] == '-')
  {
    if |s| >= 2 {
      SingleCharacterNumber(s[1]);
    }
  }

  /** The check as evidently intended: false rather than an exception when a bracket is missing. */
  function IsVerifiableInputIntegrityIntended(untrustedUserInput: JsValue): (r: bool)
    ensures r <==> untrustedUserInput.Str? && AcceptedShape(untrustedUserInput.s)
  {
    IsVerifiableInputIntegrityMeaning(untrustedUserInput);
    untrustedUserInput.Str? && !BracketMatchIsNull(untrustedUserInput.s)
    && IsVerifiableInputIntegrity(untrustedUserInput) == Success(true)
  }

  /** A blank-free number without brackets throws as written, where the intended check says false. */
  lemma PlainNumberThrows(digits: string)
    requires |digits| > 0 && AllDigits(digits)
    ensures IsVerifiableInputIntegrity(Str(digits)) == Failure(TypeError(NullLengthMessage))
    ensures !IsVerifiableInputIntegrityIntended(Str(digits))
  {
    assert '[' !in digits;
    CountCharZero(digits, '[');
  }

  // ---------------------------------------------------------------- the converters

  /** `s.slice(1, s.length - 1)`, which is empty for strings shorter than two characters. */
  function Inner(s: string): (r: string)
    ensures |s| >= 2 ==> s == [s[0]] + r + [s[|s| - 1]]
  {
    if |s| >= 2 then s[1..|s| - 1] else ""
  }

  /** The pieces between the commas of the inner string. */
  function Pieces(s: string): seq<string> {
    Split(Inner(s), ',')
  }

  /** `Number(piece)` of every piece, in order. */
  function NumbersOf(pieces: seq<string>): (r: seq<JsValue>)
    ensures |r| == |pieces|
    ensures forall i :: 0 <= i < |pieces| ==> r[i] == StringToNumber(pieces[i])
  {
    if |pieces| == 0 then [] else NumbersOf(pieces[..|pieces| - 1]) + [StringToNumber(pieces[|pieces| - 1])]
  }

  /** The pieces themselves, as strings. */
  function StringsOf(pieces: seq<string>): (r: seq<JsValue>)
    ensures |r| == |pieces|
    ensures forall i :: 0 <= i < |pieces| ==> r[i] == Str(pieces[i])
  {
    if |pieces| == 0 then [] else StringsOf(pieces[..|pieces| - 1]) + [Str(pieces[|pieces| - 1])]
  }

  /** `stringToArrayConverter`: one number per comma-separated piece of the text between the brackets. */
  method StringToArrayConverter(stringToConvert: string) returns (arrayToRender: seq<JsValue>)
    ensures arrayToRender == NumbersOf(Pieces(stringToConvert))
  {
    arrayToRender := [];
    var stringArray := Split(Inner(stringToConvert), ',');
    for i := 0 to |stringArray|
      invariant arrayToRender == NumbersOf(stringArray[..i])
    {
      assert stringArray[..i + 1][..i] == stringArray[..i];
      arrayToRender := arrayToRender + [ToNumber(Str(stringArray[i]))];
    }
    assert stringArray[..|stringArray|] == stringArray;
  }

  /** There is one element more than there are commas, so "[]" gives one element. */
  lemma ConvertedCount(s: string)
    ensures |NumbersOf(Pieces(s))| == CountChar(Inner(s), ',') + 1
  {
    SplitCount(Inner(s), ',');
  }

  /** `unsafeStringToArrayConverter` */
  function UnsafeConversion(untrustedUserInput: JsValue): (r: Result<JsValue>)
    ensures untrustedUserInput.Undefined? || untrustedUserInput.Null? || LengthIsZero(untrustedUserInput) ==>
              r == Success(untrustedUserInput)
    ensures untrustedUserInput.Arr? && |untrustedUserInput.elems| > 0 ==> r == Success(Arr([]))
    ensures untrustedUserInput.Str? && HasDangerousCharacter(untrustedUserInput.s) ==> r == Success(Arr([]))
    ensures r.Failure? <==>
              !untrustedUserInput.Undefined? && !untrustedUserInput.Null? && !LengthIsZero(untrustedUserInput)
              && !untrustedUserInput.Arr? && !untrustedUserInput.Str?
  {
    var input := untrustedUserInput;
    if input.Undefined? || input.Null? || LengthIsZero(input) then Success(input)
    else if input.Arr? then Success(Arr([]))
    else if !input.Str? then Failure(TypeError(NotAFunctionMessage))
    else if HasDangerousCharacter(input.s) then Success(Arr([]))
    else Success(Arr(StringsOf(Pieces(input.s))))
  }

  method UnsafeStringToArrayConverter(untrustedUserInput: JsValue) returns (r: Result<JsValue>)
    ensures r == UnsafeConversion(untrustedUserInput)
  {
    var input := untrustedUserInput;
    if input.Undefined? || input.Null? || LengthIsZero(input) {
      return Success(input);
    }
    var arrayToRender: seq<JsValue> := [];
    if input.Arr? {
      return Success(Arr(arrayToRender));
    }
    if !input.Str? {
      return Failure(TypeError(NotAFunctionMessage));
    }
    if HasDangerousCharacter(input.s) {
      return Success(Arr(arrayToRender));
    }
    var stringArray := Split(Inner(input.s), ',');
    for i := 0 to |stringArray|
      invariant arrayToRender == StringsOf(stringArray[..i])
    {
      assert stringArray[..i + 1][..i] == stringArray[..i];
      arrayToRender := arrayToRender + [Str(stringArray[i])];
    }
    assert stringArray[..|stringArray|] == stringArray;
    return Success(Arr(arrayToRender));
  }

  /** Every character of a piece is a character of the joined string. */
  lemma {:induction false} JoinHasPartCharacters(parts: seq<string>, sep: char, i: nat, k: nat)
    requires |parts| >= 1 && i < |parts| && k < |parts[i]|
    ensures parts[i][k] in Join(parts, sep)
    decreases |parts|
  {
    if i == 0 {
      assert Join(parts, sep)[k] == parts[0][k];
    } else {
      JoinHasPartCharacters(parts[1..], sep, i - 1, k);
      assert Join(parts, sep) == parts[0] + [sep] + Join(parts[1..], sep);
    }
  }

  /**
   * The unsafe converter's strings are the comma-free pieces of the text between
   * the outer characters: joined with commas they give that text back, and none
   * of them holds a dangerous character.
   */
  lemma UnsafePiecesMeaning(s: string)
    requires |s| > 0 && !HasDangerousCharacter(s)
    ensures UnsafeConversion(Str(s)) == Success(Arr(StringsOf(Pieces(s))))
    ensures Join(Pieces(s), ',') == Inner(s)
    ensures forall i :: 0 <= i < |Pieces(s)| ==> ',' !in Pieces(s)[i] && !HasDangerousCharacter(Pieces(s)[i])
  {
    var pieces := Pieces(s);
    SplitJoin(Inner(s), ',');
    forall i | 0 <= i < |pieces|
      ensures !HasDangerousCharacter(pieces[i])
    {
      forall k | 0 <= k < |pieces[i]|
        ensures pieces[i][k] !in DangerousCharacters
      {
        JoinHasPartCharacters(pieces, ',', i, k);
        var j :| 0 <= j < |Inner(s)| && Inner(s)[j] == pieces[i][k];
        assert Inner(s)[j] == s[j + 1];
      }
    }
  }

  /** Reading the unsafe converter's strings as numbers gives what the number converter gives. */
  lemma UnsafeThenNumberIsConverted(s: string)
    requires |s| > 0 && !HasDangerousCharacter(s)
    ensures UnsafeConversion(Str(s)).Success? && UnsafeConversion(Str(s)).value.Arr?
    ensures var elems := UnsafeConversion(Str(s)).value.elems;
            |elems| == |NumbersOf(Pieces(s))|
            && forall i :: 0 <= i < |elems| ==> ToNumber(elems[i]) == NumbersOf(Pieces(s))[i]
  {
    var input := Str(s);
    assert !LengthIsZero(input);
    var pieces := Pieces(s);
    var elems := StringsOf(pieces);
    assert UnsafeConversion(input) == Success(Arr(elems));
    forall i | 0 <= i < |elems|
      ensures ToNumber(elems[i]) == NumbersOf(pieces)[i]
    {
      assert elems[i] == Str(pieces[i]);
    }
  }

  // ---------------------------------------------------------------- rendered arrays read back

  /** `String(n)` of every number. */
  function Rendered(ns: seq<int>): (r: seq<string>)
    ensures |r| == |ns|
    ensures forall i :: 0 <= i < |ns| ==> r[i] == IntToString(ns[i])
  {
    if |ns| == 0 then [] else Rendered(ns[..|ns| - 1]) + [IntToString(ns[|ns| - 1])]
  }

  /** An array of integers written out as text, with a comma between the numbers. */
  function ArrayText(ns: seq<int>): string
    requires |ns| >= 1
  {
    "[" + Join(Rendered(ns), ',') + "]"
  }

  lemma NatToStringShape(n: nat)
    ensures forall k :: 0 <= k < |NatToString(n)| ==> IsDigit(NatToString(n)[k])
  {
  }

  /** Every character of a rendered integer is a digit or a leading minus sign. */
  lemma RenderedCharacters(n: int, k: nat)
    requires k < |IntToString(n)|
    ensures IsDigit(IntToString(n)[k]) || (k == 0 && IntToString(n)[k] == '-')
  {
    if n < 0 && k > 0 {
      assert IntToString(n)[k] == NatToString(-n)[k - 1];
    }
  }

  /** The number converter reads an array's text back as the array. */
  lemma ArrayTextReadsBack(ns: seq<int>)
    requires |ns| >= 1
    ensures var numbers := NumbersOf(Pieces(ArrayText(ns)));
      |numbers| == |ns| && forall i :: 0 <= i < |ns| ==> numbers[i] == Num(ns[i])
  {
    PiecesOfArrayText(ns);
    forall i | 0 <= i < |ns|
      ensures NumbersOf(Rendered(ns))[i] == Num(ns[i])
    {
      NumberOfRenderedAt(ns, i);
    }
  }

  lemma NumberOfRenderedAt(ns: seq<int>, i: nat)
    requires i < |ns|
    ensures |NumbersOf(Rendered(ns))| == |ns| && NumbersOf(Rendered(ns))[i] == Num(ns[i])
  {
    assert NumbersOf(Rendered(ns))[i] == StringToNumber(IntToString(ns[i]));
    NumberOfRendered(ns[i]);
  }

  /** Between the brackets, the commas fall exactly between the rendered numbers. */
  lemma PiecesOfArrayText(ns: seq<int>)
    requires |ns| >= 1
    ensures Pieces(ArrayText(ns)) == Rendered(ns)
  {
    var parts := Rendered(ns);
    forall i | 0 <= i < |parts|
      ensures ',' !in parts[i]
    {
      if ',' in parts[i] {
        var k :| 0 <= k < |parts[i]| && parts[i][k] == ',';
        RenderedCharacters(ns[i], k);
      }
    }
    JoinSplit(parts, ',');
    assert Inner(ArrayText(ns)) == Join(parts, ',');
  }

  /** The joined rendering holds only digits, minus signs and commas. */
  lemma {:induction false} JoinedRenderingCharacters(ns: seq<int>, k: nat)
    requires |ns| >= 1 && k < |Join(Rendered(ns), ',')|
    ensures IsDigit(Join(Rendered(ns), ',')[k]) || Join(Rendered(ns), ',')[k] in ",-"
    decreases |ns|
  {
    var parts := Rendered(ns);
    if |ns| == 1 {
      RenderedCharacters(ns[0], k);
    } else {
      assert Join(parts, ',') == parts[0] + [','] + Join(parts[1..], ',');
      if k < |parts[0]| {
        RenderedCharacters(ns[0], k);
      } else if k > |parts[0]| {
        assert Rendered(ns[1..]) == parts[1..];
        JoinedRenderingCharacters(ns[1..], k - |parts[0]| - 1);
      }
    }
  }

  /** The integrity check accepts the text of every non-empty array of integers. */
  lemma ArrayTextAccepted(ns: seq<int>)
    requires |ns| >= 1
    ensures IsVerifiableInputIntegrity(Str(ArrayText(ns))) == Success(true)
  {
    var text := ArrayText(ns);
    ArrayTextBrackets(ns);
    ArrayTextCharacters(ns);
    ArrayTextSecondCharacter(ns);
    assert AcceptedShape(text);
    IsVerifiableInputIntegrityMeaning(Str(text));
  }

  /** The text holds one `[`, at its start, and one `]`, at its end. */
  lemma ArrayTextBrackets(ns: seq<int>)
    requires |ns| >= 1
    ensures var text := ArrayText(ns);
      && CountChar(text, '[') == 1 && CountChar(text, ']') == 1
      && |text| >= 2 && text[0] == '[' && text[|text| - 1] == ']'
  {
    var body := Join(Rendered(ns), ',');
    assert '[' !in body && ']' !in body by {
      forall k | 0 <= k < |body|
        ensures body[k] != '[' && body[k] != ']'
      {
        JoinedRenderingCharacters(ns, k);
      }
    }
    CountCharZero(body, '[');
    CountCharZero(body, ']');
    CountCharAppend("[", body, '[');
    CountCharAppend("[" + body, "]", '[');
    CountCharAppend("[", body, ']');
    CountCharAppend("[" + body, "]", ']');
  }

  lemma ArrayTextCharacters(ns: seq<int>)
    requires |ns| >= 1
    ensures HasOnlyAllowedCharacters(ArrayText(ns))
  {
    var body := Join(Rendered(ns), ',');
    var text := ArrayText(ns);
    forall k | 0 <= k < |text|
      ensures IsAllowedCharacter(text[k])
    {
      if 0 < k < |text| - 1 {
        assert text[k] == body[k - 1];
        JoinedRenderingCharacters(ns, k - 1);
      }
    }
  }

  /** The character after the opening bracket begins the first number: a digit or a minus sign. */
  lemma ArrayTextSecondCharacter(ns: seq<int>)
    requires |ns| >= 1
    ensures var text := ArrayText(ns);
      |text| >= 2 && (IsDigit(text[1]) || text[1] == '-')
  {
    var body := Join(Rendered(ns), ',');
    var text := ArrayText(ns);
    assert Rendered(ns)[0] == IntToString(ns[0]);
    assert |body| >= 1 && body[0] == IntToString(ns[0])[0] by {
      if |ns| > 1 {
        assert body == Rendered(ns)[0] + [','] + Join(Rendered(ns)[1..], ',');
      }
    }
    RenderedCharacters(ns[0], 0);
    assert text[1] == body[0];
  }
}
