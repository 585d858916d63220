/** A font family with one size for axis labels and one for axis titles. */
module FontSettings {
  import opened Strings
  import opened Js

  /** The sizes are kept as given: a number of at least 0, or NaN, which the check lets through. */
  datatype FontSettings = FontSettings(font: string, fontSizeLabel: JsValue, fontSizeTitle: JsValue) {
    predicate Valid() {
      IsSize(fontSizeLabel) && IsSize(fontSizeTitle)
    }

    /** The CSS font shorthand for labels, such as "12px Arial". */
    function Label(): string
      requires Valid()
    {
      NumberToString(fontSizeLabel) + "px " + font
    }

    /** The CSS font shorthand for titles. */
    function Title(): string
      requires Valid()
    {
      NumberToString(fontSizeTitle) + "px " + font
    }
  }

  /** `typeof v === 'number' && !(v < 0)`; NaN is not below 0. */
  predicate IsSize(v: JsValue) {
    (v.Num? && v.n >= 0) || v.NaN?
  }

  /** The constructor's three checks, in order. */
  function Create(font: JsValue, fontSizeLabel: JsValue, fontSizeTitle: JsValue): (r: Result<FontSettings>)
    ensures r.Success? <==> font.Str? && IsSize(fontSizeLabel) && IsSize(fontSizeTitle)
    ensures !font.Str? ==> r == Failure(TypeError("font must be a string"))
    ensures font.Str? && !IsSize(fontSizeLabel) ==> r == Failure(TypeError("fontSizeLabel must be a positiv number"))
    ensures font.Str? && IsSize(fontSizeLabel) && !IsSize(fontSizeTitle) ==>
              r == Failure(TypeError("fontSizeTitle must be a positiv number"))
    ensures r.Success? ==> r.value.Valid() && r.value == FontSettings(font.s, fontSizeLabel, fontSizeTitle)
  {
    if TypeOf(font) != "string" then Failure(TypeError("font must be a string"))
    else if TypeOf(fontSizeLabel) != "number" || (fontSizeLabel.Num? && fontSizeLabel.n < 0) then
      Failure(TypeError("fontSizeLabel must be a positiv number"))
    else if TypeOf(fontSizeTitle) != "number" || (fontSizeTitle.Num? && fontSizeTitle.n < 0) then
      Failure(TypeError("fontSizeTitle must be a positiv number"))
    else Success(FontSettings(font.s, fontSizeLabel, fontSizeTitle))
  }

  /** `parseInt` of either shorthand reads back the size it was built from, NaN included. */
  lemma SizesReadBack(f: FontSettings)
    requires f.Valid()
    ensures ParseInt(f.Label()) == f.fontSizeLabel
    ensures ParseInt(f.Title()) == f.fontSizeTitle
  {
    ShorthandReadsBack(f.fontSizeLabel, f.font);
    ShorthandReadsBack(f.fontSizeTitle, f.font);
  }

  lemma ShorthandReadsBack(size: JsValue, font: string)
    requires IsSize(size)
    ensures ParseInt(NumberToString(size) + "px " + font) == size
  {
    var rest := "px " + font;
    assert rest[0] == 'p';
    ParseIntOfRendered(size, rest);
    assert NumberToString(size) + "px " + font == NumberToString(size) + rest;
  }

  /** The second space-separated word of a shorthand is the whole family when it has no space. */
  lemma FamilyReadBack(f: FontSettings)
    requires f.Valid() && ' ' !in f.font
    ensures |Split(f.Label(), ' ')| == 2 && Split(f.Label(), ' ')[1] == f.font
  {
    var size := NumberToString(f.fontSizeLabel) + "px";
    assert ' ' !in size by {
      if f.fontSizeLabel.Num? {
        NonNegativeRenderingHasNoSpace(f.fontSizeLabel.n);
      }
    }
    assert f.Label() == size + [' '] + f.font;
    SplitAfterHead(size, f.font, ' ');
    SplitWithoutSeparator(f.font, ' ');
  }

  lemma NonNegativeRenderingHasNoSpace(n: int)
    requires n >= 0
    ensures ' ' !in IntToString(n)
  {
    assert AllDigits(IntToString(n));
  }
}
