# graphdrawer: a verified model

GraphDrawer is a custom web element that draws a line graph of a list of
numbers on a canvas. This project models in Dafny the logic behind that
drawing, and proves what that logic promises:

- **The settings objects.** Axis titles, font settings and colour settings each check their constructor arguments.
- **The canvas geometry.** A 10% margin on every side; the rest is the render area.
- **The dataset statistics.** Extremes, range, average, and the "prime-adjusted" length used to space the points.
- **A reusable validator.** `ValidationCollection` records what was wrong in sticky output fields.
- **The widget's setters.** They validate partial updates and merge them into the current settings.
- **The input helpers.** Text typed by a user is checked and turned into an array.
- **The layout of one rendering:**
  - where every data point lands;
  - which x-axis labels are drawn, and where;
  - the eleven y-axis labels;
  - where the zero line lies.

Modules follow the source files:

| module | models |
|---|---|
| `AxisTitles`, `FontSettings`, `ColorSettings`, `CanvasProperties`, `GraphProperties`, `GraphAndCanvasData` | the classes under `src/components/graphdrawer/classes/` of the same names, as values |
| `ValidationCollection` | the class of that name, as a Dafny `class` whose check methods update its output fields |
| `Helpers` | `src/lib/helpers.js` |
| `WidgetValidation` | the four private `#validate*` methods of the element and its dataset check |
| `Layout` | the drawing methods of the element: the point generator, the axes, the x-label walk with its dotted lines and label characters, y labels, axis titles, zero line |
| `GraphDrawer` | the element itself, as a `class` holding its settings, with its setters, getters and `renderArrayAsGraph` |
| `Js`, `Strings`, `Numeric` | the JavaScript built-ins the source relies on, and arithmetic helpers |

**Host values become data.** JavaScript values that arrive from callers are the
datatype `Js.JsValue`:
- undefined, null, booleans, integer numbers, NaN and strings;
- arrays, and objects as key/value lists in own-property order (integer-like keys first, ascending, then the rest in insertion order, as `Object.keys` lists them).

A thrown exception is the `Failure` of a `Result` whose error records the exception class and its message.

**The canvas is not modelled.** Each drawing method is modelled by the positions it computes, collected in
`GraphDrawer.Drawing`:
- the end points of the two axes and of each dotted line;
- each x label's x, its text, and the top of each of its characters, stacked one label size apart;
- each y label's position and text;
- the zero line's height and each data point;
- the point each axis title is translated to, except the x title's x.

Where the source computes a coordinate from a NaN font size, the model has `None`.

**Notes on what the code does, which the model follows:**
- **Prime-adjusted length.** 21 = 3·7 is not prime, so a dataset of 21 values keeps length 21, as the doc example of `#calculatePrimeAdjustedLength` says. Only a prime length above 20 gets one extra slot.
- **Canvas size.** The canvas properties store whatever width and height the style yields. There is no check that they are positive.
- **Colour settings.** The constructor throws on the first invalid colour only, in parameter order. A value that is not a string throws the engine's own TypeError from `toLowerCase`, with the reason V8 gives.
- **Label budget.** The x-axis label budget is the element's own field, 20. It is never anything else.
- **Primality.** `isPrime(1)` is true. `GraphProperties.TrialDivisionIsPrimality` states this. It is only asked about lengths above 20.
- **Y-axis text against point heights.** The y-axis label texts step by `ceil(range/10)`, and their heights step by `renderAreaHeight/10`. A data value equal to label k's text is drawn `k·ceil(renderAreaHeight/10)` above the axis, not at label k's height. So the points and labels agree only when the render height is a multiple of ten. `Layout.LabelValueHeight` states both heights.

## Model

| member | source | states |
|---|---|---|
| AxisTitles.Create | src/components/graphdrawer/classes/AxisTitles.js:17-26 | succeeds exactly when both titles are strings (any string, `''` included). A non-string x title raises the x TypeError first, then the y one. On success the titles are stored unchanged |
| AxisTitles.CopyIsIdentity | src/components/graphdrawer/classes/AxisTitles.js:33-44 | constructing from the two accessors gives back the same titles |
| CanvasProperties.FromSize | src/components/graphdrawer/classes/CanvasProperties.js:29-35 | margins are a tenth of each dimension. Margin + render area + margin equals the total, and the render area is eight margins (80%) |
| CanvasProperties.FromComputedStyle | src/components/graphdrawer/classes/CanvasProperties.js:30-31 | properties exist exactly when `parseInt` of both style strings yields a number, and are then those of that size |
| CanvasProperties.PixelStyles | src/components/graphdrawer/classes/CanvasProperties.js:30-31 | styles of the form `"<n>px"` read back as the size n |
| CanvasProperties.FromSizeBounds | src/components/graphdrawer/classes/CanvasProperties.js:32-35 | for non-negative sizes, 0 ≤ margin ≤ render area ≤ total on each axis |
| CanvasProperties.FromSizeExample | src/components/graphdrawer/test/CanvasProperties.test.js:47-64 | a 400×300 surface has margins 40 and 30 and a 320×240 render area |
| ColorSettings.CheckColor | src/components/graphdrawer/classes/ColorSettings.js:47-67 | one colour argument passes exactly when it is a string whose lower-case form is in the palette, and yields that lower-case form. An unknown colour raises the argument's "must be a valid color" TypeError. A non-string raises the engine's TypeError: properties of undefined or null cannot be read, and any other value has no `toLowerCase` |
| ColorSettings.Create | src/components/graphdrawer/classes/ColorSettings.js:31-75 | succeeds exactly when all seven arguments pass. For each of the seven, when it is the first argument that fails, its own error is raised. On success the stored fields are the lower-cased arguments and all are palette colours |
| ColorSettings.ColorLength | src/components/graphdrawer/classes/ColorSettings.js:34-45 | every palette colour has 3 to 6 characters |
| ColorSettings.OutOfLengthIsNoColor | src/components/graphdrawer/classes/ColorSettings.js:34-45 | a string shorter than 3 or longer than 6 characters is not a palette colour |
| ColorSettings.ValidColorsAreLowerCase | src/components/graphdrawer/classes/ColorSettings.js:34-45 | lower-casing a palette colour leaves it unchanged |
| ColorSettings.NoColorIsEmpty | src/components/graphdrawer/classes/ColorSettings.js:68-74 | the `\|\| defaultColor` fallbacks never apply, since no palette colour is empty |
| ColorSettings.CopyIsIdentity | src/components/graphdrawer/classes/ColorSettings.js:82-138 | constructing from the seven accessors of valid settings gives back the same settings |
| ColorSettings.UpperCaseExamples | src/components/graphdrawer/classes/ColorSettings.js:47-51 | `'RED'` and `'Black'` are accepted, as `'red'` and `'black'` |
| ColorSettings.CreateLowersCase | src/components/graphdrawer/classes/ColorSettings.js:68-74 | mixed-case arguments are stored lower-cased |
| ColorSettings.KelvinSignLowered | src/components/graphdrawer/classes/ColorSettings.js:47-74 | `'blac\u212A'` (ending in the Kelvin sign) lower-cases to `'black'` and is accepted |
| ColorSettings.CreateRefusesMissingBackground | src/components/graphdrawer/classes/ColorSettings.js:68-74 | with six valid colours and an undefined background, the background's `toLowerCase` call raises "Cannot read properties of undefined" |
| ColorSettings.UnknownNameRefused | src/components/graphdrawer/test/ColorSettings.test.js:30-32 | `'chartreuse'` is not accepted |
| ColorSettings.EmptyNameRefused | src/components/graphdrawer/classes/ColorSettings.js:47-67 | the empty string is not accepted |
| ColorSettings.CreateRefusesUnknownColor | src/components/graphdrawer/classes/ColorSettings.js:47-49 | an unknown first colour raises the graphLineColor TypeError, whatever the other six arguments are |
| ColorSettings.CreateRefusesEmptyColor | src/components/graphdrawer/classes/ColorSettings.js:50-52 | with a valid first colour and an empty second, the graphDotColor TypeError is raised, whatever the last four arguments are |
| FontSettings.Create | src/components/graphdrawer/classes/FontSettings.js:17-30 | succeeds exactly when the font is a string and both sizes are numbers not below 0 (NaN slips through). The errors come in argument order. The arguments are stored unchanged, and an empty family is accepted |
| FontSettings.SizesReadBack | src/components/graphdrawer/classes/FontSettings.js:38-50 | `parseInt` of the label and title shorthands gives back the sizes |
| FontSettings.ShorthandReadsBack | src/components/graphdrawer/classes/FontSettings.js:38-40 | `parseInt("<size>px <font>")` is the size for any size the constructor admits |
| FontSettings.FamilyReadBack | src/components/graphdrawer/classes/FontSettings.js:38-40 | for a family without spaces, the label splits on `' '` into exactly the size and the family |
| FontSettings.NonNegativeRenderingHasNoSpace | src/components/graphdrawer/classes/FontSettings.js:38-40 | the text of a non-negative size contains no space |
| GraphAndCanvasData.VerifyDatasetIntegrity | src/components/graphdrawer/classes/GraphAndCanvasData.js:117-129 | succeeds exactly on arrays of at least two numbers (no NaN), with the three Error messages for the three failures. Yields the numbers in order |
| GraphAndCanvasData.MaxLabelsAsWrittenAcceptsEveryNumber | src/components/graphdrawer/classes/GraphAndCanvasData.js:80-88 | the label-limit test as written lets through exactly the values of type number, NaN and out-of-range values included |
| GraphAndCanvasData.MaxLabelsAsWrittenCounterexamples | src/components/graphdrawer/classes/GraphAndCanvasData.js:83-85 | 51, NaN and -1 all pass the test as written |
| GraphAndCanvasData.MaxLabelsAcceptsRange | src/components/graphdrawer/classes/GraphAndCanvasData.js:80-88 | the intended test lets through exactly the numbers 0 to 50 |
| GraphAndCanvasData.Create | src/components/graphdrawer/classes/GraphAndCanvasData.js:43-109 | as written: succeeds exactly when the dataset passes, the x-label limit is of type number (NaN, -1 and 51 included), and the y-label count is exactly 10. Checks run in parameter order, each with its own error, before anything is stored. Every field is then the argument given, and valid parts give a valid bundle |
| GraphAndCanvasData.CreateIntended | src/components/graphdrawer/classes/GraphAndCanvasData.js:80-88 | with the intended label-limit test: succeeds exactly when the limit is a number from 0 to 50 (and the other checks pass), raises the limit's TypeError otherwise, and on success builds what the constructor as written builds |
| GraphProperties.MaxOf | src/components/graphdrawer/classes/GraphProperties.js:21 | the maximum is an element and no element exceeds it |
| GraphProperties.MinOf | src/components/graphdrawer/classes/GraphProperties.js:22 | the minimum is an element and no element is below it |
| GraphProperties.SumBetween | src/components/graphdrawer/classes/GraphProperties.js:24 | the sum of n values between lo and hi lies between n·lo and n·hi |
| GraphProperties.QuotientBetween | src/components/graphdrawer/classes/GraphProperties.js:24 | dividing such a sum by n lands between lo and hi |
| GraphProperties.AverageBetweenExtremes | src/components/graphdrawer/classes/GraphProperties.js:21-24 | min ≤ average ≤ max for every non-empty dataset |
| GraphProperties.NoOddDivisorFromMeaning | src/components/graphdrawer/classes/GraphProperties.js:117-121 | the trial-division loop from i finds no divisor exactly when no odd i + 2k with square ≤ n divides n |
| GraphProperties.NoDivisorAmongStep | src/components/graphdrawer/classes/GraphProperties.js:117-121 | one loop step: no divisor from i on means i does not divide n and none from i + 2 on |
| GraphProperties.SmallDivisor | src/components/graphdrawer/classes/GraphProperties.js:116-121 | a number with a proper divisor has one whose square is at most the number, so stopping at √n suffices |
| GraphProperties.OddDivisorOfOdd | src/components/graphdrawer/classes/GraphProperties.js:112-121 | every divisor of an odd number is odd, so skipping even candidates is sound |
| GraphProperties.TrialDivisionIsPrimality | src/components/graphdrawer/classes/GraphProperties.js:106-124 | the trial-division answer is true exactly for primes, and for 1 |
| GraphProperties.IsPrime | src/components/graphdrawer/classes/GraphProperties.js:106-124 | the loop answers true exactly when the number is 1 or a prime |
| GraphProperties.NoOddDivisorStep | src/components/graphdrawer/classes/GraphProperties.js:117-121 | while i·i ≤ n, the loop at i is "i does not divide n, and the loop at i + 2" |
| GraphProperties.PrimeAdjustedLengthSpec | src/components/graphdrawer/classes/GraphProperties.js:94-104 | the adjusted length is the length or one more, and one more exactly for a prime above 20 |
| GraphProperties.PrimeAdjustedLengthFixtures | src/components/graphdrawer/test/GraphProperties.test.js:57-83 | 3 → 3, 4 → 4, 20 → 20, 21 → 21, 22 → 22, 23 → 24, 59 → 60 |
| GraphProperties.Of | src/components/graphdrawer/classes/GraphProperties.js:19-26 | max and min are extreme elements. The range is max − min, raised to at least 1. The average is sum over length, and the adjusted length is as above |
| GraphProperties.StatisticsFixtures | src/components/graphdrawer/test/GraphProperties.test.js:35-54 | [1,2,3] gives max 3, min 1, range 2, average 2, length 3; [1,2,3,4] has average 2.5; [5,5] has range 1 |
| GraphProperties.Numbers | src/components/graphdrawer/classes/GraphProperties.js:82-86 | an all-number list reads as the integers it holds, in order |
| GraphProperties.Create | src/components/graphdrawer/classes/GraphProperties.js:19-87 | succeeds exactly on non-empty arrays of numbers, raising the TypeError, Error and TypeError of the three checks otherwise. The result holds the statistics of the dataset |
| Helpers.SingleCharacterNumber | src/lib/helpers.js:25 | `isNaN` of one character is true exactly when it is neither a digit nor white space |
| Helpers.IsVerifiableInputIntegrity | src/lib/helpers.js:10-32 | undefined, null and empty inputs give false. Another non-string throws "match is not a function". On an input in the allowed characters, it throws exactly when a bracket match comes back null |
| Helpers.StringIntegrity | src/lib/helpers.js:16-31 | on a non-empty string, it throws only the null-length TypeError, and exactly when a bracket match is null |
| Helpers.IsVerifiableInputIntegrityMeaning | src/lib/helpers.js:10-32 | the check answers true exactly for a string in the allowed characters with one `[` first, one `]` last, and a digit, blank or `-` second |
| Helpers.StringIntegrityMeaning | src/lib/helpers.js:16-31 | the same, for a non-empty string |
| Helpers.SecondCharacterCheck | src/lib/helpers.js:25 | the second-character test passes exactly when there is a second character and it is a digit, blank or `-` |
| Helpers.IsVerifiableInputIntegrityIntended | src/lib/helpers.js:10-32 | the corrected check returns a boolean on every input, true exactly for the accepted shape |
| Helpers.PlainNumberThrows | src/lib/helpers.js:22 | a plain number such as `"5"` makes the check throw instead of returning false. The corrected check answers false |
| Helpers.Inner | src/lib/helpers.js:73 | the slice drops exactly the first and the last character |
| Helpers.NumbersOf | src/lib/helpers.js:74-78 | `Number(piece)` of every piece, in order |
| Helpers.StringsOf | src/lib/helpers.js:56-60 | each piece as a string, in order |
| Helpers.StringToArrayConverter | src/lib/helpers.js:70-80 | the loop yields `Number` of every comma-separated piece of the inner text, in order |
| Helpers.ConvertedCount | src/lib/helpers.js:70-80 | it yields one more element than there are commas, so `'[]'` yields one |
| Helpers.UnsafeConversion | src/lib/helpers.js:38-62 | undefined, null and empty inputs come back unchanged. A non-empty array or a string with a dangerous character gives `[]`. Any other non-string throws |
| Helpers.UnsafeStringToArrayConverter | src/lib/helpers.js:38-62 | the loop computes that conversion |
| Helpers.UnsafePiecesMeaning | src/lib/helpers.js:54-61 | a safe non-empty string becomes the list of its comma-separated inner pieces, as strings. They join back to the inner text, and none contains a comma or a dangerous character |
| Helpers.UnsafeThenNumberIsConverted | src/lib/helpers.js:38-80 | converting those strings with `Number` gives what the safe converter gives |
| Helpers.Rendered | src/lib/helpers.js:70-80 | integers written out one by one |
| Js.NumberOfRendered | src/lib/helpers.js:77 | `Number` of a written-out integer gives it back |
| Helpers.ArrayTextReadsBack | src/lib/helpers.js:70-80 | for any non-empty integer list written as `[a,b,…]`, the converter returns that list |
| Helpers.PiecesOfArrayText | src/lib/helpers.js:73 | the pieces of `[a,b,…]` are the written-out numbers |
| Helpers.ArrayTextAccepted | src/lib/helpers.js:10-32 | the check accepts `[a,b,…]` for every non-empty integer list |
| Helpers.ArrayTextBrackets | src/lib/helpers.js:22-24 | such a text has one `[` first and one `]` last |
| Helpers.ArrayTextCharacters | src/lib/helpers.js:16 | such a text contains only allowed characters |
| Helpers.ArrayTextSecondCharacter | src/lib/helpers.js:25 | its second character is a digit or `-` |
| Js.StringToNumber | src/lib/helpers.js:77 | `Number(s)` is always of type number |
| Js.ToNumber | src/components/graphdrawer/classes/ValidationCollection.js:127 | the numeric conversion is always of type number |
| Js.ArrayToNumber | src/components/graphdrawer/classes/ValidationCollection.js:127 | an array converts through its text: `[]` is 0, and `[n]` and `['n']` are n |
| Js.DisplaySingle | src/components/graphdrawer/classes/ValidationCollection.js:127 | a one-element array has the text of its element |
| Js.PairToNumber | src/components/graphdrawer/classes/ValidationCollection.js:127 | an array of two numbers converts to NaN |
| Js.CommaIsNoNumber | src/lib/helpers.js:77 | a text with a comma between non-blank ends is NaN under `Number` |
| Js.ParseInt | src/components/graphdrawer/classes/CanvasProperties.js:30-31 | `parseInt` is always of type number |
| Js.NumberToString | src/components/graphdrawer/classes/FontSettings.js:38-50 | a number is written out as at least one character |
| Js.ParseIntOfRendered | src/components/graphdrawer/graphdrawer.js:292-293 | `parseInt` of a non-negative number written out and followed by a non-digit gives the number back |
| Js.Lookup | src/components/graphdrawer/graphdrawer.js:209-210 | `o[key]` is undefined for a missing key and otherwise a value stored under that key |
| Js.LookupDistinct | src/components/graphdrawer/graphdrawer.js:209-210 | with distinct keys, `o[key]` is the value stored with that key |
| Js.Keys | src/components/graphdrawer/graphdrawer.js:209 | `Object.keys` lists the keys in order |
| Js.Values | src/components/graphdrawer/classes/ValidationCollection.js:238-254 | `Object.values` lists the values in order |
| Strings.ToLower | src/components/graphdrawer/classes/ColorSettings.js:47-74 | lower-casing keeps the length and maps each character on its own: ASCII capitals and the Kelvin sign go to their lower-case letters, every other character is unchanged |
| Strings.LowercaseUnchanged | src/components/graphdrawer/classes/ColorSettings.js:68-74 | a string without capitals is unchanged |
| Strings.ToLowerIdempotent | src/components/graphdrawer/classes/ColorSettings.js:68-74 | lower-casing twice is lower-casing once |
| Strings.Split | src/lib/helpers.js:73 | `split` yields at least one piece |
| Strings.SplitCount | src/lib/helpers.js:73 | `split` yields one more piece than there are separators |
| Strings.SplitJoin | src/lib/helpers.js:73 | joining the pieces gives back the string, and no piece contains the separator |
| Strings.JoinSplit | src/lib/helpers.js:73 | splitting a join of separator-free pieces gives back the pieces |
| Strings.SplitAfterHead | src/components/graphdrawer/graphdrawer.js:291 | splitting `a + sep + b` with `a` separator-free gives `a` followed by the pieces of `b` |
| Layout.RangeScale | src/components/graphdrawer/graphdrawer.js:577-588 | data units per vertical step are at least 1 |
| Layout.PointGenerator.constructor | src/components/graphdrawer/graphdrawer.js:644-661 | a fresh generator starts at index 0 |
| Layout.PointGenerator.Next | src/components/graphdrawer/graphdrawer.js:662-672 | yields the point of the current index and advances, or yields nothing once past the end |
| Layout.TracePoints | src/components/graphdrawer/graphdrawer.js:422-448 | walking the generator to the end yields exactly the dataset's points, in index order |
| Layout.XCoordinateFormula | src/components/graphdrawer/graphdrawer.js:649-667 | point i lies at x = floor(margin) + i·floor(renderWidth / primeAdjustedLength) |
| Layout.PointsEvenlySpaced | src/components/graphdrawer/graphdrawer.js:649-667 | points j and i lie (j − i) point distances apart |
| Layout.PointsInsideHorizontally | src/components/graphdrawer/graphdrawer.js:644-673 | every point's x lies in [floor(marginWidth), marginWidth + renderAreaWidth) |
| Layout.YMonotone | src/components/graphdrawer/graphdrawer.js:654-668 | a larger value is never drawn lower |
| Layout.AdjustedMinOnXAxis | src/components/graphdrawer/graphdrawer.js:654-668 | the adjusted minimum is drawn on the x axis |
| Layout.OffsetWithinAdjustedRange | src/components/graphdrawer/graphdrawer.js:654-660 | every value lies within the adjusted range. A flat dataset lies 4 to 6 units above its adjusted minimum |
| Layout.PointsNotBelowXAxis | src/components/graphdrawer/graphdrawer.js:662-672 | no point is drawn below the x axis |
| Layout.PointsNearRenderArea | src/components/graphdrawer/graphdrawer.js:662-672 | no point is drawn more than 10 pixels above the render area (the two ceilings overshoot by less) |
| Layout.ValueNearRenderArea | src/components/graphdrawer/graphdrawer.js:654-668 | the same for any value in the adjusted range |
| Layout.LabelCount | src/components/graphdrawer/graphdrawer.js:611-618 | the halving ends at most at the budget, and stays positive |
| Layout.LabelCountSpec | src/components/graphdrawer/graphdrawer.js:611-618 | a count within the budget is kept. A larger one ends above half the budget, and is the count divided by a power of two |
| Layout.CalculateLabelCount | src/components/graphdrawer/graphdrawer.js:611-618 | the loop computes that count from the prime-adjusted length |
| Layout.IndexSteps | src/components/graphdrawer/graphdrawer.js:486 | the index step is at least 1 and at least length / label count |
| Layout.IndexLabels | src/components/graphdrawer/graphdrawer.js:493-506 | n labels for indexes 0, s, …, (n−1)·s |
| Layout.GetNextLabelToDraw | src/components/graphdrawer/graphdrawer.js:518-534 | advancing k steps within the dataset yields the point k − 1 ahead (nothing for k = 0). Running off the end stops at the end, flags it, and remembers the last point |
| Layout.XAxisLabels | src/components/graphdrawer/graphdrawer.js:477-516 | the walk draws exactly the labels of the specification: every s-th index from 0, then the last index. With each label it draws that label's dotted line and characters |
| Layout.DrawIndexLabels | src/components/graphdrawer/graphdrawer.js:493-506 | the do-while always ends out of bounds, after drawing the labels 0, s, … up to the last index, with the last point at hand. Each drawn label has its dotted line and characters |
| Layout.XLabelsOnPoints | src/components/graphdrawer/graphdrawer.js:477-516 | there are at least two labels. The first reads 0, the last reads length − 1, and each sits at the x of the point it names |
| Layout.IndexLabelsOnPoints | src/components/graphdrawer/graphdrawer.js:493-506 | label k names index k·s and sits at that point |
| Layout.XLabelsCount | src/components/graphdrawer/graphdrawer.js:484-516 | there are (length − 1) / s + 2 labels, at most the budget plus one |
| Layout.DottedLines | src/components/graphdrawer/graphdrawer.js:450-459 | one dotted line per label |
| Layout.DrawnWithLabel | src/components/graphdrawer/graphdrawer.js:496-500 | drawing one more label adds its dotted line and its characters at the end |
| Layout.AxesFrameRenderArea | src/components/graphdrawer/graphdrawer.js:468-563 | the x axis is horizontal and the y axis vertical. They meet at the bottom-left corner of the render area, and span its width and its height |
| Layout.DottedLinesAcrossRenderArea | src/components/graphdrawer/graphdrawer.js:455-456 | each dotted line is vertical at its label's x and runs from the x axis up to the top of the y axis. Its x lies within the x axis's span, less the rounding of the left margin |
| Layout.LabelFontSize | src/components/graphdrawer/graphdrawer.js:487 | `parseInt` of the label shorthand is the label font size, NaN included |
| Layout.XLabelRow | src/components/graphdrawer/graphdrawer.js:495 | the label row exists exactly when the label size is a number. It then lies half a label size below the x axis, at most one pixel further down |
| Layout.LabelsText | src/components/graphdrawer/graphdrawer.js:493-514 | one character sequence per label |
| Layout.DrawLabelText | src/components/graphdrawer/graphdrawer.js:498-500 | the loop yields the label's characters as the specification places them |
| Layout.LabelTextStacked | src/components/graphdrawer/graphdrawer.js:495-500 | the characters spell the label's text and are centred on its x. They have a position exactly when the label size is a number. The first is on the label row, each next one a label size lower, and all lie below the x axis |
| Layout.TitleFontSize | src/components/graphdrawer/graphdrawer.js:538 | `parseInt` of the title shorthand is the title font size, NaN included |
| Layout.XTitleY | src/components/graphdrawer/graphdrawer.js:541 | the x title's y exists exactly when the title size is a number, and is then three title sizes below the x axis |
| Layout.XAxisTitle | src/components/graphdrawer/graphdrawer.js:537-541 | the method translates to that y |
| Layout.YTitleAt | src/components/graphdrawer/graphdrawer.js:601 | the y title's point exists exactly when the title size is a number. It lies three title sizes left of the y axis, halfway down it |
| Layout.YAxisTitle | src/components/graphdrawer/graphdrawer.js:595-601 | the method translates to that point |
| Layout.YTitleLevelWithMiddleLabel | src/components/graphdrawer/graphdrawer.js:584-601 | the y title is level with the middle one of the eleven y labels |
| Layout.YAxisLabels | src/components/graphdrawer/graphdrawer.js:566-591 | the loop draws exactly labels 0 to 10 of the specification |
| Layout.YLabelsSpan | src/components/graphdrawer/graphdrawer.js:574-590 | there are 11 labels. Label 0 is on the x axis, label 10 at the top margin, and they read from at most min to at least max |
| Layout.YLabelsEvenlySpaced | src/components/graphdrawer/graphdrawer.js:584-590 | neighbouring labels differ by one range step in text and by a tenth of the render height in position |
| Layout.LabelValueHeight | src/components/graphdrawer/graphdrawer.js:584-668 | the value label k shows is drawn k·ceil(renderHeight/10) above the axis, while label k sits k·renderHeight/10 above it |
| Layout.ZeroLine | src/components/graphdrawer/graphdrawer.js:620-636 | a zero line is drawn exactly when min < 0 < max |
| Layout.ZeroLineInside | src/components/graphdrawer/graphdrawer.js:620-636 | when drawn, it lies strictly inside the render area |
| Layout.ZeroLineUnadjusted | src/components/graphdrawer/graphdrawer.js:620-636 | when a zero line is drawn, the range is at least 2, so the adjusted minimum and range are the plain ones, and the line sits −min range steps above the axis |
| ValidationCollection.ParseOptionsFails | src/components/graphdrawer/classes/ValidationCollection.js:45-72 | construction fails exactly when some property is not one of the five options |
| ValidationCollection.ParseOptionsFailureSticks | src/components/graphdrawer/classes/ValidationCollection.js:47-72 | once an unknown option is met, later properties do not change the outcome |
| ValidationCollection.ApplyOptionKinds | src/components/graphdrawer/classes/ValidationCollection.js:48-71 | an option step changes the minimum length or the valid properties only to the value it was given |
| ValidationCollection.ParseOptionsKeepsKinds | src/components/graphdrawer/classes/ValidationCollection.js:47-72 | a parsed minimum length or valid-property list is the default or one that was passed in |
| ValidationCollection.RemoveFirst | src/components/graphdrawer/classes/ValidationCollection.js:158-163 | removing an absent name changes nothing; removing a present one drops one entry and adds none |
| ValidationCollection.RemoveFirstMembers | src/components/graphdrawer/classes/ValidationCollection.js:158-163 | on distinct names, exactly that name is removed |
| ValidationCollection.StripMembers | src/components/graphdrawer/classes/ValidationCollection.js:152-190 | the unexpected names are exactly the own names that are not valid, without repeats |
| ValidationCollection.MissingMembers | src/components/graphdrawer/classes/ValidationCollection.js:152-173 | the missing entries are exactly the valid properties the object does not own |
| ValidationCollection.UnsanctionedMembers | src/components/graphdrawer/classes/ValidationCollection.js:238-254 | the unsanctioned values are exactly the values not included in the valid values |
| ValidationCollection.UnexpectedTypesMembers | src/components/graphdrawer/classes/ValidationCollection.js:256-272 | the unexpected values are exactly those whose type is not a valid type |
| ValidationCollection.LastNonNumberTypeNone | src/components/graphdrawer/classes/ValidationCollection.js:275-286 | no non-number type is recorded exactly when all elements are numbers |
| ValidationCollection.LastNonObjectTypeNone | src/components/graphdrawer/classes/ValidationCollection.js:288-299 | no type is recorded exactly when every element is a non-array object or null |
| ValidationCollection.MustHavePropertiesMeaning | src/components/graphdrawer/classes/ValidationCollection.js:147-175 | nothing unexpected and nothing missing means the own names equal the valid properties as a set |
| ValidationCollection.MayHavePropertiesMeaning | src/components/graphdrawer/classes/ValidationCollection.js:177-194 | nothing unexpected means the own names are a subset of the valid properties |
| ValidationCollection.CrossOffProperties | src/components/graphdrawer/classes/ValidationCollection.js:148-173 | the loop computes the unexpected and missing lists |
| ValidationCollection.CollectUnsanctioned | src/components/graphdrawer/classes/ValidationCollection.js:241-251 | the loop collects the unsanctioned values in order |
| ValidationCollection.CollectUnexpectedTypes | src/components/graphdrawer/classes/ValidationCollection.js:259-269 | the loop collects the values of unexpected type in order |
| ValidationCollection.ValidationCollection.Blank | src/components/graphdrawer/classes/ValidationCollection.js:22-34 | the field initialisers: no limits, empty lists, no failed type |
| ValidationCollection.ValidationCollection.New | src/components/graphdrawer/classes/ValidationCollection.js:37-73 | null raises the "convert null to object" TypeError and another non-object raises "must be an object". An unknown option raises its Error. Otherwise the new collection holds the parsed options and empty diagnostics |
| ValidationCollection.ValidationCollection.SetOption | src/components/graphdrawer/classes/ValidationCollection.js:48-71 | one pass of the constructor loop: a known option is applied as the parse step says, an unknown one changes nothing |
| ValidationCollection.ValidationCollection.IsString | src/components/graphdrawer/classes/ValidationCollection.js:99-106 | true exactly for strings; a failure records the value's type |
| ValidationCollection.ValidationCollection.IsNumber | src/components/graphdrawer/classes/ValidationCollection.js:108-115 | true exactly for numbers other than NaN; a failure records the type |
| ValidationCollection.ValidationCollection.IsPositiveNumber | src/components/graphdrawer/classes/ValidationCollection.js:117-124 | true exactly for numbers ≥ 0, so 0 passes; a failure records the type |
| ValidationCollection.ValidationCollection.IsNegativeNumber | src/components/graphdrawer/classes/ValidationCollection.js:126-128 | `isPositiveNumber(-x)`, with `-x` converting x to a number first. For a number, true exactly when it is ≤ 0. A failure records the type "number" |
| ValidationCollection.NegatedArrays | src/components/graphdrawer/classes/ValidationCollection.js:126-128 | `isNegativeNumber([])` is true, `isNegativeNumber([n])` is true exactly when n ≤ 0, and an array of two numbers is refused |
| ValidationCollection.ValidationCollection.IsNumberBetweenMinMax | src/components/graphdrawer/classes/ValidationCollection.js:130-136 | true exactly for a number with min ≤ x ≤ max, bounds inclusive |
| ValidationCollection.ValidationCollection.IsAnObject | src/components/graphdrawer/classes/ValidationCollection.js:138-145 | true exactly for non-array, non-null objects |
| ValidationCollection.ValidationCollection.IsAnObjectThatMustHaveProperties | src/components/graphdrawer/classes/ValidationCollection.js:147-175 | null and undefined throw. Otherwise true exactly for an object with nothing unexpected and nothing missing. Non-empty unexpected and missing lists overwrite the sticky fields, empty ones leave them |
| ValidationCollection.ValidationCollection.IsAnObjectThatMayHaveProperties | src/components/graphdrawer/classes/ValidationCollection.js:177-194 | null and undefined throw. Otherwise true exactly for an object without unexpected names, recording them when there are some |
| ValidationCollection.ValidationCollection.IsAnObjectThatMayHavePropertiesAndMustHaveMinLength | src/components/graphdrawer/classes/ValidationCollection.js:196-203 | as above, and the object has at least the minimum number of own names |
| ValidationCollection.ValidationCollection.IsArray | src/components/graphdrawer/classes/ValidationCollection.js:205-212 | true exactly for arrays |
| ValidationCollection.ValidationCollection.IsArrayThatMustHaveMinLength | src/components/graphdrawer/classes/ValidationCollection.js:214-220 | true exactly for arrays of at least the minimum length |
| ValidationCollection.ValidationCollection.IsArrayThatMustHaveMaxLength | src/components/graphdrawer/classes/ValidationCollection.js:222-228 | true exactly for arrays of at most the maximum length |
| ValidationCollection.ValidationCollection.IsArrayThatMustHaveMinAndMaxLength | src/components/graphdrawer/classes/ValidationCollection.js:230-236 | true exactly for arrays within both limits |
| ValidationCollection.ValidationCollection.IsObjectThatMustHaveSanctionedValues | src/components/graphdrawer/classes/ValidationCollection.js:238-254 | true exactly for an object whose values are all included, case-sensitively, in the valid values. The offenders are recorded in order |
| ValidationCollection.ValidationCollection.IsAnObjectThatMustHaveValueType | src/components/graphdrawer/classes/ValidationCollection.js:256-272 | true exactly for an object whose values all have a valid type. The offenders go to the unexpected values |
| ValidationCollection.ValidationCollection.IsArrayOfNumbers | src/components/graphdrawer/classes/ValidationCollection.js:275-286 | true exactly for arrays of numbers (no NaN), recording the type of the last offender |
| ValidationCollection.ValidationCollection.IsArrayOfObjects | src/components/graphdrawer/classes/ValidationCollection.js:288-299 | true exactly for arrays of non-array objects, null included |
| ValidationCollection.ValidationCollection.IsOfValidValueType | src/components/graphdrawer/classes/ValidationCollection.js:301-308 | true exactly when the value's type name is a valid type |
| WidgetValidation.DatasetCheck | src/components/graphdrawer/graphdrawer.js:138-156 | succeeds exactly on non-empty arrays of numbers, one element included, with the four messages for its four failures |
| WidgetValidation.AxisTitlesOptionsParse | src/components/graphdrawer/graphdrawer.js:323-324 | the axis-title checker has the two title names and minimum length 1 |
| WidgetValidation.ColorArrayOptionsParse | src/components/graphdrawer/graphdrawer.js:345 | the colour-array checker has minimum length 1 |
| WidgetValidation.ColorOptionsParse | src/components/graphdrawer/graphdrawer.js:343-350 | the colour-request checker has the seven property names and the palette |
| WidgetValidation.FontOptionsParse | src/components/graphdrawer/graphdrawer.js:366-367 | the font checker has the three font property names |
| WidgetValidation.SizeOptionsParse | src/components/graphdrawer/graphdrawer.js:387-388 | the size checker has the width and height names |
| WidgetValidation.FirstNonString | src/components/graphdrawer/graphdrawer.js:335-339 | none is found exactly when every key holds a string, and one found is a key holding a non-string |
| WidgetValidation.FirstNonStringSticks | src/components/graphdrawer/graphdrawer.js:335-339 | once a non-string key is found, later keys do not change it |
| WidgetValidation.AxisTitlesCheckMeaning | src/components/graphdrawer/graphdrawer.js:322-340 | the titles pass exactly when they are an object with one or two entries, each under an axis name and holding a string |
| WidgetValidation.AxisTitlesCheckedValues | src/components/graphdrawer/graphdrawer.js:322-340 | after a pass, each title is a string or absent |
| WidgetValidation.ValidateAxisTitles | src/components/graphdrawer/graphdrawer.js:322-340 | the method throws exactly what the check says |
| WidgetValidation.CheckAxisTitlesShape | src/components/graphdrawer/graphdrawer.js:326-333 | the shape test through a checker is the shape check |
| WidgetValidation.FindNonString | src/components/graphdrawer/graphdrawer.js:335-339 | the loop finds the first non-string key |
| WidgetValidation.CheckEach | src/components/graphdrawer/graphdrawer.js:355-362 | a failure is the failure of some element |
| WidgetValidation.CheckEachMeaning | src/components/graphdrawer/graphdrawer.js:355-362 | the loop passes exactly when every element passes |
| WidgetValidation.CheckEachSticks | src/components/graphdrawer/graphdrawer.js:355-362 | the first failing element decides the error |
| WidgetValidation.SanctionedCheckMeaning | src/components/graphdrawer/graphdrawer.js:359-361 | a request passes the value test exactly when it is an object whose values are all palette strings |
| WidgetValidation.ColorRequestCheckMeaning | src/components/graphdrawer/graphdrawer.js:355-361 | with the property test that line 356 evidently intends, a request passes exactly when every key is a colour property and every value a palette string |
| WidgetValidation.EachColorRequestPasses | src/components/graphdrawer/graphdrawer.js:342-363 | the colour settings pass exactly when the array is non-empty and each request passes |
| WidgetValidation.ColorSettingsCheckAsWrittenWithMeaning | src/components/graphdrawer/graphdrawer.js:342-363 | as written, an array passes exactly when it is non-empty and each request is an object of palette values, whatever its keys |
| WidgetValidation.ColorSettingsCheckWithMeaning | src/components/graphdrawer/graphdrawer.js:342-363 | as intended, each request has colour-property keys as well |
| WidgetValidation.ColorSettingsCheckAsWrittenMeaning | src/components/graphdrawer/graphdrawer.js:342-363 | the as-written check on the palette itself |
| WidgetValidation.ColorSettingsCheckMeaning | src/components/graphdrawer/graphdrawer.js:342-363 | the intended check on the seven property names and the palette |
| WidgetValidation.ValidateColorSettings | src/components/graphdrawer/graphdrawer.js:342-362 | as written, the method throws exactly what the as-written check says: the array tests, then the palette-value test on each request, whatever its keys |
| WidgetValidation.ValidateColorSettingsIntended | src/components/graphdrawer/graphdrawer.js:342-362 | with the property test that line 356 evidently intends, the method throws exactly what the intended check says |
| WidgetValidation.CheckSanctionedRequests | src/components/graphdrawer/graphdrawer.js:355-362 | the as-written loop: each request in turn must have palette values only, and the first that does not raises the colour TypeError |
| WidgetValidation.CheckColorArray | src/components/graphdrawer/graphdrawer.js:345-353 | the array tests through a checker are the array check |
| WidgetValidation.CheckColorRequest | src/components/graphdrawer/graphdrawer.js:355-361 | one request's tests through a checker are the request check, and a pass leaves its lists empty |
| WidgetValidation.CheckColorRequests | src/components/graphdrawer/graphdrawer.js:355-362 | the loop over the requests is the per-request check |
| WidgetValidation.UnknownColorPropertyAccepted | src/components/graphdrawer/graphdrawer.js:356 | as written, a request under any key, such as `{foo: 'red'}`, passes |
| WidgetValidation.UnknownColorPropertyRefused | src/components/graphdrawer/graphdrawer.js:356 | as intended, a request under a key that is no colour property is refused |
| WidgetValidation.CaseSensitiveColors | src/components/graphdrawer/graphdrawer.js:359-361 | a request with a colour outside the lower-case palette, such as `'RED'`, is refused, both as written and as intended, under any key |
| WidgetValidation.UpperCaseRedAcceptedBySettings | src/components/graphdrawer/classes/ColorSettings.js:47 | yet the settings class itself accepts `'RED'` |
| WidgetValidation.MustHaveShapeMeaning | src/components/graphdrawer/graphdrawer.js:368-391 | a shape passes exactly when the object's own names are exactly the given names |
| WidgetValidation.CheckMustHave | src/components/graphdrawer/graphdrawer.js:368-391 | the shape test through a checker is the shape check |
| WidgetValidation.FontValuesCheckMeaning | src/components/graphdrawer/graphdrawer.js:372-383 | the font values pass exactly for a non-empty family and two sizes that are numbers ≥ 0 (NaN refused) |
| WidgetValidation.FontSettingsCheckMeaning | src/components/graphdrawer/graphdrawer.js:365-384 | the whole font check: exactly the three names, with those values |
| WidgetValidation.ValidateFontSettings | src/components/graphdrawer/graphdrawer.js:365-384 | the method throws exactly what the check says |
| WidgetValidation.CheckFontValues | src/components/graphdrawer/graphdrawer.js:372-383 | the value tests through a checker are the value check |
| WidgetValidation.CssLengthNotEmpty | src/components/graphdrawer/graphdrawer.js:397-411 | a value ending in `%` or `px` is never empty, so the emptiness tests only pick the message |
| WidgetValidation.SizeValuesCheckMeaning | src/components/graphdrawer/graphdrawer.js:393-411 | the values pass exactly when width and height are strings ending in `%` or `px`, and are handed on unchanged |
| WidgetValidation.SizeCheckMeaning | src/components/graphdrawer/graphdrawer.js:386-412 | the whole size check: exactly the two names, with those values |
| WidgetValidation.ValidateSizeObject | src/components/graphdrawer/graphdrawer.js:386-412 | the method throws exactly what the check says |
| WidgetValidation.CheckSizeValues | src/components/graphdrawer/graphdrawer.js:393-411 | the value tests through a checker are the value check |
| GraphDrawer.PropertyNamed | src/components/graphdrawer/graphdrawer.js:198-206 | a request key names a colour property exactly when it is one of the seven names |
| GraphDrawer.PropertyNameReadsBack | src/components/graphdrawer/graphdrawer.js:198-206 | each property's name names that property |
| GraphDrawer.ApplyColorRequests | src/components/graphdrawer/graphdrawer.js:208-211 | the loop never drops a colour from the object it fills |
| GraphDrawer.ApplyColorRequestsAt | src/components/graphdrawer/graphdrawer.js:208-211 | after the loop, each colour is the value of the last request whose first key names it, or the old colour |
| GraphDrawer.AcceptedRequests | src/components/graphdrawer/graphdrawer.js:195-196 | a value that passes the as-written validation is a non-empty array of objects whose values are all palette strings. Their keys are unconstrained |
| GraphDrawer.ApplyColorRequestsKeepsPalette | src/components/graphdrawer/graphdrawer.js:208-211 | applying accepted requests to palette colours yields palette colours |
| GraphDrawer.ColorsFromCreated | src/components/graphdrawer/graphdrawer.js:213-221 | building settings from those colours cannot throw |
| GraphDrawer.ColorsAfterField | src/components/graphdrawer/graphdrawer.js:195-222 | each new colour is the last requested value for it, or the old colour |
| GraphDrawer.UnmentionedColorKept | src/components/graphdrawer/graphdrawer.js:195-222 | a colour no request names keeps its value |
| GraphDrawer.LastColorRequestWins | src/components/graphdrawer/graphdrawer.js:208-211 | when several requests name a colour, the last one wins |
| GraphDrawer.SingleRequestField | src/components/graphdrawer/graphdrawer.js:208-211 | one accepted request sets the colour its first key names to that key's value, and leaves every other colour |
| GraphDrawer.UnnamedRequestsIgnored | src/components/graphdrawer/graphdrawer.js:208-221 | accepted requests whose first keys name no colour property, however many, leave the colour settings unchanged |
| GraphDrawer.LastLineColorRequest | src/components/graphdrawer/graphdrawer.js:208-221 | when the requests name no property but the line colour and the last one names it, its value becomes the line colour and nothing else changes |
| GraphDrawer.UnknownPropertyIgnored | src/components/graphdrawer/graphdrawer.js:208-221 | `[{foo: 'red'}]` is accepted by the merge and leaves the colours unchanged |
| GraphDrawer.FirstPropertyDecides | src/components/graphdrawer/graphdrawer.js:208-221 | in `{graphLineColor: c, foo: o}` only the first key counts: graphLineColor becomes c and nothing else changes |
| GraphDrawer.MergeColorRequests | src/components/graphdrawer/graphdrawer.js:198-211 | the loop builds the merged colour object |
| GraphDrawer.MergedTitlesIdempotent | src/components/graphdrawer/graphdrawer.js:170-182 | setting the same titles twice is setting them once |
| GraphDrawer.MergedTitlesFields | src/components/graphdrawer/graphdrawer.js:170-182 | a title given is taken, a title left out keeps its value |
| GraphDrawer.SceneDrawable | src/components/graphdrawer/graphdrawer.js:106-121 | a dataset of two or more numbers with valid settings makes valid rendering data whose statistics are its own |
| GraphDrawer.GraphDrawer.constructor | src/components/graphdrawer/graphdrawer.js:49-74 | the defaults: Arial 12/16, black lines and dots, gray zero line, white background, titles "Index" and "Values", container 100% × 100% |
| GraphDrawer.GraphDrawer.GetAxisTitles | src/components/graphdrawer/graphdrawer.js:267-269 | the copy equals the titles held |
| GraphDrawer.GraphDrawer.GetColorSettings | src/components/graphdrawer/graphdrawer.js:277-280 | the copy equals the colours held |
| GraphDrawer.GraphDrawer.GetFontSettingsAsWritten | src/components/graphdrawer/graphdrawer.js:288-295 | the sizes read back unchanged. The family is the second space-separated word of the label shorthand, so it reads back only when it has no space |
| GraphDrawer.GraphDrawer.GetFontSettings | src/components/graphdrawer/graphdrawer.js:288-295 | the corrected getter returns the settings held |
| GraphDrawer.GraphDrawer.SetAxisTitles | src/components/graphdrawer/graphdrawer.js:170-182 | fails as the title check says and leaves the titles. On success it merges the given titles into the old ones |
| GraphDrawer.GraphDrawer.SetColors | src/components/graphdrawer/graphdrawer.js:195-222 | throws exactly what the as-written colour check says and then leaves the colours. On success each colour is the value of the last request whose first key names it, or its old value; requests under other keys change nothing; the settings stay valid |
| GraphDrawer.GraphDrawer.ApplyColors | src/components/graphdrawer/graphdrawer.js:198-221 | requests that are objects of palette values, under any keys, are merged into the current colours as the merge function says, and the settings stay valid |
| GraphDrawer.GraphDrawer.SetFontSettings | src/components/graphdrawer/graphdrawer.js:240-243 | fails as the font check says and leaves the font. On success it stores the three given values |
| GraphDrawer.GraphDrawer.SetSize | src/components/graphdrawer/graphdrawer.js:250-255 | fails as the size check says and leaves the size. On success the container gets the given width and height |
| GraphDrawer.GraphDrawer.RenderArrayAsGraph | src/components/graphdrawer/graphdrawer.js:106-129 | renders exactly arrays of two or more numbers. The widget's dataset errors come first, and one number passes them but raises the "too short" Error. The drawing is that of the dataset with the current settings |
| GraphDrawer.ShorthandWords | src/components/graphdrawer/graphdrawer.js:291 | a label shorthand has at least two words, and the second is the family when it has no space |
| GraphDrawer.FamilyWithSpaceTruncated | src/components/graphdrawer/graphdrawer.js:291 | a family with a space, such as "Times New Roman", reads back as its first word only |

## Left out

- The DOM plumbing is not modelled:
  - the template, `customElements.define` and the shadow root;
  - `connectedCallback`, `disconnectedCallback` and `observedAttributes`;
  - `clear()` and the style writes of `setSize`.

  `setSize` keeps the container's width and height as two fields instead.
- Canvas painting is reduced to the positions listed above. These are not modelled:
  - the paint itself: `fillRect`, `stroke`, `arc` and `fill`;
  - colours, fonts, alignment and baselines set on the context, beyond the settings the drawing records;
  - dash patterns, `save`/`restore` and the rotation of the y title.
- Layout.XTitleY: gives only the y of the x title's translation. Its x uses `ctx.measureText`, which is foreign font metrics.
- A NaN font size makes the source pass NaN coordinates to `fillText` and `translate`. The model records `None` there and does not model what the canvas does with them.
- The `devicePixelRatio` scaling does not change the coordinates computed, so it is left out.
- `getComputedStyle` is a host call. `CanvasProperties.FromComputedStyle` takes the two style strings as inputs.
- CanvasProperties.FromComputedStyle: returns `None` for a computed width or height that `parseInt` reads as NaN, such as `"auto"`. `RenderArrayAsGraph` takes integer sizes, so such a canvas is not rendered in the model. The source does not throw there: it goes on and draws with NaN canvas properties.
- Numbers are integers, except the margins, the average and the label count, which are exact reals:
  - IEEE-754 rounding of `width * 0.1` and similar is not modelled;
  - `Number(s)` is modelled on integer tokens only; any other text is NaN;
  - `parseInt` is modelled on integer text.
- Regular expressions are modelled as character predicates and counts, not as a regex engine.
- `setDataPointDotsSize` only throws "Not implemented yet", so it is not modelled.
- `isInstanceOf`, and the `instanceof` and drawing-context checks of `GraphAndCanvasData`, are not modelled. The typed parameters make them vacuous.
- The getters of the step counts (`numberOfStepsOnYAxis`, `maxNumberOfStepsOnXAxis`) are not modelled as members. They are the class constants 10 and 20.
- `src/index.js` is not part of this model: event wiring, error display, reload.
- `console.log` calls are left out.
- Object keys are assumed distinct. Lemmas that reason about an object's entries require it (`DistinctKeys`), as JavaScript guarantees.
- Strings.ToLower: maps only the ASCII capitals and the Kelvin sign U+212A. Other non-ASCII capitals are left unchanged, and U+0130, which JavaScript lowers to two code units, keeps its length here. No other character lowers to ASCII letters alone, so the set of accepted colours is the same.
- The engine's reason strings for a failed `toLowerCase` call follow V8. Other engines word them differently.
- Layout.LabelCount: requires a label budget of at least 1. With a budget of 0, the source would halve until floating-point underflow.
- GraphDrawer.MergeColorRequests: keeps only the seven colour properties in the merged colour object. A request under another key would add a property that the constructor never reads.

## Findings

| source | as written | input that shows it | evidently intended | confidence | as-written member | corrected member |
|---|---|---|---|---|---|---|
| src/components/graphdrawer/classes/GraphAndCanvasData.js:83-85 | `isNaN(x \|\| x < 0 \|\| x > 50)`: the bounds sit inside `isNaN`, so no value of type number is refused | `maxNumberOfLabelsOnXAxis` of 51, -1 or NaN is accepted | `isNaN(x) \|\| x < 0 \|\| x > 50`, accepting exactly 0 to 50 | not executed | GraphAndCanvasData.MaxLabelsAsWrittenCounterexamples | GraphAndCanvasData.CreateIntended |
| src/components/graphdrawer/graphdrawer.js:356 | `!validators.isAnObjectThatMayHaveProperties` tests the method itself, which is always truthy, so request keys are never checked | `setColors([{ foo: 'red' }])` passes validation | call the method on the request, refusing keys that are not colour properties | not executed | WidgetValidation.UnknownColorPropertyAccepted | WidgetValidation.ValidateColorSettingsIntended |
| src/components/graphdrawer/graphdrawer.js:291 | the font getter takes the family as `label.split(' ')[1]` | a family of "Times New Roman" reads back as "Times" | read back the family held | not executed | GraphDrawer.FamilyWithSpaceTruncated | GraphDrawer.GraphDrawer.GetFontSettings |
| src/lib/helpers.js:22 | `match(/\[/g).length` reads `.length` of null when there is no `[` | `isVerifiableInputIntegrity("5")` throws a TypeError instead of returning false | treat a missing bracket as a malformed input and return false | not executed | Helpers.PlainNumberThrows | Helpers.IsVerifiableInputIntegrityIntended |
