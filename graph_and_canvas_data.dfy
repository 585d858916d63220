/**
 * Everything one rendering needs, checked once when it is put together:
 * the canvas geometry, the statistics, the dataset, the label limits and the
 * font, colour and title settings.
 */
module GraphAndCanvasData {
  import opened Js
  import CanvasProperties
  import GraphProperties
  import FontSettings
  import ColorSettings
  import AxisTitles

  /** The zero the zero line is drawn at. */
  const NonMagicZero := 0

  datatype GraphAndCanvasData = GraphAndCanvasData(
    canvasProperties: CanvasProperties.CanvasProperties,
    graphProperties: GraphProperties.GraphProperties,
    dataset: seq<int>,
    maxNumberOfLabelsOnXAxis: JsValue,
    numberOfLabelsOnYAxis: int,
    fontSettings: FontSettings.FontSettings,
    colorSettings: ColorSettings.ColorSettings,
    axisTitles: AxisTitles.AxisTitles)
  {
    /** What construction guarantees. */
    predicate Valid() {
      && graphProperties.Valid()
      && |dataset| >= 2
      && IsNumber(maxNumberOfLabelsOnXAxis)
      && numberOfLabelsOnYAxis == 10
      && fontSettings.Valid()
      && colorSettings.Valid()
    }
  }

  /** The dataset must be an array of at least two numbers other than NaN; every failure is a plain Error. */
  function VerifyDatasetIntegrity(dataset: JsValue): (r: Result<seq<int>>)
    ensures r.Success? <==> dataset.Arr? && |dataset.elems| >= 2 && GraphProperties.AllNumbers(dataset.elems)
    ensures !dataset.Arr? ==> r == Failure(Error("GraphDrawer: The dataset is not an array."))
    ensures dataset.Arr? && |dataset.elems| < 2 ==>
              r == Failure(Error("GraphDrawer: The dataset is too short. It must contain at least two numbers."))
    ensures dataset.Arr? && |dataset.elems| >= 2 && !GraphProperties.AllNumbers(dataset.elems) ==>
              r == Failure(Error("GraphDrawer: The dataset contains non-numbers."))
    ensures r.Success? ==> r.value == GraphProperties.Numbers(dataset.elems)
  {
    if !dataset.Arr? then Failure(Error("GraphDrawer: The dataset is not an array."))
    else if |dataset.elems| < 2 then
      Failure(Error("GraphDrawer: The dataset is too short. It must contain at least two numbers."))
    else if exists i :: 0 <= i < |dataset.elems| && (TypeOf(dataset.elems[i]) != "number" || IsNaN(dataset.elems[i])) then
      Failure(Error("GraphDrawer: The dataset contains non-numbers."))
    else Success(GraphProperties.Numbers(dataset.elems))
  }

  /** `v < k` and `v > k` for a number, false for NaN. */
  predicate Below(v: JsValue, k: int) {
    v.Num? && v.n < k
  }

  predicate Above(v: JsValue, k: int) {
    v.Num? && v.n > k
  }

  /**
   * The label-limit test as written: the closing parenthesis of `isNaN(` comes
   * after the bounds, so it reads `isNaN(x || x < 0 || x > 50)`.
   */
  predicate MaxLabelsRejectedAsWritten(x: JsValue) {
    || x.Undefined? || x.Null? || TypeOf(x) != "number"
    || IsNaN(Or(x, Or(Bool(Below(x, 0)), Bool(Above(x, 50)))))
  }

  /** The evidently intended test: `isNaN(x) || x < 0 || x > 50`. */
  predicate MaxLabelsRejected(x: JsValue) {
    || x.Undefined? || x.Null? || TypeOf(x) != "number"
    || IsNaN(x) || Below(x, 0) || Above(x, 50)
  }

  /** As written, no number is refused: `x || …` is a number or a boolean, never NaN. */
  lemma MaxLabelsAsWrittenAcceptsEveryNumber(x: JsValue)
    ensures !MaxLabelsRejectedAsWritten(x) <==> IsNumber(x)
  {
  }

  lemma MaxLabelsAsWrittenCounterexamples()
    ensures !MaxLabelsRejectedAsWritten(Num(51)) && !MaxLabelsRejectedAsWritten(NaN)
    ensures !MaxLabelsRejectedAsWritten(Num(-1))
  {
    MaxLabelsAsWrittenAcceptsEveryNumber(Num(51));
    MaxLabelsAsWrittenAcceptsEveryNumber(NaN);
    MaxLabelsAsWrittenAcceptsEveryNumber(Num(-1));
  }

  /** The intended test admits exactly the numbers from 0 to 50. */
  lemma MaxLabelsAcceptsRange(x: JsValue)
    ensures !MaxLabelsRejected(x) <==> x.Num? && 0 <= x.n <= 50
  {
  }

  predicate LabelsOnYAxisRejected(x: JsValue) {
    || x.Undefined? || x.Null? || TypeOf(x) != "number" || IsNaN(x)
    || x != Num(10)
  }

  /**
   * The constructor, as written.  The parameters that the source checks with
   * `instanceof` are typed here; the drawing context is not part of this model.
   * Because of the misplaced parenthesis, any value of type number (NaN, -1 and
   * 51 included) is taken as the label limit.
   */
  function Create(canvasProperties: CanvasProperties.CanvasProperties,
                  graphProperties: GraphProperties.GraphProperties,
                  dataset: JsValue,
                  maxNumberOfLabelsOnXAxis: JsValue,
                  numberOfLabelsOnYAxis: JsValue,
                  fontSettings: FontSettings.FontSettings,
                  colorSettings: ColorSettings.ColorSettings,
                  axisTitles: AxisTitles.AxisTitles): (r: Result<GraphAndCanvasData>)
    ensures r.Success? <==>
              && VerifyDatasetIntegrity(dataset).Success?
              && IsNumber(maxNumberOfLabelsOnXAxis)
              && numberOfLabelsOnYAxis == Num(10)
    ensures VerifyDatasetIntegrity(dataset).Failure? ==> r == VerifyDatasetIntegrity(dataset).PropagateFailure()
    ensures VerifyDatasetIntegrity(dataset).Success? && !IsNumber(maxNumberOfLabelsOnXAxis) ==>
              r == Failure(TypeError("maxNumberOfLabelsOnXAxis must be a number between 0 and 50"))
    ensures VerifyDatasetIntegrity(dataset).Success? && IsNumber(maxNumberOfLabelsOnXAxis)
            && numberOfLabelsOnYAxis != Num(10) ==>
              r == Failure(TypeError("numberOfLabelsOnYAxis must be a number, 10"))
    ensures r.Success? ==>
              && r.value.canvasProperties == canvasProperties
              && r.value.graphProperties == graphProperties
              && r.value.dataset == GraphProperties.Numbers(dataset.elems)
              && r.value.maxNumberOfLabelsOnXAxis == maxNumberOfLabelsOnXAxis
              && r.value.numberOfLabelsOnYAxis == 10
              && r.value.fontSettings == fontSettings
              && r.value.colorSettings == colorSettings
              && r.value.axisTitles == axisTitles
    ensures r.Success? && graphProperties.Valid() && fontSettings.Valid() && colorSettings.Valid() ==> r.value.Valid()
  {
    var values :- VerifyDatasetIntegrity(dataset);
    MaxLabelsAsWrittenAcceptsEveryNumber(maxNumberOfLabelsOnXAxis);
    if MaxLabelsRejectedAsWritten(maxNumberOfLabelsOnXAxis) then
      Failure(TypeError("maxNumberOfLabelsOnXAxis must be a number between 0 and 50"))
    else if LabelsOnYAxisRejected(numberOfLabelsOnYAxis) then
      Failure(TypeError("numberOfLabelsOnYAxis must be a number, 10"))
    else
      Success(GraphAndCanvasData(canvasProperties, graphProperties, values, maxNumberOfLabelsOnXAxis, 10,
                                 fontSettings, colorSettings, axisTitles))
  }

  /** The constructor with the label-limit test as evidently intended: only 0 to 50 is taken. */
  function CreateIntended(canvasProperties: CanvasProperties.CanvasProperties,
                          graphProperties: GraphProperties.GraphProperties,
                          dataset: JsValue,
                          maxNumberOfLabelsOnXAxis: JsValue,
                          numberOfLabelsOnYAxis: JsValue,
                          fontSettings: FontSettings.FontSettings,
                          colorSettings: ColorSettings.ColorSettings,
                          axisTitles: AxisTitles.AxisTitles): (r: Result<GraphAndCanvasData>)
    ensures r.Success? <==>
              && VerifyDatasetIntegrity(dataset).Success?
              && maxNumberOfLabelsOnXAxis.Num? && 0 <= maxNumberOfLabelsOnXAxis.n <= 50
              && numberOfLabelsOnYAxis == Num(10)
    ensures VerifyDatasetIntegrity(dataset).Success? && MaxLabelsRejected(maxNumberOfLabelsOnXAxis) ==>
              r == Failure(TypeError("maxNumberOfLabelsOnXAxis must be a number between 0 and 50"))
    ensures r.Success? ==>
              r == Create(canvasProperties, graphProperties, dataset, maxNumberOfLabelsOnXAxis, numberOfLabelsOnYAxis,
                          fontSettings, colorSettings, axisTitles)
  {
    var values :- VerifyDatasetIntegrity(dataset);
    MaxLabelsAcceptsRange(maxNumberOfLabelsOnXAxis);
    if MaxLabelsRejected(maxNumberOfLabelsOnXAxis) then
      Failure(TypeError("maxNumberOfLabelsOnXAxis must be a number between 0 and 50"))
    else if LabelsOnYAxisRejected(numberOfLabelsOnYAxis) then
      Failure(TypeError("numberOfLabelsOnYAxis must be a number, 10"))
    else
      Success(GraphAndCanvasData(canvasProperties, graphProperties, values, maxNumberOfLabelsOnXAxis, 10,
                                 fontSettings, colorSettings, axisTitles))
  }
}
