/** The two axis titles, each any string. */
module AxisTitles {
  import opened Js

  datatype AxisTitles = AxisTitles(xAxis: string, yAxis: string)

  /** The constructor: both titles must be strings; the x title is checked first. */
  function Create(xAxis: JsValue, yAxis: JsValue): (r: Result<AxisTitles>)
    ensures r.Success? <==> xAxis.Str? && yAxis.Str?
    ensures !xAxis.Str? ==> r == Failure(TypeError("xAxis must be a string"))
    ensures xAxis.Str? && !yAxis.Str? ==> r == Failure(TypeError("yAxis must be a string"))
    ensures r.Success? ==> r.value.xAxis == xAxis.s && r.value.yAxis == yAxis.s
  {
    if TypeOf(xAxis) != "string" then Failure(TypeError("xAxis must be a string"))
    else if TypeOf(yAxis) != "string" then Failure(TypeError("yAxis must be a string"))
    else Success(AxisTitles(xAxis.s, yAxis.s))
  }

  /** Rebuilding from the two getters gives back the same titles. */
  lemma CopyIsIdentity(t: AxisTitles)
    ensures Create(Str(t.xAxis), Str(t.yAxis)) == Success(t)
  {
  }
}
