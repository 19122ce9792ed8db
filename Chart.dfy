/** What the two prediction pages hand to the line chart: category labels and
    one data series per line, where a point is a value or a gap (`null` or
    `NaN` in the pages). The styling options of each line are not modelled. */
module Chart {
  import opened JsText
  import opened JsValue

  /** One line of the chart and its legend caption. */
  datatype Dataset = Dataset(caption: string, data: seq<Option<Value>>)

  datatype ChartData = ChartData(labels: seq<Value>, datasets: seq<Dataset>)

  /** `{ labels: [], datasets: [] }`: nothing to draw. */
  const NoChart: ChartData := ChartData([], [])

  const ActualCaption: string := "Actual Price (MYR)"
  const OriginalCaption: string := "Original Model Prediction (MYR)"
  const AdvancedCaption: string := "Advanced Model Prediction (MYR)"

  /** `Array(n).fill(null)` and `Array(n).fill(NaN)`: `n` gaps. */
  function Gaps(n: nat): (r: seq<Option<Value>>)
    ensures |r| == n
    ensures forall i :: 0 <= i < n ==> r[i] == None
  {
    seq(n, _ => None)
  }

  /** The values of an array, each drawn as a point. */
  function Points(xs: seq<Value>): (r: seq<Option<Value>>)
    ensures |r| == |xs|
    ensures forall i :: 0 <= i < |xs| ==> r[i] == Some(xs[i])
  {
    seq(|xs|, i requires 0 <= i < |xs| => Some(xs[i]))
  }

  /** Every line has one point per label. */
  predicate Aligned(c: ChartData) {
    forall k :: 0 <= k < |c.datasets| ==> |c.datasets[k].data| == |c.labels|
  }
}
