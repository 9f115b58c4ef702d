/**
 * The dashboard's line chart: recorded daily sales followed by the forecast, on one shared axis.
 * Day labels come from `toLocaleDateString`, which is locale behaviour outside the model and is
 * passed in as `dayLabel`.
 */
module MainChart {
  import opened Wrappers
  import opened SalesPrediction

  /** `forecast` holds `null` (None) on the recorded days. */
  datatype LineChart = LineChart(
    labels: seq<string>,
    actualLabel: string, actual: seq<int>,
    forecastLabel: string, forecast: seq<Option<int> >)

  function Historical(pd: Option<PredictionData>): seq<HistoricalPoint> {
    if pd.Some? then pd.value.historicalData else []
  }

  function Predicted(pd: Option<PredictionData>): seq<Prediction> {
    if pd.Some? then pd.value.predictions else []
  }

  /** The `chartData` memo: labels, the 'Vendas Reais' series and the 'Previsão IA' series. */
  function ChartData(pd: Option<PredictionData>, dayLabel: string -> string): (c: LineChart)
    ensures var h, p := Historical(pd), Predicted(pd);
      && |c.labels| == |h| + |p|
      && (forall i :: 0 <= i < |h| ==> c.labels[i] == dayLabel(h[i].date))
      && (forall i :: 0 <= i < |p| ==> c.labels[|h| + i] == dayLabel(p[i].date))
      && |c.actual| == |h|
      && (forall i :: 0 <= i < |h| ==> c.actual[i] == h[i].total)
      && |c.forecast| == |c.labels|
      && (forall i :: 0 <= i < |h| ==> c.forecast[i].None?)
      && (forall i :: 0 <= i < |p| ==> c.forecast[|h| + i] == Some(p[i].predictedValue))
    ensures c.actualLabel == "Vendas Reais" && c.forecastLabel == "Previsão IA"
    ensures pd.None? ==> c.labels == [] && c.actual == [] && c.forecast == []
  {
    var h, p := Historical(pd), Predicted(pd);
    var historicalLabels := seq(|h|, i requires 0 <= i < |h| => dayLabel(h[i].date));
    var historicalValues := seq(|h|, i requires 0 <= i < |h| => h[i].total);
    var predictionLabels := seq(|p|, i requires 0 <= i < |p| => dayLabel(p[i].date));
    var predictionValues := seq(|p|, i requires 0 <= i < |p| => Some(p[i].predictedValue));
    var padding := seq(|historicalValues|, _ => None);
    LineChart(historicalLabels + predictionLabels, "Vendas Reais", historicalValues, "Previsão IA", padding + predictionValues)
  }
}
