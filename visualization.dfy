/**
 * The view switch (src/components/visualization/VisualizationLayer.tsx):
 * which of the three views a widget's data goes to.
 */
module Visualization {
  import opened Values
  import opened Types

  /** The view chosen, holding the data it is given. */
  datatype View = JsonView(data: Value) | TableView(data: Value) | ChartView(data: Value)

  /** `VisualizationLayer`: `Table` and `Chart` have their own views; every other type shows JSON. */
  function Dispatch(data: Value, viewType: ViewType): (v: View)
    ensures v.data == data
    ensures v.TableView? <==> viewType == Table
    ensures v.ChartView? <==> viewType == Chart
    ensures v.JsonView? <==> viewType != Table && viewType != Chart
  {
    match viewType
    case JSON => JsonView(data)
    case Table => TableView(data)
    case Chart => ChartView(data)
    case _ => JsonView(data)
  }

  /** The chart types without a view of their own fall back to the JSON view, as `JSON` does. */
  lemma UnhandledTypesShowJson(data: Value)
    ensures forall t :: t in [BarChart, LineChart, DonutChart, RadarChart, Gauge, Progress, Stats] ==>
              Dispatch(data, t) == Dispatch(data, JSON) == JsonView(data)
  {
  }
}
