/** The records the dashboard stores and passes around (src/types/index.ts). */
module Types {
  import opened Wrappers

  datatype ApiType = REST | GRAPHQL

  datatype HttpMethod = GET | POST

  /** A header record: header name to value. */
  type Headers = map<string, string>

  /** Where and how a widget fetches its data; `None` is an absent optional field. */
  datatype ApiConfig = ApiConfig(
    endpoint: string,
    apiType: ApiType,
    httpMethod: Option<HttpMethod>,
    headers: Option<Headers>,
    body: Option<string>,
    variables: Option<string>,
    useDefaultData: Option<bool>,
    defaultDataKey: Option<string>)

  /** A grid row; a new widget's layout asks for row `Infinity`, the bottom of the grid. */
  datatype GridY = Row(row: int) | Infinity

  /** A widget's place on the grid; `i` names the widget it belongs to. */
  datatype WidgetLayout = WidgetLayout(
    i: string,
    x: int,
    y: GridY,
    w: int,
    h: int,
    minW: Option<int>,
    minH: Option<int>,
    maxW: Option<int>,
    maxH: Option<int>)

  datatype ViewType =
    | JSON | Table | Chart | BarChart | LineChart | DonutChart | RadarChart | Gauge | Progress | Stats

  datatype Widget = Widget(
    id: string,
    title: string,
    layout: WidgetLayout,
    useGlobalEndpoint: bool,
    localApiConfig: Option<ApiConfig>,
    viewType: ViewType,
    dataKey: Option<string>)

  /**
   * A `Partial<Widget>`: each field is absent (`None`) or present. The two
   * optional fields can be present with the value `undefined`, which is
   * `Some(None)`: spreading such a patch clears the field, while an absent
   * field leaves it alone.
   */
  datatype Patch = Patch(
    id: Option<string>,
    title: Option<string>,
    layout: Option<WidgetLayout>,
    useGlobalEndpoint: Option<bool>,
    localApiConfig: Option<Option<ApiConfig>>,
    viewType: Option<ViewType>,
    dataKey: Option<Option<string>>)

  /** The empty patch `{}`; `addWidget()` without an argument behaves as `addWidget({})`. */
  const NoFields: Patch := Patch(None, None, None, None, None, None, None)
}
