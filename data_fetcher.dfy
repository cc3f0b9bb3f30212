/**
 * The data fetcher (src/components/widget/DataFetcher.tsx): given a widget's
 * effective configuration and the state of its query, what the widget body
 * shows. The query state is whatever `useFetchData` currently reports.
 */
module DataFetcher {
  import opened Wrappers
  import opened Values
  import opened Types
  import opened FetchData
  import opened Visualization

  /** A thrown value: an `Error` instance with its message, or anything else. */
  datatype Thrown = ErrorInstance(message: string) | NonError

  /** The part of the query result the component reads. */
  datatype QueryState = QueryState(data: Value, isLoading: bool, isError: bool, error: Thrown)

  /** What a button does when clicked. */
  datatype Effect = Refetch

  datatype FetcherView =
    | NoEndpointView
    | LoadingView
    | ErrorView(message: string, onRetry: seq<Effect>)
    | DataView(view: View)

  const UnknownErrorMessage := "Unknown error"

  /** The props `DataFetcher` receives. */
  datatype FetcherProps = FetcherProps(apiConfig: ApiConfig, viewType: ViewType, dataKey: Option<string>)

  /** `hasDataSource`: an endpoint, or the request to use the bundled default data. */
  predicate HasDataSource(config: ApiConfig): (b: bool)
    ensures config.endpoint != "" ==> b
    ensures config.useDefaultData == Some(true) ==> b
    ensures config.endpoint == "" && config.useDefaultData != Some(true) ==> !b
  {
    config.endpoint != "" || config.useDefaultData == Some(true)
  }

  /** The options the component passes to `useFetchData`. */
  function HookOptions(props: FetcherProps): (o: FetchOptions)
    ensures o.apiConfig == props.apiConfig && o.dataKey == props.dataKey
    ensures o.enabled == Some(HasDataSource(props.apiConfig))
  {
    FetchOptions(props.apiConfig, props.dataKey, Some(HasDataSource(props.apiConfig)))
  }

  /** The text shown for a failed query. */
  function ErrorMessage(e: Thrown): (m: string)
    ensures e.ErrorInstance? ==> m == e.message
    ensures e.NonError? ==> m == UnknownErrorMessage
  {
    if e.ErrorInstance? then e.message else UnknownErrorMessage
  }

  /** The chain of early returns: no source, then loading, then error, then the data. */
  function Render(props: FetcherProps, state: QueryState): (v: FetcherView)
    ensures v.NoEndpointView? <==> !HasDataSource(props.apiConfig)
    ensures v.LoadingView? <==> HasDataSource(props.apiConfig) && state.isLoading
    ensures v.ErrorView? <==> HasDataSource(props.apiConfig) && !state.isLoading && state.isError
    ensures v.ErrorView? ==> v.message == ErrorMessage(state.error) && v.onRetry == [Refetch]
    ensures v.DataView? ==> v.view == Dispatch(state.data, props.viewType)
  {
    if !HasDataSource(props.apiConfig) then NoEndpointView
    else if state.isLoading then LoadingView
    else if state.isError then ErrorView(ErrorMessage(state.error), [Refetch])
    else DataView(Dispatch(state.data, props.viewType))
  }

  /** The loading and error flags do not matter without a source, and loading hides an error. */
  lemma PriorityChain(props: FetcherProps, s1: QueryState, s2: QueryState)
    ensures !HasDataSource(props.apiConfig) ==> Render(props, s1) == Render(props, s2)
    ensures s1.isLoading && s2.isLoading ==> Render(props, s1) == Render(props, s2)
    ensures s1.isLoading && !s2.isLoading && s2.isError && HasDataSource(props.apiConfig) ==>
              Render(props, s1) != Render(props, s2)
  {
  }

  /**
   * The query runs only for a configured endpoint: a widget that asks for
   * default data has a data source, yet its query stays disabled.
   */
  lemma DefaultDataDoesNotFetch(props: FetcherProps)
    ensures QueryEnabled(HookOptions(props)) <==> props.apiConfig.endpoint != ""
    ensures props.apiConfig.endpoint == "" && props.apiConfig.useDefaultData == Some(true) ==>
              HasDataSource(props.apiConfig) && !QueryEnabled(HookOptions(props))
  {
  }

  /** The component's own scenario: an `Error` from the query shows its message and a Retry that refetches once. */
  lemma NetworkErrorScenario(config: ApiConfig, viewType: ViewType)
    requires config.endpoint != ""
    ensures Render(FetcherProps(config, viewType, None), QueryState(Null, false, true, ErrorInstance("Network error")))
            == ErrorView("Network error", [Refetch])
  {
  }
}
