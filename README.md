# Dynamic dashboard: a verified model of its state and data rules

This project models, in Dafny, the logic of a customizable dashboard written
in React and TypeScript. The dashboard is a grid of widgets. Each widget
fetches JSON from a REST or GraphQL endpoint, its own or a global one, and
shows the result as JSON, a table or a chart. The model covers:

- the dashboard store (`DashboardStore.Dashboard`): the editable flag, the
  global API configuration and the widget list, with the six actions that
  replace them;
- the theme store and the `useTheme` hook (`ThemeStore`, `UseTheme`): a
  three-state mode, its resolution against the system preference, the
  toggle cycle and the `dark` class on the document root;
- the data hook `useFetchData` (`FetchData`): how a REST request is built,
  how a response becomes data or an error, how GraphQL and REST are told
  apart, how `dataKey` picks part of the result and when the query runs;
- the widget body (`DataFetcher`), the view switch (`Visualization`) and
  the table view (`TableView`): pure functions from the configuration, the
  query state and a JSON value (`Values.Value`) to view descriptors;
- a widget's frame (`WidgetWrapper`): the effective configuration and what
  saving the settings form does to the store;
- the two settings forms (`ApiConfigForm`, `GlobalApiConfigModal`, sharing
  `ConfigFields`): their default values and how a submitted form is
  normalised into a configuration;
- the stats grid (`StatCard`): column breakpoints, key labels, colour
  cycling and the trend line.

The network (`fetch`, the GraphQL client), `JSON.parse` and
`JSON.stringify`, the uuid generator and the system's colour-scheme
preference are parameters. Stores and component state that the source
updates in place are classes whose methods modify their fields. Everything
else is a function over datatypes.

Some behaviour the proofs make explicit:

- Saving a widget's settings with "use global endpoint" checked keeps the
  widget's old local configuration. It stays stored but unused
  (`WidgetWrapper.SavedWidgetFetchesFrom`).
- A widget that does not use the global endpoint and has no local
  configuration falls back to the global one. Saving its settings form
  unchanged stores a blank local configuration, and the widget then has no
  endpoint (`WidgetWrapper.UnchangedSaveWithoutLocalConfig`).
- A widget with `useDefaultData` and no endpoint counts as having a data
  source, but its query never runs (`DataFetcher.DefaultDataDoesNotFetch`).
- In a table, a `null` first element, or a nullish later element when
  there are columns, makes rendering throw (`TableView.NullRows`).

Files: `wrappers.dfy`, `strings.dfy`, `values.dfy` and `types.dfy` hold the
shared types and the JavaScript runtime behaviour the code relies on.
`config_fields.dfy` holds the form-field logic that the widget settings form
and the global settings dialog share. Each other file models one source
file.

## Model

| member | source | states |
|---|---|---|
| DashboardStore.Dashboard.constructor | src/store/dashboardStore.ts:19-33 | The store starts editable, with the default global configuration (REST GET, empty endpoint, empty headers, body and variables) and no widgets. |
| DashboardStore.Dashboard.ToggleEditable | src/store/dashboardStore.ts:35-36 | `isEditable` is negated; the configuration and the widgets are unchanged. |
| DashboardStore.Dashboard.SetGlobalApiConfig | src/store/dashboardStore.ts:38-39 | The global configuration becomes the argument; the flag and the widgets are unchanged. |
| DashboardStore.Dashboard.AddWidget | src/store/dashboardStore.ts:41-63 | Exactly one widget, `NewWidget(p, id)`, is appended after the old widgets. If `id` is fresh, the new widget's id differs from every earlier one. |
| DashboardStore.NewWidget | src/store/dashboardStore.ts:41-59 | The new widget has the generated id. A given non-empty title is kept; the title is 'New Widget' exactly when none or an empty one was given. A given layout is kept; without one the layout is `i` = id, x 0, y bottom, 4 by 3, minimum 2 by 2. `useGlobalEndpoint` is the given value, true when absent. The view type is the given one or JSON. `localApiConfig` and `dataKey` are the given ones, absent when not given. |
| DashboardStore.DefaultLayout | src/store/dashboardStore.ts:46-54 | The default layout names the widget, sits in column 0 at the bottom of the grid, and its minimum size fits within its size. |
| DashboardStore.ApplyPatch | src/store/dashboardStore.ts:68 | `{ ...w, ...updates }`: each field present in the update takes its value, each absent field keeps the widget's, and the empty update changes nothing. |
| DashboardStore.AddWidgetDefaults | src/store/dashboardStore.ts:43-59 | `addWidget()` gives title 'New Widget', layout x 0, y bottom, 4 by 3 with minimum 2 by 2, the global endpoint, no local configuration, view JSON and no data key. An explicit false `useGlobalEndpoint` is kept and an empty title is replaced. |
| DashboardStore.PatchComposition | src/store/dashboardStore.ts:68 | Spreading patch p and then q equals spreading their merge. The empty patch changes nothing. Spreading the same patch twice equals spreading it once. |
| DashboardStore.Dashboard.UpdateWidget | src/store/dashboardStore.ts:65-70 | The widget list becomes `UpdatedWidgets(old, id, updates)`; the other fields are unchanged. |
| DashboardStore.UpdatedWidgets | src/store/dashboardStore.ts:65-70 | Length and positions are kept. Each widget with the id gets the patch spread into it, and every other widget is unchanged. |
| DashboardStore.UpdateUnknownIdIsNoOp | src/store/dashboardStore.ts:65-70 | Updating an id that no widget has leaves the list equal to the old one. |
| DashboardStore.Dashboard.RemoveWidget | src/store/dashboardStore.ts:72-75 | The widget list becomes `WithoutId(old, id)`; the other fields are unchanged. |
| DashboardStore.WithoutId | src/store/dashboardStore.ts:72-75 | A widget is in the result exactly when it was in the list and has another id. The result is never longer. |
| DashboardStore.RemoveUnknownIdIsNoOp | src/store/dashboardStore.ts:72-75 | Removing an id that no widget has is a no-op. |
| DashboardStore.RemoveDistributes | src/store/dashboardStore.ts:74 | Removal from a concatenation is the concatenation of the removals, so the remaining widgets keep their relative order. |
| DashboardStore.RemoveIsIdempotent | src/store/dashboardStore.ts:72-75 | Removing the same id twice equals removing it once. |
| DashboardStore.Dashboard.UpdateLayout | src/store/dashboardStore.ts:77-86 | The widget list becomes `WithLayouts(old, layouts)`; the other fields are unchanged. |
| DashboardStore.FindLayout | src/store/dashboardStore.ts:80 | `find` returns nothing exactly when no layout names the id. Otherwise it returns the first layout that names it. |
| DashboardStore.FindLayoutSkipsOthers | src/store/dashboardStore.ts:80 | Inserting a layout for another id anywhere does not change which layout is found. |
| DashboardStore.WithLayouts | src/store/dashboardStore.ts:77-86 | Length and order are kept. Each widget gets the first layout naming it, or is unchanged when no layout names it. |
| DashboardStore.UnmatchedLayoutIgnored | src/store/dashboardStore.ts:77-86 | A layout whose `i` names no widget has no effect on the result. |
| DashboardStore.LayoutsKeepOtherFields | src/store/dashboardStore.ts:81-84 | Only the layout of a widget can change, and a changed layout names that widget. |
| DashboardStore.UsageScenarios | src/store/dashboardStore.ts:19-86 | A method with no contract of its own: its assertions establish, from the store's contracts alone, that toggling twice restores editing, two widgets added with distinct ids keep distinct ids, an update retitles only its widget, a layout change moves only its widget, and removal leaves exactly the other widget. |
| ThemeStore.ThemeState.constructor | src/store/themeStore.ts:14 | The initial mode is `system`. |
| ThemeStore.ThemeState.SetMode | src/store/themeStore.ts:15 | The mode becomes exactly the argument. |
| ThemeStore.GetResolvedTheme | src/store/themeStore.ts:24-29 | The result is dark exactly for `dark`, or for `system` when the system prefers dark. The result is always light or dark. |
| ThemeStore.ResolutionOfExplicitModes | src/store/themeStore.ts:24-29 | `light` and `dark` resolve to themselves whatever the system prefers. |
| ThemeStore.ThemedClasses | src/store/themeStore.ts:32-41 | `dark` is in the class set exactly when the theme is dark. Every other class is untouched. |
| ThemeStore.ThemedClassesIdempotent | src/store/themeStore.ts:32-41 | Applying the same theme twice equals applying it once. |
| ThemeStore.UsageScenarios | src/store/themeStore.ts:14-41 | A method with no contract of its own: its assertions establish that the store starts in `system`, that `setMode` takes effect, and that applying dark and then light adds and removes `dark` while other classes stay. |
| ThemeStore.ApplyTheme | src/store/themeStore.ts:32-41 | The root's classes become `ThemedClasses` of the old classes and the resolved theme. |
| ThemeStore.DocumentElement.constructor | src/store/themeStore.ts:34 | The document root holds exactly the given class set. |
| UseTheme.NextMode | src/hooks/useTheme.ts:26-35 | system goes to light, light to dark and dark to system, so the next mode always differs from the current one. |
| UseTheme.ToggleCycle | src/hooks/useTheme.ts:26-35 | Three toggles restore the mode; two never do. |
| UseTheme.ToggleReachesAll | src/hooks/useTheme.ts:26-35 | Every mode is reached from every mode within two toggles. |
| UseTheme.ToggleTheme | src/hooks/useTheme.ts:26-35 | The store's mode becomes `NextMode` of the old mode. |
| UseTheme.UseThemeValues | src/hooks/useTheme.ts:24-43 | `resolvedTheme` is `getResolvedTheme(mode)`, and `isDark` holds exactly when that is dark. |
| FetchData.RestOptions | src/hooks/useFetchData.ts:13-25 | The method defaults to GET. The headers are Content-Type plus the user's headers, and the user's values win. Content-Type is application/json unless the user set it. A body is attached exactly for POST with a non-empty body. |
| FetchData.RestOutcome | src/hooks/useFetchData.ts:27-33 | A rejected fetch propagates its error. A non-ok response fails with 'HTTP error! status: ' and the status. An ok response gives its JSON. |
| FetchData.HttpErrorCarriesStatus | src/hooks/useFetchData.ts:29-31 | The error of a non-ok response starts with the prefix, and the rest reads back as the status code. |
| FetchData.FetchRestData | src/hooks/useFetchData.ts:12-34 | The imperative request building (body assigned afterwards) yields `RestOutcome(fetch(endpoint, RestOptions(config)))`. |
| FetchData.GraphQLRequestOf | src/hooks/useFetchData.ts:36-47 | The client gets the endpoint and the user's headers. The query is the body or empty text. Variables are passed exactly when non-empty. |
| FetchData.Transport | src/hooks/useFetchData.ts:57-63 | A GRAPHQL configuration yields the GraphQL client's answer to `GraphQLRequestOf(config)`. Any other type yields `RestOutcome` of one `fetch` of the endpoint with `RestOptions`. |
| FetchData.TransportUsesOnePath | src/hooks/useFetchData.ts:59-63 | For GRAPHQL the result does not depend on `fetch`. For REST it does not depend on the GraphQL client. |
| FetchData.GetPath | src/hooks/useFetchData.ts:67 | The empty path gives the value itself. A non-empty path from null or undefined gives undefined. A one-name path reads that property. |
| FetchData.GetPathConcat | src/hooks/useFetchData.ts:66-67 | Following a path in two parts equals following the whole path. |
| FetchData.Get | src/hooks/useFetchData.ts:67 | `get` on null or undefined gives undefined. A key without dots reads that one property. |
| FetchData.Extract | src/hooks/useFetchData.ts:65-70 | With a non-empty dataKey the result is the lookup along its dot-separated names. Otherwise the data is returned unchanged. |
| FetchData.ExtractSteps | src/hooks/useFetchData.ts:66-67 | A single name reads that property. `a.rest` reads `a`, then `rest` inside it. |
| FetchData.ExtractNested | src/hooks/useFetchData.ts:66-67 | A key such as `data.users` picks the value nested under those two names. |
| FetchData.QueryFn | src/hooks/useFetchData.ts:52-71 | An empty endpoint fails with 'No endpoint configured'. Otherwise the transport's error propagates, or its data is passed through `Extract`. |
| FetchData.QueryEnabled | src/hooks/useFetchData.ts:49-72 | The query is enabled exactly when `enabled` (default true) holds and the endpoint is non-empty. |
| DataFetcher.HookOptions | src/components/widget/DataFetcher.tsx:17-23 | The hook gets the configuration and dataKey unchanged, with `enabled` equal to `hasDataSource`. |
| DataFetcher.HasDataSource | src/components/widget/DataFetcher.tsx:17 | A non-empty endpoint is a data source, and so is `useDefaultData` set to true. Without either there is none. |
| DataFetcher.ErrorMessage | src/components/widget/DataFetcher.tsx:50 | An `Error`'s message is shown; any other thrown value shows 'Unknown error'. |
| DataFetcher.Render | src/components/widget/DataFetcher.tsx:17-62 | Each branch is stated as an iff: no data source gives the no-endpoint view, whatever the flags; otherwise loading; otherwise error; otherwise data. The error view shows `ErrorMessage`, and Retry refetches exactly once. The data view is the dispatch of the unchanged data and view type. |
| DataFetcher.PriorityChain | src/components/widget/DataFetcher.tsx:25-44 | Without a source the query state is irrelevant. While loading, the error flag is irrelevant. A loading state and an error state render differently. |
| DataFetcher.DefaultDataDoesNotFetch | src/components/widget/DataFetcher.tsx:17-23 | The fetch hook is enabled exactly when the endpoint is non-empty. With default data and no endpoint there is a source but no query. |
| DataFetcher.NetworkErrorScenario | src/components/widget/DataFetcher.tsx:44-59 | A failed query with `Error('Network error')` shows that message and a Retry that refetches once. |
| Visualization.Dispatch | src/components/visualization/VisualizationLayer.tsx:11-21 | Table selects the table view and Chart the chart view; every other type selects the JSON view. The data is passed unchanged. |
| Visualization.UnhandledTypesShowJson | src/components/visualization/VisualizationLayer.tsx:19-20 | Each remaining chart type renders exactly as JSON does. |
| TableView.Render | src/components/visualization/TableView.tsx:9-157 | A non-empty array whose first element has `typeof` "object" gives a record table. Its columns are `Object.keys` of the first element, and its rows are `RecordRows` (a null first element throws). Another object gives one Key/Value row per entry, in order. Anything else gives the fallback message with its `typeof`. |
| TableView.RecordRows | src/components/visualization/TableView.tsx:42-69 | One row per element in array order, each with one cell per column, holding `RecordCell(row[col])`. It throws exactly when there are columns and some row is nullish. |
| TableView.RecordCell | src/components/visualization/TableView.tsx:68 | A null or undefined value shows as the empty string; any other value is `String(value)`. |
| TableView.KeyValueCell | src/components/visualization/TableView.tsx:141 | Values whose `typeof` is "object" (null included) are serialised with `JSON.stringify`; the rest use `String`. |
| TableView.StringText | src/components/visualization/TableView.tsx:68-141 | `String` of a string is the string itself. The text is known exactly for values other than arrays and numbers that are not safe integers. |
| TableView.NumberTextOfIndex | src/components/visualization/TableView.tsx:68 | An index below 2^53 prints as the same numeral `Object.keys` gives it, and that numeral reads back as the index. |
| TableView.ColumnsFromFirstRowOnly | src/components/visualization/TableView.tsx:10 | A key missing from the first element is never a column, whatever later rows hold. |
| TableView.MissingKeyGivesEmptyCell | src/components/visualization/TableView.tsx:68 | A row without a column's key shows an empty cell there. |
| TableView.FallbackCases | src/components/visualization/TableView.tsx:152-156 | Strings, numbers, booleans, null, undefined and the empty array all give the fallback. Null and the empty array report the type "object". |
| TableView.RecordArrayRenders | src/components/visualization/TableView.tsx:9-10 | An array of objects with no nullish element renders a record table with the first element's keys and one row per element. |
| TableView.NullRows | src/components/visualization/TableView.tsx:9-68 | A null first element throws. A later null row throws exactly when the first element has keys. |
| TableView.TwoRecordTable | src/components/visualization/TableView.tsx:9-69 | Two records with the same two keys give those keys as columns. Each row holds `String` of that record's values, in order, as for `[{ id: 1, name: 'Alice' }, { id: 2, name: 'Bob' }]`. |
| WidgetWrapper.EffectiveApiConfig | src/components/widget/WidgetWrapper.tsx:17-19 | With `useGlobalEndpoint` the global configuration is used, even when a local one exists. Otherwise the local one is used if present, and the global one if not. |
| WidgetWrapper.FetcherPropsOf | src/components/widget/WidgetWrapper.tsx:41-45 | The fetcher gets the effective configuration and the widget's own view type and data key. |
| WidgetWrapper.SavePatch | src/components/widget/WidgetWrapper.tsx:21-30 | The update sets title, endpoint choice, view type and data key (possibly undefined). It sets `localApiConfig` only when the form produced one. It never touches id or layout. |
| WidgetWrapper.SavedWidget | src/components/widget/WidgetWrapper.tsx:28 | After saving, the widget keeps its id and layout and takes the form's fields. It keeps its old local configuration when the form sent none. |
| WidgetWrapper.SavedWidgetFetchesFrom | src/components/widget/WidgetWrapper.tsx:17-30 | After saving with the global endpoint, the widget fetches from the global configuration and keeps its old local one. Otherwise it fetches from the configuration the form built. |
| WidgetWrapper.UnchangedSaveWithoutLocalConfig | src/components/widget/WidgetWrapper.tsx:17-30 | A widget off the global endpoint with no local configuration uses the global one. After saving its form unchanged, it has an empty endpoint. |
| WidgetWrapper.UnchangedSaveNormalises | src/components/widget/WidgetWrapper.tsx:21-30 | Saving the form unchanged leaves a widget with a local configuration as it was. The only differences are a normalised configuration and an empty data key becoming none. |
| WidgetWrapper.Frame.constructor | src/components/widget/WidgetWrapper.tsx:13 | The settings form starts closed. |
| WidgetWrapper.Frame.OnEdit | src/components/widget/WidgetWrapper.tsx:37 | The edit button opens the settings form. |
| WidgetWrapper.Frame.HandleSave | src/components/widget/WidgetWrapper.tsx:21-30 | The store's widgets become `UpdatedWidgets(old, widget.id, SavePatch(data))`, the other store fields are unchanged, and the form closes. |
| WidgetWrapper.Frame.OnDelete | src/components/widget/WidgetWrapper.tsx:38 | The delete button removes this widget's id from the store. |
| ConfigFields.FieldsOf | src/components/layout/GlobalApiConfigModal.tsx:23-32 | The form opens with the endpoint and type copied, the method or GET, the serialised headers or '', and the body and variables or ''. |
| ConfigFields.BuildConfig | src/components/layout/GlobalApiConfigModal.tsx:37-44 | The method is present exactly for REST, and the variables exactly for GRAPHQL (kept even when empty). Headers are absent exactly for empty text, otherwise parsed. The body is absent exactly when empty. Endpoint and type are copied. Nothing is built when parsing throws. |
| ConfigFields.Normalised | src/components/layout/GlobalApiConfigModal.tsx:37-44 | The normal form of a configuration is normal. It keeps endpoint, type and headers. It is the identity on normal configurations. |
| ConfigFields.BuiltConfigIsNormal | src/components/layout/GlobalApiConfigModal.tsx:37-44 | Every built configuration has the normal shape. |
| ConfigFields.UnchangedFormRoundTrip | src/components/layout/GlobalApiConfigModal.tsx:23-44 | Opening the form on a configuration and submitting it unchanged builds that configuration's normal form. This assumes the headers survive serialising and parsing. |
| ConfigFields.NormalConfigRoundTrip | src/components/layout/GlobalApiConfigModal.tsx:23-44 | A normal configuration survives the form unchanged. |
| GlobalApiConfigModal.OnSubmit | src/components/layout/GlobalApiConfigModal.tsx:36-47 | When the config builds, it is stored as the global configuration and the dialog closes. When parsing throws, nothing is stored and the dialog stays open. Widgets and flag are unchanged. |
| GlobalApiConfigModal.DefaultConfigRoundTrip | src/components/layout/GlobalApiConfigModal.tsx:23-47 | Submitting the initial global configuration unchanged stores REST GET with empty headers, no body and no variables. |
| GlobalApiConfigModal.ResubmitIsStable | src/components/layout/GlobalApiConfigModal.tsx:23-47 | A method with no contract of its own: its assertions establish that, when headers survive serialising and parsing, submitting the dialog unchanged always succeeds, and a second unchanged submission stores exactly what the first stored. |
| ApiConfigForm.DefaultValues | src/components/widget/ApiConfigForm.tsx:44-57 | Title, endpoint choice and view type are copied, and the data key is the given one or ''. Without a configuration the fields are blank (REST, GET). With one they are `FieldsOf` it. |
| ApiConfigForm.OnSubmit | src/components/widget/ApiConfigForm.tsx:62-88 | Title, endpoint choice and view type are copied, and an empty data key becomes absent. On the global endpoint there is no local configuration. Otherwise it is the built one. `onSave` is not reached only when parsing local headers throws. |
| ApiConfigForm.SubmittedConfigIsNormal | src/components/widget/ApiConfigForm.tsx:76-85 | A submitted local configuration has the normal shape. |
| ApiConfigForm.UnchangedSubmitRoundTrip | src/components/widget/ApiConfigForm.tsx:44-88 | Submitting the form as opened saves the same settings back. The local configuration is normalised (none on the global endpoint) and an empty data key becomes none. |
| ApiConfigForm.BlankFormSubmit | src/components/widget/ApiConfigForm.tsx:44-88 | A form opened without a configuration submits a local REST GET configuration with an empty endpoint. |
| StatCard.ColumnsFor | src/components/charts/CyberStatCard.tsx:120-131 | The column count is about one per 180 pixels and is always between 1 and 5. |
| StatCard.ColumnBreakpoints | src/components/charts/CyberStatCard.tsx:121-131 | Widths of 900 and up give 5 columns, 720 and up 4, 540 and up 3, 360 and up 2, and anything less 1. Each holds as an iff. |
| StatCard.ColumnsMonotone | src/components/charts/CyberStatCard.tsx:121-131 | A wider container never gets fewer columns. |
| StatCard.StatsGrid.constructor | src/components/charts/CyberStatCard.tsx:110 | The grid starts with 2 columns. |
| StatCard.StatsGrid.UpdateColumns | src/components/charts/CyberStatCard.tsx:117-133 | The if/else ladder sets `columns` to `ColumnsFor(width)`. Without a mounted container, `columns` is unchanged. |
| StatCard.SpaceBeforeCapitals | src/components/charts/CyberStatCard.tsx:163 | A key without capitals is unchanged, and the last character is kept. A leading capital gets a space before it. |
| StatCard.SpacingIsReversible | src/components/charts/CyberStatCard.tsx:163 | Dropping the spaces that stand before capitals gives back the original key. |
| StatCard.SpacingDistributes | src/components/charts/CyberStatCard.tsx:163 | Spacing works character by character, so it distributes over concatenation. |
| StatCard.Label | src/components/charts/CyberStatCard.tsx:163 | A label never starts or ends with white space. |
| StatCard.PlainKeyIsItsOwnLabel | src/components/charts/CyberStatCard.tsx:163 | A key with no capitals and no surrounding white space is its own label. |
| StatCard.LabelRecoversKey | src/components/charts/CyberStatCard.tsx:163 | A key without surrounding white space can be read back from its label. |
| StatCard.LabelOfCapitalStart | src/components/charts/CyberStatCard.tsx:163 | A key that starts with a capital and ends non-blank is labelled with that capital followed by the spaced rest: trimming removes only the inserted leading space. |
| StatCard.CamelCaseLabel | src/components/charts/CyberStatCard.tsx:163 | A key with one inner capital gets one space before it, so `cpuUsage` becomes `cpu Usage`. |
| StatCard.GridCards | src/components/charts/CyberStatCard.tsx:111-166 | One card per entry, in entry order. Each card has its key's label and its value, and card i gets palette colour i mod 5. |
| StatCard.ColourCycle | src/components/charts/CyberStatCard.tsx:111-165 | Two cards share a colour exactly when their positions are congruent modulo 5. |
| StatCard.Primary | src/components/charts/CyberStatCard.tsx:14-20 | Each palette colour has a primary colour written as `#` and six hex digits. |
| StatCard.PrimaryColoursDistinct | src/components/charts/CyberStatCard.tsx:14-20 | Two palette entries share a primary colour exactly when they are the same entry. |
| StatCard.TrendIndicator | src/components/charts/CyberStatCard.tsx:81-90 | There is no trend line without a trend. A trend ≥ 0 shows ▲ in green (#00ff9f); otherwise ▼ in pink (#ff006e). Each holds as an iff. The magnitude is never negative. |
| StatCard.TrendRecoversValue | src/components/charts/CyberStatCard.tsx:84-87 | The arrow and the magnitude together give back the trend, so the magnitude is its absolute value. |
| Values.TypeOf | src/components/visualization/TableView.tsx:9-141 | `typeof` is "object" exactly for null, arrays and objects, and "undefined" exactly for undefined. |
| Values.Lookup | src/hooks/useFetchData.ts:67 | A property is missing exactly when no entry has its name. Otherwise the value is that of the first entry with the name. |
| Values.OwnKeys | src/components/visualization/TableView.tsx:10 | `Object.keys` gives an object's property names in order, and an array's index numerals. |
| Values.Prop | src/hooks/useFetchData.ts:67 | An object's property is its lookup, or undefined. An array gives undefined or one of its elements. A string gives undefined or one of its characters. Booleans and numbers have no own properties. |
| Values.ArrayPropAtIndex | src/components/visualization/TableView.tsx:68 | An array element is read under the numeral of its index and under no other key. |
| Values.MissingPropIsUndefined | src/components/visualization/TableView.tsx:68 | Reading a property an object lacks gives undefined. |
| Strings.DecimalTextParses | src/hooks/useFetchData.ts:30 | The numeral written for a number reads back as that number. |
| Strings.ParsedIndexIsCanonical | src/components/visualization/TableView.tsx:68 | Only the canonical numeral of an index names an array element. |
| Strings.Split | src/hooks/useFetchData.ts:67 | Splitting gives at least one piece, and no piece contains the separator. |
| Strings.JoinSplit | src/hooks/useFetchData.ts:67 | Joining the pieces of a split gives back the string. |
| Strings.SplitJoin | src/hooks/useFetchData.ts:67 | Splitting a join of separator-free pieces gives back the pieces. |
| Strings.Trim | src/components/charts/CyberStatCard.tsx:163 | `trim` leaves no white space at either end. |
| Strings.TrimKeepsMiddle | src/components/charts/CyberStatCard.tsx:163 | `trim` returns the slice of its input that starts after the leading white space; only white space lies before and after that slice. |
| Strings.TrimDropsOneSpace | src/components/charts/CyberStatCard.tsx:163 | One space before a text that starts and ends non-blank is exactly what `trim` removes. |
| Strings.TrimUnpadded | src/components/charts/CyberStatCard.tsx:163 | A string without surrounding white space is its own trim. |

## Left out

- Persistence: the zustand `persist` middleware and `localStorage` (src/store/dashboardStore.ts:88-90, src/store/themeStore.ts:17-19) are I/O.
- The `matchMedia` listener in `useTheme`, the `ResizeObserver` in the stats grid, react-spring number animation and framer-motion styling are effects and markup. The system preference and the measured width are parameters.
- react-query: caching, `staleTime`, `retry`, async scheduling and the `queryKey`. The model takes the query state that `useFetchData` reports as input.
- Network I/O: `fetch`, `response.json()`, the GraphQL client and `gql` are function parameters. Parsing the GraphQL variables happens inside the client parameter.
- The chart view (a placeholder that counts data points) and the chart components. No chart-kind classification exists in the source.
- `JsonView`, `Toolbar`, `WidgetHeader`, `DashboardLayout`, `GridContainer`, `App` and the default data: markup only.
- FetchData.Get: models lodash `get` on plain dot-separated keys only. Bracket and array syntax, and own keys that contain dots, are library behaviour.
- FetchData.RestOptions: headers are a map with exact-name keys. `fetch` treats header names case-insensitively, so a user `content-type` header would be combined with the default rather than replace it.
- Values.Prop: inherited properties (`length`, prototype methods) read as undefined. The array-index limit of 2^32 - 2 is not modelled. Strings are sequences of Unicode scalar values, while JavaScript indexes UTF-16 code units, so a character outside the Basic Multilingual Plane is one index here and two in JavaScript.
- TableView.StringText: the text of arrays, of fractional numbers and of whole numbers of magnitude 2^53 or more is not given. For those numbers JavaScript prints the shortest digits that read back as the same double, and uses exponent form from 1e21. `JSON.stringify` cells are descriptors, not text.
- DashboardStore.NewWidget: a `Partial<Widget>` field other than `localApiConfig` and `dataKey` that is present with the value `undefined` is not modelled. Such a field is treated as absent or set.
- DashboardStore.ApplyPatch: the same holds for the updates spread into a widget; a present `undefined` is modelled only for `localApiConfig` and `dataKey`.
- DashboardStore.UpdatedWidgets: `updateWidget` spreads its updates with `ApplyPatch`, so it shares that limitation.
- DashboardStore.Dashboard.AddWidget: uuid generation is a parameter, and the new id is fresh only under the stated condition.
- ThemeStore.ThemedClasses: the class list is a set; order and duplicates are not modelled.
- StatCard.TrendIndicator: numbers are reals, so NaN and floating-point formatting of the magnitude are not modelled.
- ApiConfigForm.OnSubmit: `JSON.parse` is assumed to yield a header record when it does not throw. `onSave` being called once is modelled as returning the single result.
- GlobalApiConfigModal.OnSubmit: `onClose` is modelled as the returned `closed` flag.
- DataFetcher.Render: `instanceof Error` is modelled by the two kinds of thrown values. Retry is modelled as the list of effects it triggers.
