/**
 * A widget's frame (src/components/widget/WidgetWrapper.tsx): which API
 * configuration its data fetcher uses, what saving its settings form does
 * to the store, and whether the settings form is showing.
 */
module WidgetWrapper {
  import opened Wrappers
  import opened Types
  import opened DashboardStore
  import opened ConfigFields
  import opened ApiConfigForm
  import opened DataFetcher

  /** `effectiveApiConfig`: the global configuration, unless the widget opts out and has its own. */
  function EffectiveApiConfig(w: Widget, global: ApiConfig): (c: ApiConfig)
    ensures w.useGlobalEndpoint ==> c == global
    ensures !w.useGlobalEndpoint && w.localApiConfig.Some? ==> c == w.localApiConfig.value
    ensures !w.useGlobalEndpoint && w.localApiConfig.None? ==> c == global
  {
    if w.useGlobalEndpoint then global
    else if w.localApiConfig.Some? then w.localApiConfig.value
    else global
  }

  /** The props the frame gives its `DataFetcher`. */
  function FetcherPropsOf(w: Widget, global: ApiConfig): (p: FetcherProps)
    ensures p.apiConfig == EffectiveApiConfig(w, global)
    ensures p.viewType == w.viewType && p.dataKey == w.dataKey
  {
    FetcherProps(EffectiveApiConfig(w, global), w.viewType, w.dataKey)
  }

  /**
   * The form's result as a widget update: `dataKey` is always present
   * (possibly as `undefined`), `localApiConfig` only when the form set it.
   */
  function SavePatch(d: SaveData): (p: Patch)
    ensures p.id.None? && p.layout.None?
    ensures p.title == Some(d.title) && p.useGlobalEndpoint == Some(d.useGlobalEndpoint)
    ensures p.viewType == Some(d.viewType) && p.dataKey == Some(d.dataKey)
    ensures p.localApiConfig.Some? <==> d.localApiConfig.Some?
    ensures p.localApiConfig.Some? ==> p.localApiConfig.value == d.localApiConfig
  {
    Patch(None, Some(d.title), None, Some(d.useGlobalEndpoint),
          if d.localApiConfig.Some? then Some(d.localApiConfig) else None,
          Some(d.viewType), Some(d.dataKey))
  }

  /**
   * Saving keeps the widget's id and layout, takes the form's title, view,
   * data key and endpoint choice, and keeps the old local configuration
   * when the form sent none.
   */
  lemma SavedWidget(w: Widget, d: SaveData)
    ensures var s := ApplyPatch(w, SavePatch(d));
            s.id == w.id && s.layout == w.layout
            && s.title == d.title && s.viewType == d.viewType && s.dataKey == d.dataKey
            && s.useGlobalEndpoint == d.useGlobalEndpoint
            && s.localApiConfig == (if d.localApiConfig.Some? then d.localApiConfig else w.localApiConfig)
  {
  }

  /**
   * After saving, the widget fetches from the global configuration when the
   * form chose it (its old local configuration stays stored, unused), and
   * from the new local configuration otherwise.
   */
  lemma SavedWidgetFetchesFrom(w: Widget, d: SaveData, global: ApiConfig, parse: Parse, data: FormData)
    requires OnSubmit(data, parse) == Some(d)
    ensures var s := ApplyPatch(w, SavePatch(d));
            (d.useGlobalEndpoint ==> EffectiveApiConfig(s, global) == global && s.localApiConfig == w.localApiConfig)
            && (!d.useGlobalEndpoint ==> EffectiveApiConfig(s, global) == BuildConfig(data.fields, parse).value)
  {
  }

  /**
   * Saving the form unchanged on a widget that opted out of the global
   * endpoint but has no local configuration stores a blank local one: the
   * widget stops falling back to the global configuration and now has no
   * endpoint.
   */
  lemma UnchangedSaveWithoutLocalConfig(w: Widget, global: ApiConfig, stringify: Stringify, parse: Parse)
    requires !w.useGlobalEndpoint && w.localApiConfig.None?
    ensures var d := OnSubmit(DefaultValues(w.localApiConfig, w.viewType, w.dataKey, w.useGlobalEndpoint, w.title, stringify), parse);
            d.Some? && EffectiveApiConfig(w, global) == global
            && EffectiveApiConfig(ApplyPatch(w, SavePatch(d.value)), global).endpoint == ""
  {
  }

  /**
   * Saving the form unchanged on a widget with a local configuration leaves
   * the widget as it was, except that the configuration is normalised and an
   * empty data key becomes none.
   */
  lemma UnchangedSaveNormalises(w: Widget, stringify: Stringify, parse: Parse)
    requires w.localApiConfig.Some?
    requires var h := w.localApiConfig.value.headers;
             h.Some? ==> stringify(h.value) != "" && parse(stringify(h.value)) == h
    ensures var d := OnSubmit(DefaultValues(w.localApiConfig, w.viewType, w.dataKey, w.useGlobalEndpoint, w.title, stringify), parse);
            d.Some?
            && ApplyPatch(w, SavePatch(d.value))
               == w.(localApiConfig := if w.useGlobalEndpoint then w.localApiConfig else Some(Normalised(w.localApiConfig.value)),
                     dataKey := if w.dataKey == Some("") then None else w.dataKey)
  {
    UnchangedSubmitRoundTrip(w.localApiConfig.value, w.viewType, w.dataKey, w.useGlobalEndpoint, w.title, stringify, parse);
  }

  /** The frame's own state: whether the settings form is open. */
  class Frame {
    var showSettings: bool

    constructor ()
      ensures !showSettings
    {
      showSettings := false;
    }

    /** The header's edit button. */
    method OnEdit()
      modifies this
      ensures showSettings
    {
      showSettings := true;
    }

    /** `handleSave(data)`: update this widget in the store, then close the form. */
    method HandleSave(store: Dashboard, widget: Widget, data: SaveData)
      modifies this, store
      ensures store.widgets == UpdatedWidgets(old(store.widgets), widget.id, SavePatch(data))
      ensures store.isEditable == old(store.isEditable) && store.globalApiConfig == old(store.globalApiConfig)
      ensures !showSettings
    {
      store.UpdateWidget(widget.id, SavePatch(data));
      showSettings := false;
    }

    /** The header's delete button. */
    method OnDelete(store: Dashboard, widget: Widget)
      modifies store
      ensures store.widgets == WithoutId(old(store.widgets), widget.id)
      ensures store.isEditable == old(store.isEditable) && store.globalApiConfig == old(store.globalApiConfig)
    {
      store.RemoveWidget(widget.id);
    }
  }
}
