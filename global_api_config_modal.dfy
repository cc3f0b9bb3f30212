/**
 * The global API settings dialog (src/components/layout/GlobalApiConfigModal.tsx):
 * it opens on the store's global configuration and, on submit, stores the
 * configuration the form builds and closes.
 */
module GlobalApiConfigModal {
  import opened Wrappers
  import opened Types
  import opened ConfigFields
  import opened DashboardStore

  /**
   * `onSubmit`: store the built configuration and report the dialog closed.
   * When parsing the headers throws, nothing is stored and the dialog stays open.
   */
  method OnSubmit(store: Dashboard, data: Fields, parse: Parse) returns (closed: bool)
    modifies store
    ensures closed <==> BuildConfig(data, parse).Some?
    ensures closed ==> store.globalApiConfig == BuildConfig(data, parse).value
    ensures !closed ==> store.globalApiConfig == old(store.globalApiConfig)
    ensures store.isEditable == old(store.isEditable) && store.widgets == old(store.widgets)
  {
    var config := BuildConfig(data, parse);
    if config.None? {
      return false;
    }
    store.SetGlobalApiConfig(config.value);
    closed := true;
  }

  /**
   * Submitting the dialog unchanged on the initial global configuration
   * stores it without its empty body and with no variables.
   */
  lemma DefaultConfigRoundTrip(stringify: Stringify, parse: Parse)
    requires stringify(map[]) != "" && parse(stringify(map[])) == Some(map[])
    ensures BuildConfig(FieldsOf(DefaultGlobalApiConfig, stringify), parse)
            == Some(ApiConfig("", REST, Some(GET), Some(map[]), None, None, None, None))
  {
    UnchangedFormRoundTrip(DefaultGlobalApiConfig, stringify, parse);
  }

  /** Opening and submitting the dialog twice stores the same configuration as doing it once. */
  method ResubmitIsStable(store: Dashboard, stringify: Stringify, parse: Parse)
    modifies store
    requires forall h :: stringify(h) != "" && parse(stringify(h)) == Some(h)
  {
    var first := OnSubmit(store, FieldsOf(store.globalApiConfig, stringify), parse);
    assert first;
    var once := store.globalApiConfig;
    var second := OnSubmit(store, FieldsOf(store.globalApiConfig, stringify), parse);
    assert second && store.globalApiConfig == once;
  }
}
