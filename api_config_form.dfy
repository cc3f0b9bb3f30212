/**
 * The widget settings form (src/components/widget/ApiConfigForm.tsx): the
 * values it opens with and the result it hands to `onSave` on submit.
 */
module ApiConfigForm {
  import opened Wrappers
  import opened Types
  import opened ConfigFields

  /** Everything the form edits. */
  datatype FormData = FormData(
    title: string,
    useGlobalEndpoint: bool,
    fields: Fields,
    viewType: ViewType,
    dataKey: string)

  /** The object passed to `onSave`; `localApiConfig` is absent for a widget on the global endpoint. */
  datatype SaveData = SaveData(
    title: string,
    useGlobalEndpoint: bool,
    localApiConfig: Option<ApiConfig>,
    viewType: ViewType,
    dataKey: Option<string>)

  /** The form's `defaultValues`: the widget's settings, with blank fields where it has no local configuration. */
  function DefaultValues(initial: Option<ApiConfig>, viewType: ViewType, dataKey: Option<string>,
                         useGlobalEndpoint: bool, title: string, stringify: Stringify): (d: FormData)
    ensures d.title == title && d.useGlobalEndpoint == useGlobalEndpoint && d.viewType == viewType
    ensures d.dataKey == dataKey.GetOr("")
    ensures initial.None? ==> d.fields == BlankFields
    ensures initial.Some? ==> d.fields == FieldsOf(initial.value, stringify)
  {
    var fields := if initial.Some? then FieldsOf(initial.value, stringify) else BlankFields;
    FormData(title, useGlobalEndpoint, fields, viewType, if dataKey.Some? then dataKey.value else "")
  }

  /**
   * `onSubmit`: the result handed to `onSave`, or `None` when parsing the
   * local headers throws and `onSave` is never reached.
   */
  function OnSubmit(data: FormData, parse: Parse): (r: Option<SaveData>)
    ensures r.None? <==> !data.useGlobalEndpoint && BuildConfig(data.fields, parse).None?
    ensures r.Some? ==> r.value.title == data.title && r.value.useGlobalEndpoint == data.useGlobalEndpoint
                        && r.value.viewType == data.viewType
    ensures r.Some? ==> r.value.dataKey == (if data.dataKey == "" then None else Some(data.dataKey))
    ensures r.Some? ==> (r.value.localApiConfig.None? <==> data.useGlobalEndpoint)
    ensures r.Some? && !data.useGlobalEndpoint ==> r.value.localApiConfig == BuildConfig(data.fields, parse)
  {
    var result := SaveData(data.title, data.useGlobalEndpoint, None, data.viewType,
                           if data.dataKey != "" then Some(data.dataKey) else None);
    if data.useGlobalEndpoint then Some(result)
    else
      var local := BuildConfig(data.fields, parse);
      if local.None? then None else Some(result.(localApiConfig := local))
  }

  /** A submitted local configuration always has the normal shape. */
  lemma SubmittedConfigIsNormal(data: FormData, parse: Parse)
    ensures var r := OnSubmit(data, parse);
            r.Some? && r.value.localApiConfig.Some? ==> Normal(r.value.localApiConfig.value)
  {
    BuiltConfigIsNormal(data.fields, parse);
  }

  /**
   * Submitting the form as it opened saves the widget's settings back: the
   * local configuration normalised (or none on the global endpoint) and an
   * empty data key as none.
   */
  lemma UnchangedSubmitRoundTrip(initial: ApiConfig, viewType: ViewType, dataKey: Option<string>,
                                 useGlobalEndpoint: bool, title: string, stringify: Stringify, parse: Parse)
    requires initial.headers.Some? ==>
               stringify(initial.headers.value) != "" && parse(stringify(initial.headers.value)) == initial.headers
    ensures OnSubmit(DefaultValues(Some(initial), viewType, dataKey, useGlobalEndpoint, title, stringify), parse)
            == Some(SaveData(title, useGlobalEndpoint,
                             if useGlobalEndpoint then None else Some(Normalised(initial)),
                             viewType,
                             if dataKey == Some("") then None else dataKey))
  {
    UnchangedFormRoundTrip(initial, stringify, parse);
  }

  /** A form opened without a configuration submits an empty REST GET configuration. */
  lemma BlankFormSubmit(title: string, viewType: ViewType, parse: Parse)
    ensures OnSubmit(DefaultValues(None, viewType, None, false, title, s => ""), parse)
            == Some(SaveData(title, false, Some(ApiConfig("", REST, Some(GET), None, None, None, None, None)), viewType, None))
  {
  }
}
