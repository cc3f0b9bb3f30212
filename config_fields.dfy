/**
 * The API-configuration fields both settings forms share
 * (src/components/widget/ApiConfigForm.tsx and
 * src/components/layout/GlobalApiConfigModal.tsx): how a stored
 * configuration fills the form, and how the submitted form becomes a
 * configuration again. `JSON.stringify` and `JSON.parse` of the headers
 * are parameters; `parse` gives `None` where `JSON.parse` throws.
 */
module ConfigFields {
  import opened Wrappers
  import opened Types

  type Stringify = Headers -> string
  type Parse = string -> Option<Headers>

  /** The form's text fields for one configuration; headers are edited as JSON text. */
  datatype Fields = Fields(
    endpoint: string,
    apiType: ApiType,
    httpMethod: HttpMethod,
    headers: string,
    body: string,
    variables: string)

  /** The fields of a form opened without a configuration. */
  const BlankFields := Fields("", REST, GET, "", "", "")

  /** The fields a stored configuration fills in: a missing method is GET, missing texts are empty. */
  function FieldsOf(config: ApiConfig, stringify: Stringify): (f: Fields)
    ensures f.endpoint == config.endpoint && f.apiType == config.apiType
    ensures f.httpMethod == config.httpMethod.GetOr(GET)
    ensures f.headers == (if config.headers.Some? then stringify(config.headers.value) else "")
    ensures f.body == config.body.GetOr("") && f.variables == config.variables.GetOr("")
  {
    Fields(config.endpoint, config.apiType,
           if config.httpMethod.Some? then config.httpMethod.value else GET,
           if config.headers.Some? then stringify(config.headers.value) else "",
           if config.body.Some? then config.body.value else "",
           if config.variables.Some? then config.variables.value else "")
  }

  /**
   * The configuration a submitted form builds, or `None` when parsing the
   * headers throws. Only REST keeps a method and only GraphQL keeps the
   * variables (even empty ones); empty headers and an empty body are
   * absent; the default-data fields are never set.
   */
  function BuildConfig(f: Fields, parse: Parse): (r: Option<ApiConfig>)
    ensures r.None? <==> f.headers != "" && parse(f.headers).None?
    ensures r.Some? ==> r.value.endpoint == f.endpoint && r.value.apiType == f.apiType
    ensures r.Some? ==> r.value.httpMethod == (if f.apiType == REST then Some(f.httpMethod) else None)
    ensures r.Some? ==> r.value.variables == (if f.apiType == GRAPHQL then Some(f.variables) else None)
    ensures r.Some? ==> (r.value.headers.None? <==> f.headers == "")
    ensures r.Some? && f.headers != "" ==> r.value.headers == parse(f.headers)
    ensures r.Some? ==> r.value.body == (if f.body == "" then None else Some(f.body))
    ensures r.Some? ==> r.value.useDefaultData.None? && r.value.defaultDataKey.None?
  {
    var headers := if f.headers != "" then parse(f.headers) else None;
    if f.headers != "" && headers.None? then None
    else
      Some(ApiConfig(
        f.endpoint,
        f.apiType,
        if f.apiType == REST then Some(f.httpMethod) else None,
        headers,
        if f.body != "" then Some(f.body) else None,
        if f.apiType == GRAPHQL then Some(f.variables) else None,
        None,
        None))
  }

  /**
   * The shape every submitted configuration has: the fields of its type
   * only, no empty body, and no default-data fields.
   */
  predicate Normal(c: ApiConfig) {
    (c.httpMethod.Some? <==> c.apiType == REST)
    && (c.variables.Some? <==> c.apiType == GRAPHQL)
    && c.body != Some("")
    && c.useDefaultData.None? && c.defaultDataKey.None?
  }

  /** The configuration a form left unchanged saves back. */
  function Normalised(c: ApiConfig): (n: ApiConfig)
    ensures Normal(n)
    ensures n.endpoint == c.endpoint && n.apiType == c.apiType && n.headers == c.headers
    ensures Normal(c) ==> n == c
  {
    ApiConfig(
      c.endpoint,
      c.apiType,
      if c.apiType == REST then Some(c.httpMethod.GetOr(GET)) else None,
      c.headers,
      if c.body == Some("") then None else c.body,
      if c.apiType == GRAPHQL then Some(c.variables.GetOr("")) else None,
      None,
      None)
  }

  /** Every configuration a form builds is normal. */
  lemma BuiltConfigIsNormal(f: Fields, parse: Parse)
    ensures BuildConfig(f, parse).Some? ==> Normal(BuildConfig(f, parse).value)
  {
  }

  /**
   * Opening a form on a configuration and submitting it unchanged gives
   * back the configuration in its normal form, provided the headers
   * survive serialising and parsing (their text is never empty, being at
   * least `{}`).
   */
  lemma UnchangedFormRoundTrip(c: ApiConfig, stringify: Stringify, parse: Parse)
    requires c.headers.Some? ==> stringify(c.headers.value) != "" && parse(stringify(c.headers.value)) == c.headers
    ensures BuildConfig(FieldsOf(c, stringify), parse) == Some(Normalised(c))
  {
  }

  /** A normal configuration survives the form unchanged. */
  lemma NormalConfigRoundTrip(c: ApiConfig, stringify: Stringify, parse: Parse)
    requires Normal(c)
    requires c.headers.Some? ==> stringify(c.headers.value) != "" && parse(stringify(c.headers.value)) == c.headers
    ensures BuildConfig(FieldsOf(c, stringify), parse) == Some(c)
  {
    UnchangedFormRoundTrip(c, stringify, parse);
  }
}
