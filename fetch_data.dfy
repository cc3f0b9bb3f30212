/**
 * The data hook (src/hooks/useFetchData.ts): how a widget's request is built
 * from its API configuration, how the response becomes data or an error,
 * how `dataKey` selects part of it, and when the query runs at all.
 * The network is a parameter: `fetch` for REST and a GraphQL client.
 */
module FetchData {
  import opened Wrappers
  import opened Strings
  import opened Values
  import opened Types

  const ContentTypeHeader := "Content-Type"
  const JsonMediaType := "application/json"
  const NoEndpointMessage := "No endpoint configured"
  const HttpErrorPrefix := "HTTP error! status: "

  /** The `RequestInit` handed to `fetch`. */
  datatype RequestInit = RequestInit(httpMethod: HttpMethod, headers: Headers, body: Option<string>)

  /** What `fetch` resolves to; `json` is what `response.json()` yields, or the message it rejects with. */
  datatype Response = Response(ok: bool, status: nat, json: Result<Value, string>)

  /** The client, query text and variables text `fetchGraphQLData` hands to the GraphQL library. */
  datatype GraphQLRequest = GraphQLRequest(endpoint: string, headers: Headers, query: string, variables: Option<string>)

  /** `fetch(endpoint, options)`: a response, or the message of the error it rejects with. */
  type Fetch = (string, RequestInit) -> Result<Response, string>

  /** `client.request(query, variables)`: the data, or the message of the error it rejects with. */
  type GraphQLClient = GraphQLRequest -> Result<Value, string>

  /** The arguments of `useFetchData`; `enabled` defaults to true when absent. */
  datatype FetchOptions = FetchOptions(apiConfig: ApiConfig, dataKey: Option<string>, enabled: Option<bool>)

  /** A JavaScript string is truthy when it is present and non-empty. */
  predicate Filled(s: Option<string>) {
    s.Some? && s.value != ""
  }

  function UserHeaders(config: ApiConfig): Headers {
    if config.headers.Some? then config.headers.value else map[]
  }

  /** The options `fetchRestData` passes to `fetch`. */
  function RestOptions(config: ApiConfig): (o: RequestInit)
    ensures o.httpMethod == POST <==> config.httpMethod == Some(POST)
    ensures o.headers.Keys == UserHeaders(config).Keys + {ContentTypeHeader}
    ensures forall h :: h in UserHeaders(config) ==> o.headers[h] == UserHeaders(config)[h]
    ensures ContentTypeHeader !in UserHeaders(config) ==> o.headers[ContentTypeHeader] == JsonMediaType
    ensures o.body.Some? <==> config.httpMethod == Some(POST) && Filled(config.body)
    ensures o.body.Some? ==> o.body == config.body
  {
    var m := if config.httpMethod.Some? then config.httpMethod.value else GET;
    RequestInit(m, map[ContentTypeHeader := JsonMediaType] + UserHeaders(config),
                if m == POST && Filled(config.body) then config.body else None)
  }

  /** What `fetchRestData` makes of `fetch`'s outcome. */
  function RestOutcome(r: Result<Response, string>): (d: Result<Value, string>)
    ensures r.Failure? ==> d == Failure(r.error)
    ensures r.Success? && !r.value.ok ==> d == Failure(HttpErrorPrefix + DecimalText(r.value.status))
    ensures r.Success? && r.value.ok ==> d == r.value.json
  {
    if r.Failure? then Failure(r.error)
    else if !r.value.ok then Failure(HttpErrorPrefix + DecimalText(r.value.status))
    else r.value.json
  }

  /** An error response's message ends in its status code, which can be read back from it. */
  lemma HttpErrorCarriesStatus(status: nat, json: Result<Value, string>)
    ensures var d := RestOutcome(Success(Response(false, status, json)));
            d.Failure? && |d.error| > |HttpErrorPrefix| && d.error[..|HttpErrorPrefix|] == HttpErrorPrefix
            && ParseIndex(d.error[|HttpErrorPrefix|..]) == Some(status)
  {
    var d := RestOutcome(Success(Response(false, status, json)));
    assert d.error[|HttpErrorPrefix|..] == DecimalText(status);
    DecimalTextParses(status);
  }

  /** `fetchRestData(config)`: build the options, then attach the body for a POST. */
  method FetchRestData(config: ApiConfig, fetch: Fetch) returns (data: Result<Value, string>)
    ensures data == RestOutcome(fetch(config.endpoint, RestOptions(config)))
  {
    var m := if config.httpMethod.Some? then config.httpMethod.value else GET;
    var headers := if config.headers.Some? then config.headers.value else map[];
    var options := RequestInit(m, map[ContentTypeHeader := JsonMediaType] + headers, None);
    if m == POST && config.body.Some? && config.body.value != "" {
      options := options.(body := config.body);
    }
    var response := fetch(config.endpoint, options);
    if response.Failure? {
      return Failure(response.error);
    }
    if !response.value.ok {
      return Failure(HttpErrorPrefix + DecimalText(response.value.status));
    }
    data := response.value.json;
  }

  /** What `fetchGraphQLData` hands to the GraphQL client: an empty body is an empty query. */
  function GraphQLRequestOf(config: ApiConfig): (q: GraphQLRequest)
    ensures q.endpoint == config.endpoint && q.headers == UserHeaders(config)
    ensures q.query == (if config.body.Some? then config.body.value else "")
    ensures q.variables.Some? <==> Filled(config.variables)
    ensures q.variables.Some? ==> q.variables == config.variables
  {
    GraphQLRequest(config.endpoint, UserHeaders(config),
                   if config.body.Some? then config.body.value else "",
                   if Filled(config.variables) then config.variables else None)
  }

  /** The raw data of a query: `GRAPHQL` goes to the GraphQL client, every other type to `fetch`. */
  function Transport(config: ApiConfig, fetch: Fetch, client: GraphQLClient): (r: Result<Value, string>)
    ensures config.apiType == GRAPHQL ==> r == client(GraphQLRequestOf(config))
    ensures config.apiType != GRAPHQL ==> r == RestOutcome(fetch(config.endpoint, RestOptions(config)))
  {
    if config.apiType == GRAPHQL then client(GraphQLRequestOf(config))
    else RestOutcome(fetch(config.endpoint, RestOptions(config)))
  }

  /** The GraphQL path never calls `fetch` and the REST path never calls the client. */
  lemma TransportUsesOnePath(config: ApiConfig, f1: Fetch, f2: Fetch, c1: GraphQLClient, c2: GraphQLClient)
    ensures config.apiType == GRAPHQL ==> Transport(config, f1, c1) == Transport(config, f2, c1) == c1(GraphQLRequestOf(config))
    ensures config.apiType == REST ==> Transport(config, f1, c1) == Transport(config, f1, c2)
  {
  }

  /** lodash `get` along the segments of a dotted path; a missing step gives undefined. */
  function GetPath(v: Value, path: seq<string>): (r: Value)
    ensures path == [] ==> r == v
    ensures path != [] && IsNullish(v) ==> r == Undefined
    ensures |path| == 1 && !IsNullish(v) ==> r == Prop(v, path[0])
    decreases |path|
  {
    if path == [] then v
    else if IsNullish(v) then Undefined
    else GetPath(Prop(v, path[0]), path[1..])
  }

  /** Following a path in two parts is following the whole path. */
  lemma {:induction false} GetPathConcat(v: Value, a: seq<string>, b: seq<string>)
    ensures GetPath(v, a + b) == GetPath(GetPath(v, a), b)
    decreases |a|
  {
    if a == [] {
      assert a + b == b;
    } else if IsNullish(v) {
      if b != [] {
        assert GetPath(Undefined, b) == Undefined;
      }
    } else {
      assert (a + b)[0] == a[0] && (a + b)[1..] == a[1..] + b;
      GetPathConcat(Prop(v, a[0]), a[1..], b);
    }
  }

  /** `get(data, key)` for a key made of plain dot-separated property names. */
  function Get(data: Value, key: string): (r: Value)
    ensures IsNullish(data) ==> r == Undefined
    ensures '.' !in key && !IsNullish(data) ==> r == Prop(data, key)
  {
    GetPath(data, Split(key, '.'))
  }

  /** The data the query yields: with a non-empty `dataKey`, the part it names; otherwise all of it. */
  function Extract(data: Value, dataKey: Option<string>): (r: Value)
    ensures !Filled(dataKey) ==> r == data
    ensures Filled(dataKey) ==> r == GetPath(data, Split(dataKey.value, '.'))
  {
    if Filled(dataKey) then Get(data, dataKey.value) else data
  }

  /** `get` on a single name reads that property; a dotted key descends one level per name. */
  lemma ExtractSteps(data: Value, name: string, rest: string)
    requires '.' !in name
    ensures !IsNullish(data) ==> Get(data, name) == Prop(data, name)
    ensures Get(data, name + "." + rest) == Get(Get(data, name), rest)
  {
    var parts := Split(rest, '.');
    SplitJoin([name] + parts, '.');
    assert Join([name] + parts, '.') == name + "." + Join(parts, '.');
    JoinSplit(rest, '.');
    assert Split(name + "." + rest, '.') == [name] + parts;
    assert Split(name, '.') == [name];
    GetPathConcat(data, [name], parts);
  }

  /**
   * A two-level key reaches a nested property, as in the hook's test where
   * `data.users` picks the users out of `{ data: { users: [...] } }`.
   */
  lemma ExtractNested(outer: string, inner: string, v: Value)
    requires '.' !in outer && '.' !in inner
    ensures Extract(Obj([(outer, Obj([(inner, v)]))]), Some(outer + "." + inner)) == v
  {
    var innerObj := Obj([(inner, v)]);
    var data := Obj([(outer, innerObj)]);
    ExtractSteps(data, outer, inner);
    ExtractSteps(innerObj, inner, "");
    assert Get(innerObj, inner) == v;
  }

  /** `queryFn`: refuse an empty endpoint, fetch along one path, then apply `dataKey`. */
  method QueryFn(config: ApiConfig, dataKey: Option<string>, fetch: Fetch, client: GraphQLClient)
    returns (result: Result<Value, string>)
    ensures config.endpoint == "" ==> result == Failure(NoEndpointMessage)
    ensures config.endpoint != "" ==>
              var raw := Transport(config, fetch, client);
              result == if raw.Failure? then Failure(raw.error) else Success(Extract(raw.value, dataKey))
  {
    if config.endpoint == "" {
      return Failure(NoEndpointMessage);
    }
    var data: Value;
    if config.apiType == GRAPHQL {
      var response := client(GraphQLRequestOf(config));
      if response.Failure? {
        return Failure(response.error);
      }
      data := response.value;
    } else {
      var response := FetchRestData(config, fetch);
      if response.Failure? {
        return Failure(response.error);
      }
      data := response.value;
    }
    if dataKey.Some? && dataKey.value != "" {
      return Success(Get(data, dataKey.value));
    }
    return Success(data);
  }

  /** The query's `enabled` option: the caller's flag (default true) and a non-empty endpoint. */
  function QueryEnabled(options: FetchOptions): (enabled: bool)
    ensures enabled <==> options.enabled != Some(false) && options.apiConfig.endpoint != ""
  {
    (if options.enabled.Some? then options.enabled.value else true) && options.apiConfig.endpoint != ""
  }
}
