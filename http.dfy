/**
 * The transport (`HttpClient`): configuration defaults, URL joining, header
 * merging with the bearer token, body serialisation, and how a response is
 * turned into a value or an `ApiError`. The network call itself, the abort
 * timer and the JSON codec are outside the model: a response is an input and
 * `JSON.stringify(v)` is kept symbolic as `JsonText(v)`.
 */
module Http {
  import opened Values
  import opened Errors

  datatype HttpMethod = GET | POST | PUT | PATCH | DELETE {
    function Name(): string {
      match this
      case GET => "GET"
      case POST => "POST"
      case PUT => "PUT"
      case PATCH => "PATCH"
      case DELETE => "DELETE"
    }
  }

  /** Construction options the transport reads; a custom `fetch` is not modelled. */
  datatype ClientOptions = ClientOptions(
    baseUrl: Option<string>,
    apiKey: Option<string>,
    headers: Option<map<string, string>>,
    timeoutMs: Option<int>,
    restPrefix: Option<string>,
    mcpPrefix: Option<string>)

  /** Per-call options of `request`. */
  datatype RequestOptions = RequestOptions(
    body: Option<Json>,
    headers: Option<map<string, string>>,
    timeoutMs: Option<int>)

  const DefaultBaseUrl: string := "http://localhost:8080"
  const DefaultTimeoutMs: int := 15000
  const DefaultRestPrefix: string := "/v1"
  const DefaultMcpPrefix: string := "/mcp"
  const ContentType: string := "Content-Type"
  const JsonMediaType: string := "application/json"
  const Authorization: string := "Authorization"

  /** `s.replace(/\/$/, '')`: drops one trailing '/', if there is one. */
  function StripTrailingSlash(s: string): (r: string)
    ensures r == s || r + "/" == s
    ensures r == s <==> (s == "" || s[|s| - 1] != '/')
  {
    if s != "" && s[|s| - 1] == '/' then s[..|s| - 1] else s
  }

  /** Only one slash is removed: a base URL ending in "//" keeps one. */
  lemma StripsAtMostOneSlash(s: string)
    ensures StripTrailingSlash(s + "//") == s + "/"
  {
    assert (s + "//")[..|s| + 1] == s + "/";
  }

  /**
   * `joinUrl(base, path)`: the URL is `base`, then exactly one '/' of the join,
   * then the path without its own leading '/'.
   */
  function JoinUrl(base: string, path: string): (url: string)
    ensures |url| > |base| && url[..|base|] == base && url[|base|] == '/'
    ensures url[|base| + 1..] == if StartsWith(path, "/") then path[1..] else path
  {
    if !StartsWith(path, "/") then base + "/" + path else base + path
  }

  /** A path with or without its leading '/' reaches the same URL. */
  lemma JoinUrlIgnoresLeadingSlash(base: string, path: string)
    requires !StartsWith(path, "/")
    ensures JoinUrl(base, path) == JoinUrl(base, "/" + path)
  {
    var u, v := JoinUrl(base, path), JoinUrl(base, "/" + path);
    assert ("/" + path)[1..] == path;
    assert u == u[..|base| + 1] + u[|base| + 1..];
    assert v == v[..|base| + 1] + v[|base| + 1..];
  }

  /** A path that starts with '/' is appended to the base as it is. */
  lemma JoinUrlKeepsSlash(base: string, path: string)
    requires |path| > 0 && path[0] == '/'
    ensures JoinUrl(base, path) == base + path
  {
    assert path[..1] == "/";
  }

  /** `if (this.apiKey)`: a token that is set and not empty. */
  predicate Authorizes(token: Option<string>) {
    token.Some? && token.value != ""
  }

  /**
   * The headers of a request: every default and per-request header, the
   * per-request value winning, and `Authorization: Bearer <token>` written over
   * both when a non-empty token is set.
   */
  ghost predicate MergedHeaders(h: map<string, string>, defaults: map<string, string>,
                                perRequest: map<string, string>, token: Option<string>)
  {
    && h.Keys == defaults.Keys + perRequest.Keys + (if Authorizes(token) then {Authorization} else {})
    && (forall k :: k in perRequest && !(k == Authorization && Authorizes(token)) ==> h[k] == perRequest[k])
    && (forall k :: k in defaults && k !in perRequest && !(k == Authorization && Authorizes(token)) ==> h[k] == defaults[k])
    && (Authorizes(token) ==> h[Authorization] == "Bearer " + token.value)
  }

  /** The form of a request body on the wire; `JsonText(v)` stands for `JSON.stringify(v)`. */
  datatype WireBody = NoBody | Verbatim(text: string) | JsonText(of: Json)

  /**
   * `serializeBody`: GET and DELETE send JSON only for a truthy body; other
   * methods send nothing for null or undefined, a string as it is, and JSON
   * for anything else.
   */
  function SerializeBody(m: HttpMethod, body: Option<Json>): (r: WireBody)
    ensures (m == GET || m == DELETE) ==> (r.NoBody? <==> !Truthy(body)) && !r.Verbatim?
    ensures !(m == GET || m == DELETE) ==> (r.NoBody? <==> body == None || body == Some(JNull))
    ensures r.Verbatim? <==> !(m == GET || m == DELETE) && body.Some? && body.value.JString?
    ensures r.Verbatim? ==> body == Some(JString(r.text))
    ensures r.JsonText? ==> body == Some(r.of)
  {
    if m == GET || m == DELETE then
      (if Truthy(body) then JsonText(body.value) else NoBody)
    else if body == None || body == Some(JNull) then NoBody
    else if body.value.JString? then Verbatim(body.value.s)
    else JsonText(body.value)
  }

  /** Falsy bodies other than null (false, 0, "") are dropped by GET and DELETE but sent by the other methods. */
  lemma FalsyBodiesDependOnMethod(v: Json, m: HttpMethod)
    requires v == JBool(false) || v == JNumber(0) || v == JString("")
    requires m != GET && m != DELETE
    ensures SerializeBody(GET, Some(v)) == NoBody && SerializeBody(DELETE, Some(v)) == NoBody
    ensures SerializeBody(m, Some(v)) != NoBody
  {
  }

  /** A non-empty string body is passed through by POST, PUT and PATCH but JSON-encoded again by GET and DELETE. */
  lemma StringBodiesDependOnMethod(s: string, m: HttpMethod)
    requires s != ""
    ensures SerializeBody(m, Some(JString(s))) ==
            if m == GET || m == DELETE then JsonText(JString(s)) else Verbatim(s)
  {
  }

  /**
   * A response as the transport sees it: the status, the Content-Type header,
   * and what `resp.json()` and `resp.text()` would give (each may reject).
   */
  datatype Response = Response(
    status: nat,
    contentType: Option<string>,
    json: Result<Json, Thrown>,
    text: Result<string, Thrown>)

  /** What `fetch` gave: a response, or a rejection (network failure, or the abort of the timeout). */
  datatype FetchOutcome = Responded(response: Response) | FetchFailed(reason: Thrown)

  /** What `request` resolves to: `undefined`, the raw text, or the parsed JSON. */
  datatype Payload = Undefined | Text(text: string) | Parsed(json: Json)

  /** `resp.ok` */
  predicate IsOk(status: nat) {
    200 <= status <= 299
  }

  /** `resp.headers.get('content-type')?.includes('application/json')` */
  predicate IsJson(resp: Response)
    ensures IsJson(resp) <==>
      resp.contentType.Some? && exists i :: OccursAt(resp.contentType.value, JsonMediaType, i)
  {
    if resp.contentType.Some? then
      ContainsIffOccurs(resp.contentType.value, JsonMediaType);
      Contains(resp.contentType.value, JsonMediaType)
    else false
  }

  /** The `details` of an error response: the parsed JSON or the text, or `undefined` when reading failed. */
  function Details(resp: Response): (d: Option<Json>)
    ensures d == None <==> (if IsJson(resp) then resp.json.Err? else resp.text.Err?)
    ensures d.Some? && IsJson(resp) ==> d == Some(resp.json.value)
    ensures d.Some? && !IsJson(resp) ==> d == Some(JString(resp.text.value))
  {
    if IsJson(resp) then
      (if resp.json.Ok? then Some(resp.json.value) else None)
    else
      (if resp.text.Ok? then Some(JString(resp.text.value)) else None)
  }

  /**
   * The message used when the body offers nothing better: the method name,
   * a space and the path, then the decimal status, which can be read back.
   */
  function DefaultErrorMessage(m: HttpMethod, urlPath: string, status: nat): (msg: string)
    ensures StartsWith(msg, m.Name() + " " + urlPath)
    ensures var digits := Decimal(status);
      |digits| <= |msg| && msg[|msg| - |digits|..] == digits && DecimalValue(digits) == status
  {
    DecimalRoundTrip(status);
    var prefix := m.Name() + " " + urlPath;
    var msg := prefix + " failed with status " + Decimal(status);
    assert msg[..|prefix|] == prefix;
    msg
  }

  /** Requests that fail with different statuses get different default messages. */
  lemma DefaultMessageDistinguishesStatus(m: HttpMethod, urlPath: string, s1: nat, s2: nat)
    requires s1 != s2
    ensures DefaultErrorMessage(m, urlPath, s1) != DefaultErrorMessage(m, urlPath, s2)
  {
  }

  /** The body's own `detail` field, when the body is an object that has one. */
  predicate HasDetail(details: Option<Json>) {
    details.Some? && details.value.JObject? && "detail" in details.value.fields
  }

  /**
   * The message of an `ApiError`: `String(details.detail)` when the body has a
   * `detail` field, else the body itself when it is a string with a
   * non-whitespace character, else the default message.
   */
  function ErrorMessage(m: HttpMethod, urlPath: string, status: nat, details: Option<Json>): (msg: Message)
    ensures HasDetail(details) ==> msg == ToJsString(details.value.fields["detail"])
    ensures !HasDetail(details) && details.Some? && details.value.JString? && !Blank(details.value.s)
            ==> msg == Literal(details.value.s)
    ensures !HasDetail(details) && !(details.Some? && details.value.JString? && !Blank(details.value.s))
            ==> msg == Literal(DefaultErrorMessage(m, urlPath, status))
  {
    if HasDetail(details) then ToJsString(details.value.fields["detail"])
    else if details.Some? && details.value.JString? then
      TrimEmptyIffBlank(details.value.s);
      if |Trim(details.value.s)| > 0 then Literal(details.value.s)
      else Literal(DefaultErrorMessage(m, urlPath, status))
    else Literal(DefaultErrorMessage(m, urlPath, status))
  }

  /** The error raised for a response that is not 2xx. */
  function ErrorFor(m: HttpMethod, urlPath: string, resp: Response): (e: ApiError)
    ensures e.status == resp.status && e.httpMethod == Some(m.Name()) && e.path == Some(urlPath)
    ensures e.details.None? ==> e.message == Literal(DefaultErrorMessage(m, urlPath, resp.status))
    ensures HasDetail(e.details) ==> e.message == ToJsString(e.details.value.fields["detail"])
    ensures e.details == Details(resp)
    ensures e.message == ErrorMessage(m, urlPath, resp.status, e.details)
  {
    var details := Details(resp);
    ApiError(ErrorMessage(m, urlPath, resp.status, details), resp.status, details, Some(m.Name()), Some(urlPath))
  }

  /**
   * How `request` settles for the outcome of `fetch`: a fetch rejection passes
   * through; a non-2xx response raises an `ApiError`; 204 gives `undefined`;
   * otherwise the text or, for a JSON content type, the parsed body.
   */
  function Interpret(m: HttpMethod, urlPath: string, fetched: FetchOutcome): (r: Result<Payload, Thrown>)
    ensures fetched.FetchFailed? ==> r == Err(fetched.reason)
    ensures fetched.Responded? && !IsOk(fetched.response.status) ==>
      r.Err? && r.error.ThrownError? && r.error.error.Api? &&
      var e := r.error.error.api;
      e.status == fetched.response.status && e.httpMethod == Some(m.Name()) && e.path == Some(urlPath) &&
      e.details == Details(fetched.response) &&
      e.message == ErrorMessage(m, urlPath, fetched.response.status, e.details)
    ensures fetched.Responded? && fetched.response.status == 204 ==> r == Ok(Undefined)
    ensures fetched.Responded? && IsOk(fetched.response.status) && fetched.response.status != 204 ==>
      var resp := fetched.response;
      if IsJson(resp) then
        (r.Ok? <==> resp.json.Ok?) && (r.Ok? ==> r.value == Parsed(resp.json.value)) &&
        (r.Err? ==> r.error == resp.json.error)
      else
        (r.Ok? <==> resp.text.Ok?) && (r.Ok? ==> r.value == Text(resp.text.value)) &&
        (r.Err? ==> r.error == resp.text.error)
  {
    match fetched
    case FetchFailed(reason) => Err(reason)
    case Responded(resp) =>
      if !IsOk(resp.status) then Err(ThrownError(Api(ErrorFor(m, urlPath, resp))))
      else if resp.status == 204 then Ok(Undefined)
      else if !IsJson(resp) then
        (match resp.text
         case Ok(t) => Ok(Text(t))
         case Err(e) => Err(e))
      else
        (match resp.json
         case Ok(v) => Ok(Parsed(v))
         case Err(e) => Err(e))
  }

  /**
   * `request` rejects exactly when fetch failed, the status is not 2xx, or the
   * body reader it needed (JSON for a JSON content type, text otherwise)
   * failed; a 204 reads no body and never rejects.
   */
  lemma InterpretRejectsExactlyWhen(m: HttpMethod, urlPath: string, fetched: FetchOutcome)
    ensures Interpret(m, urlPath, fetched).Err? <==>
      match fetched
      case FetchFailed(_) => true
      case Responded(resp) =>
        !IsOk(resp.status) || (resp.status != 204 && if IsJson(resp) then resp.json.Err? else resp.text.Err?)
  {
  }

  /** A 404 whose JSON body is `{"detail": "not found"}` rejects with message "not found" and status 404. */
  lemma NotFoundDetailBecomesMessage(m: HttpMethod, urlPath: string, ct: string, text: Result<string, Thrown>)
    requires Contains(ct, JsonMediaType)
    ensures var resp := Response(404, Some(ct), Ok(JObject(map["detail" := JString("not found")])), text);
      Interpret(m, urlPath, Responded(resp)) ==
        Err(ThrownError(Api(ApiError(Literal("not found"), 404, Some(JObject(map["detail" := JString("not found")])),
                                     Some(m.Name()), Some(urlPath)))))
  {
  }

  /** The request `fetch` is given: URL, method, headers, body and the abort timeout. */
  datatype Outgoing = Outgoing(
    url: string,
    httpMethod: HttpMethod,
    headers: map<string, string>,
    body: WireBody,
    timeoutMs: int)

  class HttpClient {
    const baseUrl: string
    const defaultHeaders: map<string, string>
    var apiKey: Option<string>
    const defaultTimeoutMs: int
    const restPrefix: string
    const mcpPrefix: string

    /** `request(m, urlPath, options)` sent `out` and settled with `outcome` when `fetch` gave `fetched`. */
    ghost predicate Performed(m: HttpMethod, urlPath: string, options: RequestOptions, fetched: FetchOutcome,
                              out: Outgoing, outcome: Result<Payload, Thrown>)
      reads this
    {
      && out.url == JoinUrl(baseUrl, urlPath)
      && out.httpMethod == m
      && MergedHeaders(out.headers, defaultHeaders, options.headers.GetOr(map[]), apiKey)
      && out.body == SerializeBody(m, options.body)
      && out.timeoutMs == options.timeoutMs.GetOr(defaultTimeoutMs)
      && outcome == Interpret(m, urlPath, fetched)
    }

    /**
     * The constructor's settings: the given or default base URL less one
     * trailing '/', JSON content type unless the given headers override it,
     * the given token, and the given or default timeout and prefixes.
     */
    ghost predicate ConfiguredBy(opts: ClientOptions)
      reads this
    {
      && baseUrl == StripTrailingSlash(opts.baseUrl.GetOr(DefaultBaseUrl))
      && defaultHeaders == map[ContentType := JsonMediaType] + opts.headers.GetOr(map[])
      && apiKey == opts.apiKey
      && defaultTimeoutMs == opts.timeoutMs.GetOr(DefaultTimeoutMs)
      && restPrefix == opts.restPrefix.GetOr(DefaultRestPrefix)
      && mcpPrefix == opts.mcpPrefix.GetOr(DefaultMcpPrefix)
    }

    constructor (opts: ClientOptions)
      ensures ConfiguredBy(opts)
    {
      baseUrl := StripTrailingSlash(opts.baseUrl.GetOr(DefaultBaseUrl));
      defaultHeaders := map[ContentType := JsonMediaType] + opts.headers.GetOr(map[]);
      apiKey := opts.apiKey;
      defaultTimeoutMs := opts.timeoutMs.GetOr(DefaultTimeoutMs);
      restPrefix := opts.restPrefix.GetOr(DefaultRestPrefix);
      mcpPrefix := opts.mcpPrefix.GetOr(DefaultMcpPrefix);
    }

    /** `setApiKey(token)`: replaces the token; called with no argument it clears it. */
    method SetApiKey(token: Option<string>)
      modifies this
      ensures apiKey == token
    {
      apiKey := token;
    }

    /** `buildHeaders`: copies defaults and per-request headers, then writes the bearer token. */
    method BuildHeaders(perRequest: Option<map<string, string>>) returns (headers: map<string, string>)
      ensures MergedHeaders(headers, defaultHeaders, perRequest.GetOr(map[]), apiKey)
    {
      headers := defaultHeaders + perRequest.GetOr(map[]);
      if Authorizes(apiKey) {
        headers := headers[Authorization := "Bearer " + apiKey.value];
      }
    }

    /** `request`: builds the outgoing request and settles with the interpreted response. */
    method Request(m: HttpMethod, urlPath: string, options: RequestOptions, fetched: FetchOutcome)
      returns (out: Outgoing, outcome: Result<Payload, Thrown>)
      ensures Performed(m, urlPath, options, fetched, out, outcome)
    {
      var url := JoinUrl(baseUrl, urlPath);
      var headers := BuildHeaders(options.headers);
      var timeout := options.timeoutMs.GetOr(defaultTimeoutMs);
      out := Outgoing(url, m, headers, SerializeBody(m, options.body), timeout);
      outcome := Interpret(m, urlPath, fetched);
    }

    /** `requestRest`: `request` on the path under the REST prefix. */
    method RequestRest(m: HttpMethod, path: string, options: RequestOptions, fetched: FetchOutcome)
      returns (out: Outgoing, outcome: Result<Payload, Thrown>)
      ensures Performed(m, restPrefix + path, options, fetched, out, outcome)
    {
      out, outcome := Request(m, restPrefix + path, options, fetched);
    }

    /** `requestMcp`: `request` on the path under the MCP prefix. */
    method RequestMcp(m: HttpMethod, path: string, options: RequestOptions, fetched: FetchOutcome)
      returns (out: Outgoing, outcome: Result<Payload, Thrown>)
      ensures Performed(m, mcpPrefix + path, options, fetched, out, outcome)
    {
      out, outcome := Request(m, mcpPrefix + path, options, fetched);
    }
  }

  /** After `setApiKey`, headers carry the new token only; after clearing it they carry none of the client's own. */
  method TokenFollowsLatestSetting(client: HttpClient, first: string, second: string)
    returns (withFirst: map<string, string>, withSecond: map<string, string>, cleared: map<string, string>)
    requires first != "" && second != ""
    requires Authorization !in client.defaultHeaders
    modifies client
    ensures Authorization in withFirst && withFirst[Authorization] == "Bearer " + first
    ensures Authorization in withSecond && withSecond[Authorization] == "Bearer " + second
    ensures Authorization !in cleared
    ensures client.apiKey == None
  {
    client.SetApiKey(Some(first));
    withFirst := client.BuildHeaders(None);
    client.SetApiKey(Some(second));
    withSecond := client.BuildHeaders(None);
    client.SetApiKey(None);
    cleared := client.BuildHeaders(None);
  }
}
