/**
 * The typed facade (`MemMachineClient`): a table from each operation of the
 * `memories`, `sessions` and `mcp` groups (and `health`) to an HTTP method, a
 * path and a body, sent through the REST or the MCP prefix of one shared
 * `HttpClient`. `encodeURIComponent` is a parameter, with no behaviour assumed.
 */
module Client {
  import opened Values
  import opened Errors
  import opened Http
  import opened ApiTypes

  /** Which prefix a call goes through: `requestRest` or `requestMcp`. */
  datatype Family = Rest | Mcp

  /** The scope of a per-id session listing and its path segment. */
  datatype Scope = User | Group | Agent {
    function Segment(): string {
      match this
      case User => "users"
      case Group => "groups"
      case Agent => "agents"
    }
  }

  /** "/users/", "/groups/" or "/agents/", then encodeURIComponent(id), then "/sessions". */
  function SessionsOf(scope: Scope, id: string, encodeUri: string -> string): string {
    "/" + scope.Segment() + "/" + encodeUri(id) + "/sessions"
  }

  /** The `memories` group. */
  datatype MemoriesOp =
    | Add(episode: NewEpisode)
    | AddEpisodic(episode: NewEpisode)
    | AddProfile(episode: NewEpisode)
    | Search(query: SearchQuery)
    | SearchEpisodic(query: SearchQuery)
    | SearchProfile(query: SearchQuery)
    | Delete(request: DeleteDataRequest)
  {
    /** The facade method the call is made through, as its position in the `memories` group. */
    function Index(): nat {
      match this
      case Add(_) => 0
      case AddEpisodic(_) => 1
      case AddProfile(_) => 2
      case Search(_) => 3
      case SearchEpisodic(_) => 4
      case SearchProfile(_) => 5
      case Delete(_) => 6
    }

    /** The request object the call was given, as JSON. */
    function Argument(): Json {
      match this
      case Add(ep) => ep.ToJson()
      case AddEpisodic(ep) => ep.ToJson()
      case AddProfile(ep) => ep.ToJson()
      case Search(q) => q.ToJson()
      case SearchEpisodic(q) => q.ToJson()
      case SearchProfile(q) => q.ToJson()
      case Delete(r) => r.ToJson()
    }
  }

  /** The `sessions` group. */
  datatype SessionsOp = GetAll | ForUser(userId: string) | ForGroup(groupId: string) | ForAgent(agentId: string) {
    /** The scope and identifier of a per-id listing. */
    function Scoped(): Option<(Scope, string)> {
      match this
      case GetAll => None
      case ForUser(id) => Some((User, id))
      case ForGroup(id) => Some((Group, id))
      case ForAgent(id) => Some((Agent, id))
    }
  }

  /** The `mcp` group of tools and resources. */
  datatype McpOp =
    | AddSessionMemory(episode: NewEpisode)
    | AddEpisodicMemory(episode: NewEpisode)
    | AddProfileMemory(episode: NewEpisode)
    | SearchEpisodicMemory(query: SearchQuery)
    | SearchProfileMemory(query: SearchQuery)
    | SearchSessionMemory(query: SearchQuery)
    | DeleteSessionData(request: DeleteDataRequest)
    | DeleteData
    | AllSessions
    | UserSessions(userId: string)
    | GroupSessions(groupId: string)
    | AgentSessions(agentId: string)
  {
    /** The facade method the call is made through, as its position in the `mcp` group. */
    function Index(): nat {
      match this
      case AddSessionMemory(_) => 0
      case AddEpisodicMemory(_) => 1
      case AddProfileMemory(_) => 2
      case SearchEpisodicMemory(_) => 3
      case SearchProfileMemory(_) => 4
      case SearchSessionMemory(_) => 5
      case DeleteSessionData(_) => 6
      case DeleteData => 7
      case AllSessions => 8
      case UserSessions(_) => 9
      case GroupSessions(_) => 10
      case AgentSessions(_) => 11
    }

    /** A resource read rather than a tool call. */
    predicate IsResource() {
      AllSessions? || UserSessions? || GroupSessions? || AgentSessions?
    }

    /** The request object the call was given, as JSON; `deleteData` and the resources take none. */
    function Argument(): Option<Json> {
      match this
      case AddSessionMemory(ep) => Some(ep.ToJson())
      case AddEpisodicMemory(ep) => Some(ep.ToJson())
      case AddProfileMemory(ep) => Some(ep.ToJson())
      case SearchEpisodicMemory(q) => Some(q.ToJson())
      case SearchProfileMemory(q) => Some(q.ToJson())
      case SearchSessionMemory(q) => Some(q.ToJson())
      case DeleteSessionData(r) => Some(r.ToJson())
      case _ => None
    }

    /** The scope and identifier of a per-id listing. */
    function Scoped(): Option<(Scope, string)> {
      match this
      case UserSessions(id) => Some((User, id))
      case GroupSessions(id) => Some((Group, id))
      case AgentSessions(id) => Some((Agent, id))
      case _ => None
    }
  }

  /** A call on the facade: one of its three groups, or `health()`. */
  datatype Operation = MemoriesCall(memories: MemoriesOp) | SessionsCall(sessions: SessionsOp) | McpCall(mcp: McpOp) | HealthCall {
    /** `memories.add*` and `memories.delete` await the call and resolve to nothing. */
    predicate ResolvesToVoid() {
      MemoriesCall? && (memories.Add? || memories.AddEpisodic? || memories.AddProfile? || memories.Delete?)
    }
  }

  /** Where an operation is sent: prefix family, method, path below the prefix, and body. */
  datatype Endpoint = Endpoint(family: Family, verb: HttpMethod, path: string, body: Option<Json>)

  /** The `memories` table: REST POSTs (a DELETE for `delete`) carrying the call's request object. */
  function RouteMemories(op: MemoriesOp): (e: Endpoint)
    ensures e.family == Rest
    ensures e.verb == if op.Delete? then DELETE else POST
    ensures e.body == Some(op.Argument())
  {
    match op
    case Add(_) => Endpoint(Rest, POST, "/memories", Some(op.Argument()))
    case AddEpisodic(_) => Endpoint(Rest, POST, "/memories/episodic", Some(op.Argument()))
    case AddProfile(_) => Endpoint(Rest, POST, "/memories/profile", Some(op.Argument()))
    case Search(_) => Endpoint(Rest, POST, "/memories/search", Some(op.Argument()))
    case SearchEpisodic(_) => Endpoint(Rest, POST, "/memories/episodic/search", Some(op.Argument()))
    case SearchProfile(_) => Endpoint(Rest, POST, "/memories/profile/search", Some(op.Argument()))
    case Delete(_) => Endpoint(Rest, DELETE, "/memories", Some(op.Argument()))
  }

  /** The `sessions` table: REST GETs without a body; a per-id listing encodes its id into the path. */
  function RouteSessions(op: SessionsOp, encodeUri: string -> string): (e: Endpoint)
    ensures e.family == Rest && e.verb == GET && e.body == None
    ensures op.Scoped().Some? ==> e.path == SessionsOf(op.Scoped().value.0, op.Scoped().value.1, encodeUri)
  {
    match op
    case GetAll => Endpoint(Rest, GET, "/sessions", None)
    case ForUser(id) => Endpoint(Rest, GET, SessionsOf(User, id, encodeUri), None)
    case ForGroup(id) => Endpoint(Rest, GET, SessionsOf(Group, id, encodeUri), None)
    case ForAgent(id) => Endpoint(Rest, GET, SessionsOf(Agent, id, encodeUri), None)
  }

  /**
   * The `mcp` table: tools are POSTs carrying the call's request object
   * (`deleteData` carries none), resources are GETs; a per-id listing encodes
   * its id into the path.
   */
  function RouteMcp(op: McpOp, encodeUri: string -> string): (e: Endpoint)
    ensures e.family == Mcp
    ensures e.verb == if op.IsResource() then GET else POST
    ensures e.body == op.Argument()
    ensures op.Scoped().Some? ==> e.path == SessionsOf(op.Scoped().value.0, op.Scoped().value.1, encodeUri)
  {
    match op
    case AddSessionMemory(_) => Endpoint(Mcp, POST, "/add_session_memory", op.Argument())
    case AddEpisodicMemory(_) => Endpoint(Mcp, POST, "/add_episodic_memory", op.Argument())
    case AddProfileMemory(_) => Endpoint(Mcp, POST, "/add_profile_memory", op.Argument())
    case SearchEpisodicMemory(_) => Endpoint(Mcp, POST, "/search_episodic_memory", op.Argument())
    case SearchProfileMemory(_) => Endpoint(Mcp, POST, "/search_profile_memory", op.Argument())
    case SearchSessionMemory(_) => Endpoint(Mcp, POST, "/search_session_memory", op.Argument())
    case DeleteSessionData(_) => Endpoint(Mcp, POST, "/delete_session_data", op.Argument())
    case DeleteData => Endpoint(Mcp, POST, "/delete_data", None)
    case AllSessions => Endpoint(Mcp, GET, "/sessions", None)
    case UserSessions(id) => Endpoint(Mcp, GET, SessionsOf(User, id, encodeUri), None)
    case GroupSessions(id) => Endpoint(Mcp, GET, SessionsOf(Group, id, encodeUri), None)
    case AgentSessions(id) => Endpoint(Mcp, GET, SessionsOf(Agent, id, encodeUri), None)
  }

  /**
   * The whole table: every `mcp.*` call goes through the MCP prefix and every
   * other call through the REST prefix; `health()` is a REST GET without a body.
   */
  function Route(op: Operation, encodeUri: string -> string): (e: Endpoint)
    ensures e.family == Mcp <==> op.McpCall?
    ensures op.HealthCall? ==> e.verb == GET && e.body == None
    ensures e.body.Some? ==> e.verb != GET
  {
    match op
    case MemoriesCall(m) => RouteMemories(m)
    case SessionsCall(s) => RouteSessions(s, encodeUri)
    case McpCall(x) => RouteMcp(x, encodeUri)
    case HealthCall => Endpoint(Rest, GET, "/health", None)
  }

  /** The REST and MCP session listings differ in nothing but the prefix. */
  lemma SessionListingsDifferOnlyInPrefix(id: string, encodeUri: string -> string)
    ensures RouteMcp(AllSessions, encodeUri) == RouteSessions(GetAll, encodeUri).(family := Mcp)
    ensures RouteMcp(UserSessions(id), encodeUri) == RouteSessions(ForUser(id), encodeUri).(family := Mcp)
    ensures RouteMcp(GroupSessions(id), encodeUri) == RouteSessions(ForGroup(id), encodeUri).(family := Mcp)
    ensures RouteMcp(AgentSessions(id), encodeUri) == RouteSessions(ForAgent(id), encodeUri).(family := Mcp)
  {
  }

  /** No two `memories` methods share an HTTP method and a path. */
  lemma MemoriesRoutesAreDistinct(a: MemoriesOp, b: MemoriesOp)
    requires a.Index() != b.Index()
    ensures RouteMemories(a).verb != RouteMemories(b).verb || RouteMemories(a).path != RouteMemories(b).path
  {
  }

  /** No two `mcp` methods share an HTTP method and a path, whatever the encoder gives. */
  lemma McpRoutesAreDistinct(a: McpOp, b: McpOp, encodeUri: string -> string)
    requires a.Index() != b.Index()
    ensures RouteMcp(a, encodeUri).verb != RouteMcp(b, encodeUri).verb
            || RouteMcp(a, encodeUri).path != RouteMcp(b, encodeUri).path
  {
    if a.IsResource() && b.IsResource() {
      ResourcePathsDiffer(a, b, encodeUri);
    } else if !a.IsResource() && !b.IsResource() {
      ToolPathsDiffer(a, b);
    }
  }

  /** The four resource paths differ in their second character. */
  lemma ResourcePathsDiffer(a: McpOp, b: McpOp, encodeUri: string -> string)
    requires a.IsResource() && b.IsResource() && a.Index() != b.Index()
    ensures RouteMcp(a, encodeUri).path != RouteMcp(b, encodeUri).path
  {
    assert RouteMcp(a, encodeUri).path[1] != RouteMcp(b, encodeUri).path[1];
  }

  /** The eight tool paths are distinct. */
  lemma ToolPathsDiffer(a: McpOp, b: McpOp)
    requires !a.IsResource() && !b.IsResource() && a.Index() != b.Index()
    ensures forall encodeUri: string -> string :: RouteMcp(a, encodeUri).path != RouteMcp(b, encodeUri).path
  {
  }

  /** Each REST search path is the matching REST add path followed by "/search". */
  lemma SearchPathsExtendAddPaths(ep: NewEpisode, q: SearchQuery)
    ensures RouteMemories(Search(q)).path == RouteMemories(Add(ep)).path + "/search"
    ensures RouteMemories(SearchEpisodic(q)).path == RouteMemories(AddEpisodic(ep)).path + "/search"
    ensures RouteMemories(SearchProfile(q)).path == RouteMemories(AddProfile(ep)).path + "/search"
  {
    assert RouteMemories(Add(ep)).path == "/memories";
    assert RouteMemories(AddEpisodic(ep)).path == "/memories/episodic";
    assert RouteMemories(AddProfile(ep)).path == "/memories/profile";
  }

  /**
   * Every body the facade sends is a request object, so it goes out as JSON
   * under every method, DELETE included; a call without one sends no body.
   */
  lemma BodiesGoOutAsJson(op: Operation, encodeUri: string -> string)
    ensures var e := Route(op, encodeUri);
      SerializeBody(e.verb, e.body) == if e.body.Some? then JsonText(e.body.value) else NoBody
  {
  }

  /** `mcp.deleteData` sends no body, while `mcp.deleteSessionData` sends its request. */
  lemma DeleteDataHasNoBody(r: DeleteDataRequest, encodeUri: string -> string)
    ensures RouteMcp(DeleteData, encodeUri).body == None
    ensures RouteMcp(DeleteSessionData(r), encodeUri).body == Some(r.ToJson())
  {
  }

  /** How an operation resolves for what the transport settled with. */
  function Resolve(op: Operation, raw: Result<Payload, Thrown>): (r: Result<Payload, Thrown>)
    ensures r.Err? <==> raw.Err?
    ensures raw.Err? ==> r == raw
    ensures r.Ok? ==> r.value == if op.ResolvesToVoid() then Undefined else raw.value
  {
    if raw.Ok? && op.ResolvesToVoid() then Ok(Undefined) else raw
  }

  class MemMachineClient {
    /** The one transport every operation goes through. */
    const http: HttpClient

    constructor (options: ClientOptions)
      ensures fresh(http) && http.ConfiguredBy(options)
    {
      http := new HttpClient(options);
    }

    /** The prefix a family of operations is sent under. */
    function Prefix(f: Family): string {
      match f
      case Rest => http.restPrefix
      case Mcp => http.mcpPrefix
    }

    /**
     * One call of a facade operation: the transport request under the
     * operation's prefix, and the operation's result.
     */
    method Invoke(op: Operation, encodeUri: string -> string, fetched: FetchOutcome)
      returns (out: Outgoing, result: Result<Payload, Thrown>)
      ensures var e := Route(op, encodeUri);
        var raw := Interpret(e.verb, Prefix(e.family) + e.path, fetched);
        && http.Performed(e.verb, Prefix(e.family) + e.path, RequestOptions(e.body, None, None), fetched, out, raw)
        && result == Resolve(op, raw)
    {
      var e := Route(op, encodeUri);
      var raw;
      if e.family == Rest {
        out, raw := http.RequestRest(e.verb, e.path, RequestOptions(e.body, None, None), fetched);
      } else {
        out, raw := http.RequestMcp(e.verb, e.path, RequestOptions(e.body, None, None), fetched);
      }
      result := Resolve(op, raw);
    }

    /** `setApiKey`: forwards the token, unchanged, to the transport. */
    method SetApiKey(token: Option<string>)
      modifies http
      ensures http.apiKey == token
    {
      http.SetApiKey(token);
    }
  }

  /**
   * A user's REST session listing is requested at the base URL, then
   * "/v1/users/", the encoded id and "/sessions", whatever the id contains.
   */
  lemma UserSessionsUrl(base: string, userId: string, encodeUri: string -> string)
    requires base == "" || base[|base| - 1] != '/'
    ensures JoinUrl(StripTrailingSlash(base), DefaultRestPrefix + RouteSessions(ForUser(userId), encodeUri).path)
            == base + "/v1/users/" + encodeUri(userId) + "/sessions"
  {
    var tail := "/v1/users/" + encodeUri(userId) + "/sessions";
    UserListingPath(userId, encodeUri);
    JoinUrlKeepsSlash(base, tail);
    assert base + tail == base + "/v1/users/" + encodeUri(userId) + "/sessions";
  }

  /** The REST path of a user's listing. */
  lemma UserListingPath(userId: string, encodeUri: string -> string)
    ensures DefaultRestPrefix + RouteSessions(ForUser(userId), encodeUri).path
            == "/v1/users/" + encodeUri(userId) + "/sessions"
  {
    assert RouteSessions(ForUser(userId), encodeUri).path == "/users/" + encodeUri(userId) + "/sessions";
  }
}
