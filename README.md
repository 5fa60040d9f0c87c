# MemMachine SDK: transport, endpoint table and request-lifecycle guard

A Dafny model of the MemMachine client SDK. It covers three parts.

- **Request-lifecycle guard of the React hooks.** `useIsMounted`, `useQuery`,
  `useLazyQuery` and `useMutation` each keep a four-field state record
  (`status`, `loading`, `data`, `error`). Each call takes an id from a request
  counter. Only a call that is still the latest, settling into a mounted host,
  may write the state. For `useQuery`, the call's effect must also not have
  been cleaned up.
  - `lifecycle.dfy` states the guard as a pure state machine (`Hook`, `Event`,
    `Step`, `Replay`) and proves its guarantees:
    - a settlement of a superseded call is invisible;
    - the latest call wins whatever the completion order;
    - nothing settles into an unmounted hook;
    - the counter counts the calls started;
    - every reachable hook satisfies `Valid`.
  - `hooks.dfy` models the hooks as classes, `MountedRef`, `Query`,
    `LazyQuery` and `Mutation`. Their fields are the refs and state the hooks
    update in place. Every hook method that stands for a call, a settlement,
    a mount, an unmount or `reset` is proved to move the object's state
    exactly as the matching `Step` does. `Query.RunCleanup` is proved equal to
    `Cleanup`, and the `MountedRef` methods state the ref's new value. The
    settlement of `run` and `mutate` also returns the value the caller's
    promise settles with.
- **HTTP transport** (`http.dfy`). This is `HttpClient`:
  - the constructor's defaults, `setApiKey`, header merging with the bearer
    token, and the body rules per method;
  - URL joining;
  - how a response becomes a value or an `ApiError`: the `detail` field, a
    non-blank text body, or the default message;
  - the `requestRest`/`requestMcp` prefixes.
- **Endpoint table** (`client.dfy`). `MemMachineClient` maps every
  `memories.*`, `sessions.*` and `mcp.*` operation and `health()` to a prefix,
  an HTTP method, a path and a body. `Invoke` ties one call to the transport.
  `api_types.dfy` holds the request records and the JSON objects they become.

`values.dfy` models the few JavaScript behaviours the decisions depend on:
- `??` and truthiness;
- `String.prototype.trim`, with the ECMAScript whitespace set;
- `includes`;
- the decimal rendering of a status code.

`errors.dfy` holds `ApiError` and the values a promise can be rejected with.

Inputs the SDK gets from its environment are parameters of the model:
- what `fetch` gave (a response or a rejection);
- what `resp.json()` and `resp.text()` would give;
- `encodeURIComponent`.

`JSON.stringify(v)` stays symbolic as `JsonText(v)`. `String(v)` of a
non-string stays symbolic as `Stringified(v)`.

Three behaviours of the code the model keeps, each with its lemma or contract:
- `useQuery` keeps the previous `data` while loading (common.ts line 26
  spreads the old state). Only `run` and `mutate` clear it.
  See `Lifecycle.QueryKeepsDataWhileLoading`.
- `reset` does not bump the request counter. So the call that was in flight at
  the reset is still the latest, and when it settles it overwrites the idle
  state. Only older calls are ignored. See `Lifecycle.ResetDoesNotCancelLatest`.
- A superseded or post-unmount success of `run`/`mutate` rejects the caller's
  promise with the string `'canceled'` and does not resolve it with the data.
  A failure always rejects with the normalised error, whether or not it was
  stored. See `Lifecycle.Answer`.

## Model

| member | source | states |
|---|---|---|
| Values.TrimStart | packages/js-sdk/src/http.ts:60 | the result is a suffix of the input; what it drops is all whitespace; it does not start with whitespace |
| Values.TrimEnd | packages/js-sdk/src/http.ts:60 | the result is a prefix of the input; what it drops is all whitespace; it does not end with whitespace |
| Values.TrimEmptyIffBlank | packages/js-sdk/src/http.ts:60 | `details.trim().length` is zero exactly when every character is ECMAScript whitespace |
| Values.Truthy | packages/js-sdk/src/http.ts:98 | a value is truthy exactly when it is none of undefined, null, false, 0 and ""; every array and object, even an empty one, is truthy |
| Values.ContainsIffOccurs | packages/js-sdk/src/http.ts:51 | `includes` holds exactly when the substring occurs at some index |
| Values.Decimal | packages/js-sdk/src/http.ts:54 | the status is rendered as decimal digits without a leading zero |
| Values.DecimalRoundTrip | packages/js-sdk/src/http.ts:54 | reading the rendered digits back gives the status that was rendered |
| Http.StripTrailingSlash | packages/js-sdk/src/http.ts:17 | the base URL loses one '/' exactly when it ends in one, and is otherwise unchanged |
| Http.StripsAtMostOneSlash | packages/js-sdk/src/http.ts:17 | a base URL ending in "//" keeps one slash |
| Http.JoinUrl | packages/js-sdk/src/http.ts:104-107 | the URL is the base, exactly one '/', then the path without its own leading '/' |
| Http.JoinUrlIgnoresLeadingSlash | packages/js-sdk/src/http.ts:104-107 | a path with or without a leading '/' gives the same URL |
| Http.SerializeBody | packages/js-sdk/src/http.ts:97-102 | GET and DELETE send JSON only for a truthy body and never a raw string; other methods send nothing exactly for null or undefined, a string as it is, and JSON for the rest |
| Http.FalsyBodiesDependOnMethod | packages/js-sdk/src/http.ts:98-99 | `false`, `0` and `""` are dropped by GET and DELETE but sent by POST, PUT and PATCH |
| Http.StringBodiesDependOnMethod | packages/js-sdk/src/http.ts:98-100 | a non-empty string body is JSON-encoded again by GET and DELETE and passed through by the other methods |
| Http.Details | packages/js-sdk/src/http.ts:53-57 | `details` is the parsed JSON for a JSON content type, the text otherwise, and undefined exactly when that reader failed |
| Http.IsJson | packages/js-sdk/src/http.ts:51 | the response counts as JSON exactly when it has a Content-Type in which "application/json" occurs at some index |
| Http.DefaultErrorMessage | packages/js-sdk/src/http.ts:54 | the default message starts with the method name, a space and the path, and ends in the decimal status code, which reads back as the status |
| Http.DefaultMessageDistinguishesStatus | packages/js-sdk/src/http.ts:54 | failures of the same request with different statuses get different default messages |
| Http.ErrorMessage | packages/js-sdk/src/http.ts:54-62 | the message is `String(detail)` when the body object has `detail`, else a string body with a non-whitespace character, else the default message |
| Http.ErrorFor | packages/js-sdk/src/http.ts:53-66 | the `ApiError` carries the response status, the method name, the path and the body read as `details`; its message is `ErrorMessage` of that body, so an unreadable body gives the default message and a `detail` field becomes the message |
| Http.Interpret | packages/js-sdk/src/http.ts:51-75 | a fetch rejection passes through; a non-2xx status raises an `ApiError` with that status, method, path, details and message; 204 gives undefined; otherwise the JSON or text reader's value or rejection |
| Http.InterpretRejectsExactlyWhen | packages/js-sdk/src/http.ts:43-75 | `request` rejects exactly when fetch failed, the status is not 2xx, or the body reader it needed failed; a 204 never rejects |
| Http.NotFoundDetailBecomesMessage | packages/js-sdk/src/http.ts:56-66 | a 404 with JSON body `{"detail": "not found"}` rejects with an `ApiError` whose message is "not found" |
| Http.HttpClient.constructor | packages/js-sdk/src/http.ts:16-24 | base URL defaults to http://localhost:8080 less one trailing '/'; JSON content type unless overridden; the given token; timeout 15000 ms; prefixes /v1 and /mcp |
| Http.HttpClient.SetApiKey | packages/js-sdk/src/http.ts:27-29 | the token becomes the given one, or none |
| Http.HttpClient.BuildHeaders | packages/js-sdk/src/http.ts:91-95 | the headers are the union of defaults and per-request headers with per-request values winning; a non-empty token writes `Authorization: Bearer <token>` over both |
| Http.HttpClient.Request | packages/js-sdk/src/http.ts:32-79 | the outgoing request has the joined URL, the method, the merged headers, the serialised body and the per-request or default timeout; the outcome is `Interpret` of what fetch gave |
| Http.HttpClient.RequestRest | packages/js-sdk/src/http.ts:82-84 | `request` on the REST prefix followed by the path |
| Http.HttpClient.RequestMcp | packages/js-sdk/src/http.ts:87-89 | `request` on the MCP prefix followed by the path |
| Http.TokenFollowsLatestSetting | packages/js-sdk/src/http.ts:93 | headers built after each `setApiKey` carry the latest token; after clearing it they carry no `Authorization` of the client's own |
| Client.RouteMemories | packages/js-sdk/src/client.ts:89-105 | every `memories.*` call is a REST POST, `delete` a DELETE, carrying its request object |
| Client.RouteSessions | packages/js-sdk/src/client.ts:107-112 | every `sessions.*` call is a REST GET with no body; a per-id listing's path is the scope segment, the encoded id and "/sessions" |
| Client.RouteMcp | packages/js-sdk/src/client.ts:115-128 | every `mcp.*` call goes through the MCP prefix; resources are GETs, tools are POSTs; the body is the call's request object; per-id listings encode the id |
| Client.Route | packages/js-sdk/src/client.ts:85-134 | a call goes through the MCP prefix exactly when it is an `mcp.*` call; `health()` is a GET with no body; no GET carries a body |
| Client.SessionListingsDifferOnlyInPrefix | packages/js-sdk/src/client.ts:107-127 | the REST and MCP session listings have the same method, path and body |
| Client.MemoriesRoutesAreDistinct | packages/js-sdk/src/client.ts:89-105 | no two `memories` methods share an HTTP method and a path |
| Client.McpRoutesAreDistinct | packages/js-sdk/src/client.ts:115-128 | no two `mcp` methods share an HTTP method and a path, whatever `encodeURIComponent` returns |
| Client.SearchPathsExtendAddPaths | packages/js-sdk/src/client.ts:91-101 | each REST search path is the matching add path followed by "/search" |
| Client.BodiesGoOutAsJson | packages/js-sdk/src/client.ts:89-128 | every body the facade sends goes out as JSON, under DELETE too; a call without one sends none |
| Client.DeleteDataHasNoBody | packages/js-sdk/src/client.ts:122-123 | `mcp.deleteData` sends no body and `mcp.deleteSessionData` sends its request |
| Client.Resolve | packages/js-sdk/src/client.ts:90-104 | a call rejects exactly when the transport did; `add*` and `delete` resolve to undefined, the others to the transport's payload |
| Client.UserSessionsUrl | packages/js-sdk/src/client.ts:109 | a user's REST listing is requested at the base URL, then "/v1/users/", the encoded id and "/sessions" |
| Client.UserListingPath | packages/js-sdk/src/client.ts:109 | the REST path of a user's listing is "/v1/users/", the encoded id and "/sessions" |
| Http.JoinUrlKeepsSlash | packages/js-sdk/src/http.ts:105-106 | a path starting with '/' is appended to the base unchanged |
| Client.MemMachineClient.constructor | packages/js-sdk/src/client.ts:85-86 | the client owns a new transport configured by the given options |
| Client.MemMachineClient.Invoke | packages/js-sdk/src/client.ts:89-134 | a call sends its routed method, prefixed path and body through the transport and settles as `Resolve` of the transport's outcome |
| Client.MemMachineClient.SetApiKey | packages/js-sdk/src/client.ts:137-139 | the transport's token becomes the given one |
| Lifecycle.EnterLoading | packages/react-sdk/src/hooks/common.ts:26 | a started call leaves a consistent loading record with no error; `useQuery` keeps its data, `run` and `mutate` clear it |
| Lifecycle.Normalize | packages/react-sdk/src/hooks/common.ts:34 | an `Error` is kept as it is; any other value becomes an `Error` named "Error" whose message is `String(value)`, so a thrown string becomes the message |
| Lifecycle.NormalizeIsIdempotent | packages/react-sdk/src/hooks/common.ts:60-62 | an error that is normalised, thrown and normalised again is unchanged |
| Lifecycle.MayWrite | packages/react-sdk/src/hooks/common.ts:29 | a settlement may write only for the latest id into a mounted host; a cleaned-up `useQuery` effect never writes |
| Lifecycle.Step | packages/react-sdk/src/hooks/common.ts:22-89 | only a start moves the counter, by one; a settlement writes its outcome exactly when the guard admits it and is otherwise a no-op; mount, unmount and a disabled effect run leave the record alone; mount sets and unmount clears the mounted flag |
| Lifecycle.Settlement | packages/react-sdk/src/hooks/common.ts:29-35 | a written settlement is consistent: success with the data exactly on success, error with the normalised error exactly on failure |
| Lifecycle.Enabled | packages/react-sdk/src/hooks/common.ts:19 | `enabled` wins when given; otherwise the query runs unless `skip` is true |
| Lifecycle.Cleanup | packages/react-sdk/src/hooks/common.ts:37-39 | the pending effect run is marked canceled and nothing else changes |
| Lifecycle.EffectRun | packages/react-sdk/src/hooks/common.ts:19-23 | an effect run starts a call exactly when the options enable the query, and otherwise only cleans up |
| Lifecycle.Answer | packages/react-sdk/src/hooks/common.ts:54-63 | the caller gets the data exactly when the guard admits the success, 'canceled' for a success the guard refuses, and the normalised error for every failure |
| Lifecycle.AnswerMatchesState | packages/react-sdk/src/hooks/common.ts:54-63 | data returned to the caller is the data the state shows; a 'canceled' answer leaves the hook unchanged; a stored failure is the error thrown |
| Lifecycle.FreshIsValid | packages/react-sdk/src/hooks/common.ts:17-20 | a new hook is idle, mounted and valid |
| Lifecycle.StepKeepsValid | packages/react-sdk/src/hooks/common.ts:22-41 | every event keeps the hook's record consistent and its bookkeeping well-formed |
| Lifecycle.ReplayKeepsValid | packages/react-sdk/src/hooks/common.ts:22-41 | every sequence of events keeps the hook valid |
| Lifecycle.CounterCountsStarts | packages/react-sdk/src/hooks/common.ts:25 | after any events the counter has grown by exactly the number of calls started |
| Lifecycle.StartTakesNextId | packages/react-sdk/src/hooks/common.ts:25 | a call takes the next id; a disabled effect run and `reset` take none |
| Lifecycle.RefusedSettlementIsNoOp | packages/react-sdk/src/hooks/common.ts:29 | a settlement the guard refuses changes nothing |
| Lifecycle.StaleSettlementsAreInvisible | packages/react-sdk/src/hooks/common.ts:29-35 | while no call starts, settlements of superseded calls, wherever they fall, leave the hook as if they never happened |
| Lifecycle.LatestCallWins | packages/react-sdk/src/hooks/common.ts:51-63 | of two calls started back to back, the state ends as the later one's outcome made it, in either completion order |
| Lifecycle.UnmountedHookIgnoresSettlements | packages/react-sdk/src/hooks/common.ts:5-14 | once unmounted, no sequence of settlements changes the hook |
| Lifecycle.UnmountStopsLatest | packages/react-sdk/src/hooks/common.ts:29 | after unmount even the latest call's settlement changes nothing |
| Lifecycle.QueryKeepsDataWhileLoading | packages/react-sdk/src/hooks/common.ts:26 | a started `useQuery` call shows the previous data while loading; `run` and `mutate` clear it |
| Lifecycle.DisabledRerunCancelsQuery | packages/react-sdk/src/hooks/common.ts:22-41 | the latest query call writes its outcome, but after a disabled rerun its settlement is dropped and the state stays loading |
| Lifecycle.ResetDoesNotCancelLatest | packages/react-sdk/src/hooks/common.ts:89 | `reset` returns to idle without touching the counter; the in-flight latest call still writes afterwards, an older one does not |
| Lifecycle.RemountRestoresLatest | packages/react-sdk/src/hooks/common.ts:5-14 | after unmount and remount the latest `run`/`mutate` call writes again |
| Hooks.MountedRef.constructor | packages/react-sdk/src/hooks/common.ts:6 | the ref starts true |
| Hooks.MountedRef.Mount | packages/react-sdk/src/hooks/common.ts:8 | the mount effect sets the ref to true |
| Hooks.MountedRef.Unmount | packages/react-sdk/src/hooks/common.ts:9-11 | the cleanup sets the ref to false |
| Hooks.Query.constructor | packages/react-sdk/src/hooks/common.ts:17-20 | a new query is idle, mounted, with counter 0 and valid |
| Hooks.Query.RunCleanup | packages/react-sdk/src/hooks/common.ts:37-39 | the pending effect run's `canceled` flag is set |
| Hooks.Query.RunEffect | packages/react-sdk/src/hooks/common.ts:22-26 | the effect moves the query as one effect-run step: cleanup, then, exactly when enabled, the next id and loading; a disabled run leaves the counter and the record unchanged |
| Hooks.Query.Settle | packages/react-sdk/src/hooks/common.ts:27-36 | a settlement moves the query as one guarded settlement step and keeps it valid |
| Hooks.Query.Mount | packages/react-sdk/src/hooks/common.ts:7-8 | remounting moves the query as one mount step |
| Hooks.Query.Unmount | packages/react-sdk/src/hooks/common.ts:9-11 | unmounting clears the ref and runs the pending effect's cleanup, as one unmount step |
| Hooks.LazyQuery.constructor | packages/react-sdk/src/hooks/common.ts:47-49 | a new lazy query is idle, mounted, with counter 0 and valid |
| Hooks.LazyQuery.Run | packages/react-sdk/src/hooks/common.ts:52-53 | `run` takes the next id, which becomes the latest, and enters loading with data and error cleared |
| Hooks.LazyQuery.Settle | packages/react-sdk/src/hooks/common.ts:54-63 | the guarded write is one settlement step, and the caller's promise settles with `Answer` |
| Hooks.LazyQuery.Mount | packages/react-sdk/src/hooks/common.ts:7-8 | remounting moves the hook as one mount step |
| Hooks.LazyQuery.Unmount | packages/react-sdk/src/hooks/common.ts:9-11 | unmounting moves the hook as one unmount step |
| Hooks.Mutation.constructor | packages/react-sdk/src/hooks/common.ts:70-72 | a new mutation is idle, mounted, with counter 0 and valid |
| Hooks.Mutation.Mutate | packages/react-sdk/src/hooks/common.ts:75-76 | `mutate` takes the next id, which becomes the latest, and enters loading with data and error cleared |
| Hooks.Mutation.Settle | packages/react-sdk/src/hooks/common.ts:77-86 | the guarded write is one settlement step, and the caller's promise settles with `Answer` |
| Hooks.Mutation.Reset | packages/react-sdk/src/hooks/common.ts:89 | `reset` returns the record to idle and leaves the counter unchanged |
| Hooks.Mutation.Mount | packages/react-sdk/src/hooks/common.ts:7-8 | remounting moves the hook as one mount step |
| Hooks.Mutation.Unmount | packages/react-sdk/src/hooks/common.ts:9-11 | unmounting moves the hook as one unmount step |

## Left out

- `fetch`, `AbortController` and the timer. What `fetch` gave is an input. The
  timeout is modelled only as the number handed on with the request. An abort
  before the response arrives reaches the model as a fetch rejection. The
  timer is cleared only after the body has been read, so an abort during the
  read reaches it as a rejection of `resp.json()` or `resp.text()`: on a 2xx
  response the request rejects with it, and on an error response `details`
  stays undefined and the default message is used. `clearTimeout` is not
  modelled.
- The custom `fetch` option (`opts.fetch`) is not modelled, because the
  response is an input.
- `JSON.stringify`, `resp.json()` parsing and the rendering of `String(v)` for
  a non-string value are symbolic. JSON numbers are integers. Floating point
  is not modelled.
- `encodeURIComponent` is a parameter with no behaviour assumed.
- Http.ErrorMessage and Lifecycle.Normalize assume `String(v)` returns. In
  JavaScript it throws a `TypeError` for an object whose `toString` and
  `valueOf` give no primitive, and a parsed JSON body can be one. At
  http.ts:59 the catch then keeps the default message, where the model gives
  `Stringified(detail)`. At common.ts:34, 60 and 83 the `new Error(String(err))`
  throws instead: `useQuery` writes nothing, and `run`/`mutate` reject with the
  `TypeError` and store nothing, where the model stores and rethrows
  `Plain("Error", Stringified(v))`.
- Strings are sequences of Unicode scalar values, not UTF-16 code units, so a
  lone surrogate cannot be written. On one, `encodeURIComponent` throws a
  `URIError` synchronously inside `sessions.forUser`, `forGroup`, `forAgent`
  and the MCP session listings; that throw is not modelled.
- HTTP header names are compared as exact strings. The case-insensitive
  matching of the `Headers` class is not modelled.
- React scheduling is not modelled. That covers batching, `useCallback`
  identity, effect dependency comparison, and React dropping a `setState`
  made after the host really unmounted. A call started after unmount enters
  `loading` in the model because the source's write is unguarded there.
- The request counter is unbounded. JavaScript numbers lose precision past
  2^53, which is not modelled.
- The response records (`SearchResult`, `AllSessionsResponse`,
  `HealthResponse`, `McpStatus`) are not modelled, because the client returns
  the parsed payload unchanged. The payload is not checked against them.
- The request records' `ToJson` functions carry no contract of their own.
  They only fix the key names the SDK sends: an optional field left out
  contributes no key, and a null one contributes `null`.
- The React context, provider, higher-order component, UI components and
  stories are outside this model. So are the one-line hook bindings over the
  client.
- `ApiError`'s `name` and stack are not modelled, and neither is
  `instanceof Error` for values from other realms. A thrown `Error` is kept as
  it is.
