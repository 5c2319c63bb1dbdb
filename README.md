# Broker connection handling, modelled in Dafny

This project models three pieces of the Snyk broker:

- The client's connection manager, `manageWebsocketConnections`. For each configured integration it:
  - skips the integration when it is disabled;
  - opens its tunnel right away when the integration has an identifier, asking the dispatcher for a server shard first when HA mode is on;
  - otherwise registers a connection watcher.
- The connection watcher, `setConnectionWatcher`. It re-reads the configuration on a timer until the integration gets a non-empty identifier. Then it hands the identity to the tunnel factory once and stops.
- The server's HTTP relay middleware, `overloadHttpRequestWithConnectionDetailsMiddleware`. It handles a request according to the broker token:
  - a registered token is forwarded over its newest tunnel, after the `/broker/{token}` prefix and any `connection_role` query parameter are removed from the URL;
  - an unregistered token is redirected to the primary pod when this pod is a secondary replica (host name ending in `-1`), with `connection_role=primary` appended;
  - otherwise the middleware answers 404.

Modules:

- `Common`: `Option`, string predicates and substring lemmas.
- `ClientTypes`: the configuration, its `connections` table and the `IdentifyingMetadata` record. It also holds the two objects the manager shares with every watcher: the options object (`ClientOpts`) and the tunnel list (`TunnelList`).
- `ConnectionWatcher`: a pure step function `Step` and its iteration `Run`. The class `Watcher` keeps the closure's state. Its methods are proved to move that state exactly as `Step` and `Run` say.
- `ConnectionManager`:
  - the per-integration decision `Decide`;
  - the per-pass specification functions `PassOutcomes` and `PassConfig`;
  - the methods `ManageConnections`, `ProcessAll`, `ProcessNext` and `ProcessIntegration`. They write `opts.config` in place and create one `Watcher` object per watched integration.
- `QueryString`:
  - `String.prototype.split`;
  - URL query parsing and serialization as `URLSearchParams` does them, without percent-encoding;
  - `delete`.
- `PodHostname`: the two regular expressions on host names, written as leftmost, greedy character scanners.
- `HttpRequestHandler`: the routing decision, the redirect URL, the URL rewriting before forwarding, and the middleware itself as a method on `Request` and `Response` objects.

External collaborators are parameters of the model:

- the bootstrap (remote configuration, OAuth, file checks, reloads): an `Option<Config>`. `Some(c)` is the configuration the options hold when the bootstrap ends, whether it completed or failed after a reload; in particular, a failure after the reload at `manager.ts:38` (say, in `fetchJwt`) is `Some` of the configuration reloaded there. `None` stands for a failure before any reload, which leaves the options as they were;
- the integration-type translation and the dispatcher's `getServerId`: functions;
- `createWebSocketConnectionPairs`: recorded as a `Created` outcome, and as a call made with the shared tunnel list (`TunnelList.Create`, which records the identity on the list);
- each watcher check's fetch and reload: a `CheckInput`;
- the socket registry: a map from token to tunnel handles;
- `os.hostname()`: a string;
- the call to the primary: a `Downstream` value.

Behaviour of the code a reader may not expect, which the model follows:

- The watcher merges the reloaded configuration with a shallow `Object.assign`. Top-level keys are replaced whole, so `connections` is replaced, not merged per entry.
- The dispatcher's answer (`serverId`) is written only into `config.connections[key]`. It is not written into the identity handed to the tunnel factory. An answer of `null` leaves the entry unchanged.
- A watcher check that fails (fetch, reload, or a missing `connections[friendlyName]`) logs and rethrows. It does not reschedule itself, so that watcher stops for good.
- When the call to the primary fails, the middleware sends 500 and then falls through to `connections.get(token)[0]`. That throws, because the token has no tunnels (`OverloadWithConnectionDetails`, exit `Threw`).
- Nothing stops a redirected request from being redirected again. The primary is recognised only by its host name, so a request with `connection_role=primary` that reaches a secondary without the token is redirected once more, with a second marker.
- `connection_role` is removed only from the text between the first and second `?` of the URL (`urlParts[1]`). Any later `?` segment is dropped. The removal happens only when the whole URL mentions `connection_role`, whether in the path, in a value or in a name.

## Model

| member | source | states |
|---|---|---|
| Common.StartsWith | lib/server/routesHandlers/httpRequestHandler.ts:84 | No contract: `s.startsWith(p)`, the first `|p|` characters of `s` are `p`. It states the precondition under which `StripBrokerPrefix` rebuilds the URL. |
| Common.EndsWith | lib/server/routesHandlers/httpRequestHandler.ts:30 | No contract: `s.endsWith(p)`, the last `|p|` characters of `s` are `p`. Its meaning in the routing test is fixed by `OrdinalSuffixIsSecondary` and `PrimaryIsNotSecondary`. |
| Common.Contains | lib/server/routesHandlers/httpRequestHandler.ts:85 | No contract: `s.includes(p)`. Its meaning is fixed by `ContainsAt` and `ContainsOccurs`: it holds exactly when `p` occurs at some position of `s`. |
| Common.ContainsAt | lib/server/routesHandlers/httpRequestHandler.ts:85 | An occurrence of `p` at any position makes `includes(p)` true. |
| Common.ContainsOccurs | lib/server/routesHandlers/httpRequestHandler.ts:85 | `includes(p)` is true only when `p` occurs at some position. |
| ClientTypes.Claimed | lib/client/connectionsManager/manager.ts:96 | No contract: the truthiness of `identifier`, present and not the empty string. It is the test both `Decide` (through `WatchedAreUnclaimedEnabled` and `CreatedCountIsClaimedEnabledCount`) and `Step` (the `NowClaimed` and `StillUnclaimed` cases) are stated with, as at `watcher.ts:49-53`. |
| ClientTypes.Lookup | lib/client/connectionsManager/watcher.ts:50-52 | An entry exists exactly when `connections` exists and has the friendly name, and the entry found is the one stored there. |
| ClientTypes.TunnelList.Create | lib/client/connectionsManager/manager.ts:127-131 | A call of `createWebSocketConnectionPairs` with this list appends the identity to the list's record of calls. |
| ConnectionWatcher.Merge | lib/client/connectionsManager/watcher.ts:41-45 | `Object.assign({}, prev, reloaded)`: each top-level key the reload has wins; keys only in the old config are kept; the key set is the union. |
| ConnectionWatcher.MergeIdempotent | lib/client/connectionsManager/watcher.ts:41-45 | Merging the same reload a second time changes nothing. |
| ConnectionWatcher.Start | lib/client/connectionsManager/watcher.ts:88-91 | A new watcher has its first check pending after `connectionsManager.watcher.frequency` and has made no callback. |
| ConnectionWatcher.Step | lib/client/connectionsManager/watcher.ts:24-87 | One check. A failed fetch or reload rethrows with the config untouched and nothing scheduled. Otherwise the config becomes the merge, and exactly one of three things happens. If the merged config has no entry for the friendly name, the `TypeError` is rethrown and nothing is scheduled. If the entry has a truthy identifier, the result is `NowClaimed`: the identifier is copied into the identity, the callback fires once and nothing is rescheduled. If the entry is present without one, the result is `StillUnclaimed` and one check is scheduled after `interval`. Only the identity's identifier ever changes. |
| ConnectionWatcher.Run | lib/client/connectionsManager/watcher.ts:70-91 | No contract: the timer that schedules the first check and reschedules itself while the entry is unclaimed. Its meaning is fixed by `RunCallsBackAtMostOnce`, `RunAfterClaimIsInert`, `RunWithoutClaimNeverCallsBack` and `RunClaimsAtFirstClaimingReload`, and `Watcher.Poll` is proved equal to it. |
| ConnectionWatcher.RunCallsBackAtMostOnce | lib/client/connectionsManager/watcher.ts:47-75 | Over any sequence of checks, either no callback is made and the identity is unchanged, or a check was pending and exactly one callback is made, carrying the final identity. In that case nothing is left pending and only the identifier changed. |
| ConnectionWatcher.RunAfterClaimIsInert | lib/client/connectionsManager/watcher.ts:47-69 | Once nothing is pending (after a claim or an error), further timer inputs change nothing. |
| ConnectionWatcher.RunWithoutClaimNeverCallsBack | lib/client/connectionsManager/watcher.ts:49-75 | If no config the watcher sees claims the connection, no callback is made and the identity is unchanged. |
| ConnectionWatcher.RunClaimsAtFirstClaimingReload | lib/client/connectionsManager/watcher.ts:47-75 | When reloads `0..j-1` leave the entry unclaimed and reload `j` claims it, the run ends with exactly one callback, carrying reload `j`'s identifier, and nothing pending. |
| ConnectionWatcher.Watcher.constructor | lib/client/connectionsManager/watcher.ts:12-92 | The watcher shares the given options and tunnel list, and its state is `Start`. |
| ConnectionWatcher.Watcher.Check | lib/client/connectionsManager/watcher.ts:24-87 | The new shared config, identity, pending timer and callbacks, together with the result, are exactly `Step` of the old state. On `NowClaimed`, and only then, the factory is called with the shared list and the claimed identity. |
| ConnectionWatcher.Watcher.Poll | lib/client/connectionsManager/watcher.ts:65-75 | Firing the timer once per input while a check is pending leaves the state at `Run` of the old state, and every callback of the run is a factory call made with the shared list, in order. |
| ConnectionManager.IdentityFor | lib/client/connectionsManager/manager.ts:69-87 | The per-integration identity: friendly name, id and identifier from the entry; `isDisabled ?? false`; `serverId ?? ''`; the translated type; everything else from the global template, which is never changed. |
| ConnectionManager.Decide | lib/client/connectionsManager/manager.ts:88-131 | Exactly one of: skip when disabled, watch when enabled and unclaimed, create when enabled and claimed. The dispatcher is asked (with identifier and client id) exactly when creating in HA mode (`BROKER_HA_MODE_ENABLED == 'true'`). |
| ConnectionManager.Outcomes | lib/client/connectionsManager/manager.ts:68-133 | One decision per key, in key order. |
| ConnectionManager.PassOutcomes | lib/client/connectionsManager/manager.ts:64-68 | No outcomes when `connections` is missing; otherwise one per key of `Object.keys(connections)`, each under its own friendly name. |
| ConnectionManager.PersistShard | lib/client/connectionsManager/manager.ts:111-126 | An entry changes only in `serverId`, only to the dispatcher's answer, and does change whenever a non-null answer came back. |
| ConnectionManager.PersistedTable | lib/client/connectionsManager/manager.ts:68-133 | Processing some of the keys keeps the key order and key set and leaves the entries of unprocessed keys as they were. |
| ConnectionManager.PassConfig | lib/client/connectionsManager/manager.ts:68-133 | No contract: the configuration a whole pass leaves, the `serverId` writes of `manager.ts:111-126` over every key. Its meaning is fixed by `PassConfigWritesOnlyShards`, and `ProcessAll` is proved to leave it. |
| ConnectionManager.PassConfigWritesOnlyShards | lib/client/connectionsManager/manager.ts:111-126 | A whole pass changes the configuration only in `serverId` fields of claimed, enabled entries, only to dispatcher answers, and writes back every non-null answer. |
| ConnectionManager.CreatedCountIsClaimedEnabledCount | lib/client/connectionsManager/manager.ts:110-131 | A pass creates exactly as many tunnels as there are enabled integrations with a truthy identifier. |
| ConnectionManager.WatchedAreUnclaimedEnabled | lib/client/connectionsManager/manager.ts:96-109 | A watcher is registered for an integration's identity exactly when the integration is enabled and has no truthy identifier. |
| ConnectionManager.ProcessIntegration | lib/client/connectionsManager/manager.ts:69-132 | One iteration: the outcome is `Decide`; the config entry is updated as `PersistShard`; exactly one fresh watcher sharing the options and the list is registered when watching, and none otherwise; the factory is called with the shared list exactly when creating. |
| ConnectionManager.ProcessNext | lib/client/connectionsManager/manager.ts:68-133 | Carries the loop invariant from key `i` to key `i+1`: config, outcomes, registered watchers and the factory calls on the list are those of the first `i+1` keys. |
| ConnectionManager.ProcessAll | lib/client/connectionsManager/manager.ts:64-134 | Outcomes are `PassOutcomes` and the new config is `PassConfig` of the old one. The tunnel list is new, and the factory calls made with it are exactly the created identities, in key order. There is one fresh watcher per watched identity, in order, each sharing the options and that list, pending after `frequency`, with no callback made. |
| ConnectionManager.ManageConnections | lib/client/connectionsManager/manager.ts:21-134 | As `ProcessAll`, over the configuration the bootstrap left (`Some`), or over the old one when the bootstrap failed before any reload (`None`). The returned list is the new list that every creation call of the pass and every watcher was handed. |
| QueryString.Split | lib/server/routesHandlers/httpRequestHandler.ts:86 | `split('?')`: never empty, no part holds the separator, and joining the parts gives back the text. |
| QueryString.SplitJoin | lib/server/routesHandlers/httpRequestHandler.ts:86 | Splitting a join of separator-free parts gives back the parts. |
| QueryString.CutAt | lib/server/routesHandlers/httpRequestHandler.ts:34 | Cutting a URL at its first `?`: the head has no `?`; there is a tail exactly when the text has a `?`; head, `?` and tail rebuild the text. |
| QueryString.SplitHeadIsCut | lib/server/routesHandlers/httpRequestHandler.ts:86-87 | `urlParts[0]` is the text before the first `?`; there are several parts exactly when the text has a `?`. |
| QueryString.ParsePiece | lib/server/routesHandlers/httpRequestHandler.ts:88 | A piece splits at its first `=`: the name has no `=`, and name, `=` and value rebuild the piece. A piece without `=` is a name with an empty value. |
| QueryString.ParsePieces | lib/server/routesHandlers/httpRequestHandler.ts:88 | Parsing `&`-separated pieces yields at most one pair per piece. |
| QueryString.Parse | lib/server/routesHandlers/httpRequestHandler.ts:88 | No contract: `new URLSearchParams(query)`, the non-empty `&`-separated pieces each split at the first `=`. Its meaning is fixed by `ParseSerialize`, `ParsePlain` and `ParsedNameOccurs`. |
| QueryString.ParsePieceText | lib/server/routesHandlers/httpRequestHandler.ts:88-91 | A pair whose name has no `=` parses back from its own text. |
| QueryString.Serialize | lib/server/routesHandlers/httpRequestHandler.ts:91 | `params.toString()` is empty exactly when there are no pairs. |
| QueryString.ParsePlain | lib/server/routesHandlers/httpRequestHandler.ts:88 | Parsed pairs never hold `&`, and their names never hold `=`. |
| QueryString.ParseSerialize | lib/server/routesHandlers/httpRequestHandler.ts:88-91 | Parsing a serialized list of plain pairs gives back the same list. |
| QueryString.Without | lib/server/routesHandlers/httpRequestHandler.ts:89 | `params.delete(name)` leaves no pair with that name and never adds pairs. |
| QueryString.WithoutKeeps | lib/server/routesHandlers/httpRequestHandler.ts:89 | Every pair with another name is kept. |
| QueryString.WithoutAppend | lib/server/routesHandlers/httpRequestHandler.ts:89 | Deleting from a concatenation deletes from each half. |
| QueryString.WithoutAbsent | lib/server/routesHandlers/httpRequestHandler.ts:89 | Deleting a name that no pair has changes nothing. |
| QueryString.WithoutPlain | lib/server/routesHandlers/httpRequestHandler.ts:89-91 | Deleting keeps plain pairs plain. |
| QueryString.ParsedNameOccurs | lib/server/routesHandlers/httpRequestHandler.ts:85-88 | Every parsed name occurs in the query text, so a text that does not mention `connection_role` has no such parameter. |
| PodHostname.MatchesOrdinalRevision | lib/server/routesHandlers/httpRequestHandler.ts:27-31 | `match(/-[0-9]{1,2}-[0-1]/)` succeeds exactly when the pattern occurs at some position. |
| PodHostname.IsSecondaryReplica | lib/server/routesHandlers/httpRequestHandler.ts:28-32 | No contract: the host name is non-empty, ends with `-1` and matches `-[0-9]{1,2}-[0-1]`. Its meaning is fixed by `OrdinalSuffixIsSecondary`, `PrimaryIsNotSecondary` and `DeploymentPodNames`. |
| PodHostname.OrdinalSuffixIsSecondary | lib/server/routesHandlers/httpRequestHandler.ts:28-32 | Any host name ending in `-N-1`, where `N` is one or two digits, is treated as a secondary replica. |
| PodHostname.PrimaryIsNotSecondary | lib/server/routesHandlers/httpRequestHandler.ts:30 | A host name ending in `-0` is never treated as a secondary. |
| PodHostname.DeploymentPodNames | test/unit/old-client-redirect.test.ts:29-31 | `broker-snyk-server-v2-10-1` is a secondary; `broker-snyk-server-v2-10-0` and `broker-1` are not. |
| PodHostname.OrdinalDotLength | lib/server/routesHandlers/httpRequestHandler.ts:35 | Non-zero exactly when `-[0-9]{1,2}\.` matches at the position (`OrdinalDotAt`): 3 for the one-digit form and 4 for the two-digit form. At most one form can match at a position. |
| PodHostname.FindOrdinalDot | lib/server/routesHandlers/httpRequestHandler.ts:35 | The leftmost position where the pattern matches: no earlier position matches, and no position at all when the result is `None`. |
| PodHostname.RewriteHost | lib/server/routesHandlers/httpRequestHandler.ts:35 | No contract: `replace(/-[0-9]{1,2}\./, '.')`. Its meaning is fixed by `RewriteHostReplacesFirstMatch` against the independent `OrdinalDotAt`, with `RewriteHostWithoutDash`, `RewriteHostDropsOrdinal` and `DeploymentServiceName`. |
| PodHostname.RewriteHostReplacesFirstMatch | lib/server/routesHandlers/httpRequestHandler.ts:35 | `replace` without the `g` flag: a host where the pattern matches nowhere is unchanged. Otherwise the leftmost match, of either length, becomes `.` and the text around it is kept. |
| PodHostname.RewriteHostWithoutDash | lib/server/routesHandlers/httpRequestHandler.ts:35 | A host without `-`, such as `127.0.0.1`, is not rewritten. |
| PodHostname.RewriteHostDropsOrdinal | lib/server/routesHandlers/httpRequestHandler.ts:35 | For any first label `a` without a dot (it may contain `-`), `a-N.b` becomes `a.b`, the primary's service name. |
| PodHostname.DeploymentServiceName | lib/server/routesHandlers/httpRequestHandler.ts:35 | `broker-snyk-server-v2-10.<domain>` becomes `broker-snyk-server-v2.<domain>` for every domain. |
| HttpRequestHandler.RouteFor | lib/server/routesHandlers/httpRequestHandler.ts:24-72 | Forward exactly when the token is registered; redirect exactly when it is not and this pod is a secondary replica; 404 otherwise. |
| HttpRequestHandler.StripBrokerPrefix | lib/server/routesHandlers/httpRequestHandler.ts:84 | `slice` drops exactly as many characters as `/broker/{token}` has, and gives `""` past the end. When the URL starts with the prefix, prefix plus result is the URL. |
| HttpRequestHandler.DropConnectionRole | lib/server/routesHandlers/httpRequestHandler.ts:85-93 | No contract: the removal of `connection_role` from the forwarded path. Its meaning is fixed by `DropConnectionRoleKeepsPath`, `DropConnectionRoleKeepsOthers` and `NoConnectionRoleRemains`. |
| HttpRequestHandler.DropConnectionRoleKeepsPath | lib/server/routesHandlers/httpRequestHandler.ts:85-93 | The path before the first `?` is kept. A URL that does not mention `connection_role`, or has no `?`, is kept whole. |
| HttpRequestHandler.DropConnectionRoleKeepsOthers | lib/server/routesHandlers/httpRequestHandler.ts:85-93 | The new query holds exactly the other parameters of the first query segment, in order, and the `?` goes exactly when none is left. |
| HttpRequestHandler.NoConnectionRoleRemains | lib/server/routesHandlers/httpRequestHandler.ts:85-93 | After the rewrite, the forwarded URL has no `connection_role` parameter. |
| HttpRequestHandler.PrimaryRoleText | lib/server/routesHandlers/httpRequestHandler.ts:36 | The appended marker serializes to `connection_role=primary`. |
| HttpRequestHandler.UrlText | lib/server/routesHandlers/httpRequestHandler.ts:39 | No contract: `url.toString()` for an `http:` URL, with `?` only when there are parameters. Its meaning is fixed by `RedirectTargetText` and `RedirectWithoutQuery`. |
| HttpRequestHandler.RedirectTarget | lib/server/routesHandlers/httpRequestHandler.ts:34-36 | The redirect URL's host is the rewritten request host, its path is the request path up to the first `?`, and its parameters are the request's followed by the marker. |
| HttpRequestHandler.RedirectTargetText | lib/server/routesHandlers/httpRequestHandler.ts:34-39 | The prepared URL starts with `http://`, the rewritten host, the path and `?`, and ends with `connection_role=primary`. |
| HttpRequestHandler.RedirectWithoutQuery | lib/server/routesHandlers/httpRequestHandler.ts:34-39 | A request without a query, on a host without `-`, is redirected to the same URL with `?connection_role=primary` appended. |
| HttpRequestHandler.OldClientRedirect | test/unit/old-client-redirect.test.ts:37-55 | An old client's request for `/broker/{token}/path` on `127.0.0.1` goes to `http://127.0.0.1/broker/{token}/path?connection_role=primary`. |
| HttpRequestHandler.RedirectThenForward | lib/server/routesHandlers/httpRequestHandler.ts:34-93 | A redirected request that arrives at a pod holding the token is forwarded with the original path minus the route prefix and with exactly the original parameters: the marker is added and then removed again. |
| HttpRequestHandler.ForwardOfMarked | lib/server/routesHandlers/httpRequestHandler.ts:85-93 | Forwarding `rest?ps&connection_role=primary` gives back `rest` with parameters `ps`. |
| HttpRequestHandler.RelayedStatus | lib/server/routesHandlers/httpRequestHandler.ts:51 | The primary's status is relayed; 500 when the response has none. |
| HttpRequestHandler.Request.constructor | lib/server/routesHandlers/httpRequestHandler.ts:13-17 | The request's host name, method, headers, body and URL are as given; no locals yet. |
| HttpRequestHandler.Response.constructor | lib/server/routesHandlers/httpRequestHandler.ts:13-17 | A response with no status, no body and no locals. |
| HttpRequestHandler.OverloadWithConnectionDetails | lib/server/routesHandlers/httpRequestHandler.ts:13-97 | The no-match metric is counted exactly for unregistered tokens. Which case applies follows `RouteFor`: 404 with `{ok: false}`; a request to the primary (rewritten URL, the same headers and method, the body when truthy) whose status is relayed, or 500 and a throw when it fails; a throw on an empty tunnel list; or the newest tunnel's socket, version and capabilities in the locals, the URL stripped of its prefix and of `connection_role`, and a call to `next`. Each case says what stays unchanged. |

## Left out

- Bootstrap I/O (universal config file, OAuth token, remote connections, validation, signal handlers): modelled only by its effect on the options: the configuration of the last reload that ran, or no change when it failed before any reload.
- Timers: `setTimeout` and `clearTimeout` become the watcher's `pending` delay. Time, concurrency and the interleaving of several watchers and the manager on the shared options object are not modelled. Each watcher is specified on its own.
- Integration-type translation and `getServerId`: modelled as deterministic functions. `getServerId` answers a string or `null`, and the model passes it only the identifier and the client id, not the configuration. Its network call, a rejection (which would end the whole pass) and an `undefined` answer are not modelled.
- ConnectionManager.ManageConnections: the tunnel list records each call of `createWebSocketConnectionPairs` made with it, from the manager and from watcher callbacks. It does not hold the WebSocket connections that the factory opens and appends, since the factory is outside this model.
- `Object.keys` order: taken as the table's key order. JavaScript lists integer-like keys first, and that is not modelled.
- `connectionsManager`: assumed present in every loaded configuration, since it carries defaults.
- `maskedToken` and `hashedToken` (token desensitising), logging, and emitting the metric: not modelled. The metric is reported only as a boolean.
- Percent-encoding and `+` decoding in `URLSearchParams` and `URL`, URL normalisation, ports, credentials and fragments: not modelled. Names and values are taken as plain text. `HttpRequestHandler.NoConnectionRoleRemains` therefore holds only for plain-text names. A query such as `?connection%5Frole=primary` does not contain the text `connection_role`, so the handler leaves the URL as it is, and a later URL parser decodes that name to `connection_role`.
- `JSON.stringify` of the body: the body is carried as the JSON text it produces, present when the body is truthy.
- Streaming, `pipeline`, the response headers and the body relayed from the primary: the response records only that the body was relayed. A failure after the primary's headers have been written is treated like a failure before them.
- The socket registry: an input map from token to handles (socket, version, capabilities). How sockets register and unregister is not part of this model.
