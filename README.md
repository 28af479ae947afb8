# Remote IRC connection layer of matrix-appservice-irc, in Dafny

This project models the "remote" connection layer of the Matrix–IRC bridge.
In this layer the bridge does not speak IRC itself. An external service holds
the IRC connections, and the bridge keeps local bookkeeping in step with that
service.

- `RemoteClientPool` is the connection broker. It primes a per-server cache
  (`clientStates`: domain → id → record) and a global dedup map (`nickToId`:
  nick → id) from each server's state snapshot. It creates the WebSocket only
  once every snapshot has arrived. `createConnection` reuses a cached id for a
  nick or asks the service to open a new connection. `sendCommand` frames
  `{client_id, type, content}`.
- `RemoteBridgedClient` is one virtual IRC identity. Its constructor derives
  the user id, display name, nick and password. `_connect` resolves names,
  may allocate an IPv6 address, builds the connection options, asks the broker
  for a connection and stores the returned id in `_id` (initially
  `"not-connected"`). `joinChannel` sends one command; `logPrefix` is a
  diagnostic label.

Files:

- `remote_types.dfy` (module `RemoteTypes`): records, server descriptor,
  requests, frames, endpoint paths.
- `priming.dfy` (module `Priming`): the cache as values. It holds the effect of
  one snapshot and of a sequence of snapshots, the dedup lookup, and the
  lemmas about them.
- `client_pool.dfy` (module `ClientPool`): class `RemoteClientPool`. Its
  methods are proved against the `Priming` functions. Ghost logs `requests`
  and `outbox` record the HTTP requests issued and the frames handed to the
  WebSocket.
- `bridged_client.dfy` (module `BridgedClient`): the session's derivations as
  functions and class `RemoteBridgedClient`, which holds a reference to the
  pool.

Where the remote service, the network or a collaborator answers, the answer is
a parameter. For priming, `outcomes` gives each server's state answer and
`order` the order in which they settled. `openOk` says whether the WebSocket
opened. For creation, `response` is the open request's answer. For sessions,
`names` is the identity generator's result and `allocation` the IPv6
generator's. `serverNick` and `validNick` stand for `server.getNick` and
`getValidNick`.

Four behaviours of the code that the model keeps as written:

- Priming is not atomic. A state answer that arrives after another server's
  request failed is still written to the cache. Also, a body without
  `connections` installs an empty map for that server before it fails. The
  model promises only that no WebSocket is created (`socket` unchanged).
- `sendCommand` has no guard, and calling `.send` on the null `websocket`
  throws. The model returns `Err(NoWebSocket)` and emits no frame.
- Sessions have no separate connect state. There is only `_id`, and a
  successful `_connect` stores whatever id the broker yields. That id can be
  any non-empty cached id, or any id in the open response. So "succeeded"
  implies "not the sentinel" only if the service never uses the id
  `"not-connected"`.
- A successful `createConnection` does not record the new id in `nickToId`.
  Repeated calls for the same nick issue repeated open requests.

## Model

| member | source | states |
|---|---|---|
| `RemoteTypes.StateDomain` | lib/irc/remote/RemoteClientPool.js:24-26 | a path it accepts is exactly `/_irc/connections/` + domain + `?detail=state` for the domain it returns |
| `RemoteTypes.StatePathRoundTrip` | lib/irc/remote/RemoteClientPool.js:24-26 | the priming path of a domain gives back that domain, so each server has its own priming endpoint |
| `RemoteTypes.StateAndOpenPathsDiffer` | lib/irc/remote/RemoteClientPool.js:142-143 | no priming path equals any open path `/_irc/connections/{domain}/open` |
| `Priming.RecordsByIdExact` | lib/irc/remote/RemoteClientPool.js:28-30 | a server's fresh map has exactly the snapshot's ids as keys, and each id maps to a snapshot record with that id |
| `Priming.RecordsByIdLastWins` | lib/irc/remote/RemoteClientPool.js:29-30 | when an id repeats, the map keeps the last record set for it |
| `Priming.NickIndexGrows` | lib/irc/remote/RemoteClientPool.js:29-31 | indexing a snapshot only inserts or overwrites: old nicks and the snapshot's nicks are all keys, and nicks the snapshot does not mention keep their id |
| `Priming.NickIndexLastWins` | lib/irc/remote/RemoteClientPool.js:29-31 | a repeated nick maps to the id of its last record |
| `Priming.ApplySnapshot` | lib/irc/remote/RemoteClientPool.js:26-38 | a failed request changes nothing; a body replaces that server's map by the one it writes and indexes its nicks; other servers' maps are unchanged |
| `Priming.PrimeAllNicks` | lib/irc/remote/RemoteClientPool.js:22-32 | priming several servers indexes all their records, in completion order, into the dedup map |
| `Priming.PrimeAllKeepsAndAddsNicks` | lib/irc/remote/RemoteClientPool.js:16-31 | after priming, every record's nick is in `nickToId`, no earlier entry is removed, and unmentioned nicks keep their id |
| `Priming.PrimedRecordIsCached` | lib/irc/remote/RemoteClientPool.js:22-32 | after every request of distinct servers succeeded, each snapshot record's id is a key of its server's map (mapped to a record with that id) and its nick is in `nickToId` |
| `Priming.PrimeAllNickLastWins` | lib/irc/remote/RemoteClientPool.js:29-31 | across servers, a nick maps to the id of the last record carrying it, in completion order |
| `Priming.PrimeAllUntouched` | lib/irc/remote/RemoteClientPool.js:22-38 | a server whose requests all failed keeps its earlier map, or stays absent |
| `Priming.PrimeAllLastWrite` | lib/irc/remote/RemoteClientPool.js:26-32 | a server's map is the one written by its last answered request; earlier maps are replaced, not merged |
| `Priming.CachedId` | lib/irc/remote/RemoteClientPool.js:137-140 | a hit happens exactly when the nick has its own non-empty id, and the hit returns that id; an empty id counts as a miss |
| `Priming.PrimedNickIsReused` | lib/irc/remote/RemoteClientPool.js:28-40 | a nick primed with a non-empty id, and not reused by a later record, is served from the cache with that id |
| `Priming.TwoServerScenario` | lib/irc/remote/RemoteClientPool.js:28-31 | priming a.example {c1: alice} and b.example {c2: bob} gives {alice: c1, bob: c2}; alice then hits with c1 and carol misses |
| `Priming.LookupAsWritten` | lib/irc/remote/RemoteClientPool.js:137 | `this.nickToId[nick]` on a plain object gives the own entry, else an inherited Object.prototype member, else undefined |
| `Priming.CacheHitAsWrittenAgrees` | lib/irc/remote/RemoteClientPool.js:137-140 | for every nick that is not an Object.prototype member, the truthiness test as written and `CachedId` agree, in both directions |
| `Priming.InheritedNickSkipsCreate` | lib/irc/remote/RemoteClientPool.js:137-140 | with an empty cache, the nick "valueOf" takes the hit branch as written, although no id is cached for it |
| `ClientPool.StateRequests` | lib/irc/remote/RemoteClientPool.js:22-26 | one GET per server, in server order, each to that server's priming path |
| `ClientPool.RemoteClientPool.constructor` | lib/irc/remote/RemoteClientPool.js:14-17 | empty cache, empty dedup map, no WebSocket, nothing requested or sent |
| `ClientPool.RemoteClientPool.ApplyState` | lib/irc/remote/RemoteClientPool.js:26-38 | the per-record loop leaves the cache equal to `ApplySnapshot` of the old cache, and reports success exactly for a body with `connections` |
| `ClientPool.RemoteClientPool.IssueStateRequests` | lib/irc/remote/RemoteClientPool.js:22-26 | appends exactly the servers' state requests to the request log |
| `ClientPool.RemoteClientPool.ApplyCompletions` | lib/irc/remote/RemoteClientPool.js:22-39 | applying every answer in completion order leaves `PrimeAll` of the old cache; `allOk` holds exactly when every answer succeeded |
| `ClientPool.RemoteClientPool.Connect` | lib/irc/remote/RemoteClientPool.js:21-61 | issues every state request; the cache ends as `PrimeAll` of the answers; on any failure the socket is not created and connect rejects; otherwise the socket is created, and connect resolves iff it opens |
| `ClientPool.RemoteClientPool.CreateConnection` | lib/irc/remote/RemoteClientPool.js:136-148 | a hit returns the cached id and issues no request; a miss issues exactly one POST to the server's open path with `opts` as body and returns the response; neither map changes |
| `ClientPool.RemoteClientPool.SendCommand` | lib/irc/remote/RemoteClientPool.js:150-156 | on an open socket, appends exactly one frame `{client_id, type, content}`; with no socket, or one that never opened, it fails and sends nothing |
| `ClientPool.SendTwice` | lib/irc/remote/RemoteClientPool.js:150-156 | two sequential commands appear on the wire in call order |
| `BridgedClient.Derive` | lib/irc/remote/RemoteBridgedClient.js:23-32 | user id and display name are null without a user and come from the user otherwise; the password is the client's when truthy, else the server default; the nick is validated from the desired nick or the server's nick |
| `BridgedClient.PasswordFallback` | lib/irc/remote/RemoteBridgedClient.js:28-30 | a session has a usable password iff its client config or its server provides one, and a client password is never overridden |
| `BridgedClient.BuildOptions` | lib/irc/remote/RemoteBridgedClient.js:104-124 | sasl iff a truthy password and a SASL server; family 6 iff an IPv6 prefix or IPv6-only; localAddress only with a prefix; secure with the CA iff SSL; fixed knobs autoConnect/autoRejoin off, flood protection on, retryCount 0, bustRfc3484 on |
| `BridgedClient.OptionsConsistent` | lib/irc/remote/RemoteBridgedClient.js:109-119 | options asking for SASL carry a truthy password; options with a local address have family 6 |
| `BridgedClient.LogPrefix` | lib/irc/remote/RemoteBridgedClient.js:76-82 | the getter as written succeeds iff the user id is falsy, giving `<nick@domain#id> `; otherwise it throws a const-assignment error |
| `BridgedClient.IntendedLogPrefix` | lib/irc/remote/RemoteBridgedClient.js:76-82 | agrees with the getter wherever the getter succeeds; with a user id, it appends `(userId) ` to the same base |
| `BridgedClient.LogPrefixThrowsForUser` | lib/irc/remote/RemoteBridgedClient.js:77-79 | for user `@alice:example.org` the getter throws, while the intended label is `<alice@a.example#not-connected> (@alice:example.org) ` |
| `BridgedClient.RemoteBridgedClient.constructor` | lib/irc/remote/RemoteBridgedClient.js:14-39 | the fields are `Derive` of the inputs, the config is kept, and `_id` starts as "not-connected" |
| `BridgedClient.RemoteBridgedClient.Connect` | lib/irc/remote/RemoteBridgedClient.js:85-131 | a name or address failure rejects with that failure's error, `_id` unchanged and no request; with a prefix, the generated address is stored in the config; the options are `BuildOptions` of the session; the broker gets only `{nick}`; `_id` becomes the yielded id, and a failed create leaves it unchanged |
| `BridgedClient.RemoteBridgedClient.JoinChannel` | lib/irc/remote/RemoteBridgedClient.js:65-70 | exactly one "joinchannel" frame addressed to the current `_id` (even the sentinel) with `{channel, key}`; `attemptCount` is ignored and `_id` is untouched |

## Findings

| source | as written | input that shows it | evidently intended | confidence | as-written member | corrected member |
|---|---|---|---|---|---|---|
| lib/irc/remote/RemoteClientPool.js:137-140 | `nickToId` is a plain `{}`, so `this.nickToId[opts.nick]` also finds members inherited from Object.prototype, and those are truthy | an empty cache and nick `valueOf`: the hit branch returns `Object.prototype.valueOf` as the connection id and issues no open request | reuse only an id actually cached for that nick (an own entry) | medium, not executed | `Priming.LookupAsWritten`, `Priming.InheritedNickSkipsCreate` | `Priming.CachedId` |
| lib/irc/remote/RemoteBridgedClient.js:77-79 | `prefix` is declared `const` and then extended with `+=` when there is a user id | user id `@alice:example.org`: the getter throws TypeError | append `(userId) ` to the prefix | high, not executed | `BridgedClient.LogPrefix`, `BridgedClient.LogPrefixThrowsForUser` | `BridgedClient.IntendedLogPrefix` |

`RemoteClientPool.CreateConnection` and the session's `Connect` use the
corrected `CachedId`. Nothing else in the model reads the log prefix.

## Left out

- HTTP through the `request` library and `_requestWrapper`, including its call to `resolve` after `reject`: foreign I/O. Each answer is an input `FetchOutcome` or `Result`.
- Open responses without an `id`, or with an empty body (where `res.id` is undefined or throws), and non-string ids: the open answer is modelled as an id string or an error.
- WebSocket construction, its `open`/`error`/`message` events, and `_onMessage`/`_onError` (which only log): network I/O. The only socket state kept is: none, opened, or failed to open. A socket that closes after opening is not modelled. Refusing frames on a socket that never opened is the `ws` library's behaviour, not code in this layer.
- JSON serialisation of frames: a frame is kept as a value. When `key` is undefined, `JSON.stringify` drops it; the model does not show that.
- Promise scheduling and interleaving: concurrency. `connect` processes the answers one after another in a given completion order, and returns after all of them. In the source, the caller already sees the rejection at the first failure. The race between two sessions' `createConnection` calls for the same nick is not modelled. `connect` is modelled only for runs in which every state request settles; a request that never settles leaves `connect` pending forever in the source, since this layer imposes no timeout.
- JavaScript's handling of the nick `__proto__` in `nickToId`: the string id assigned to `nickToId["__proto__"]` while priming is silently dropped, and the lookup in `createConnection` then reads the truthy `Object.prototype`. The model records such a nick like any other. (A domain `__proto__` in `clientStates` behaves as modelled: it receives the fresh `Map` and the records set into it.)
- The empty stub methods (`killAllClients`, `setBot`, `getBot`, `getBridgedClientByUserId`, …) and the commented-out pool logic: they have no behaviour. `createIrcClient` only delegates to `ircBridge.createBridgedClient`, which is not part of this model. `getClientConfig` and the `connect` getter only return a field.
- External collaborators: the identity generator, the IPv6 generator, `server.getNick` and `getValidNick`. Each is replaced by its result or by a function parameter. For the IPv6 generator, the result is the address it writes into the client config.
- `eventBroker.sendMetadata`: fire-and-forget status output; not modelled.
- Logging, the `this.log` wrappers, `console.log` and `Date.now()` behind `lastActionTs`: side effects or the clock. The same goes for the fields this layer sets and never reads (`inst`, `instCreationFailed`, `explicitDisconnect`, `chanList`, `_connectDefer`, `_cachedOperatorNicksInfo`), and for the pool's `baseUrl`, `headers` and `isRemote`.
