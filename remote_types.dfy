/** Values shared by the connection broker and the per-identity sessions of the
    remote IRC connection layer: connection records, the server descriptor,
    HTTP requests issued to the remote service and frames written to its
    WebSocket. */
module RemoteTypes {

  datatype Option<+T> = None | Some(value: T)

  /** Why an operation of this layer rejected. */
  datatype Error =
    | StateFetchFailed    // a `GET .../{domain}?detail=state` failed or had no `connections`
    | SocketOpenFailed    // the WebSocket emitted "error" before "open"
    | NoWebSocket         // `this.websocket` is still null (TypeError on `.send`)
    | SocketNotOpen       // the WebSocket exists but never reached the open state
    | ConstAssignment     // TypeError: assignment to a constant variable
    | Rejected(reason: string)  // a rejection of the remote service or a collaborator, passed on as is

  datatype Result<+T> = Ok(value: T) | Err(error: Error)

  /** JavaScript truthiness of a possibly absent string: null, undefined and ""
      are falsy, every other string is truthy. */
  predicate Truthy(s: Option<string>)
  {
    s.Some? && s.value != ""
  }

  /** One connection as reported by the remote service; `state` stands for the
      rest of the object, which this layer stores without looking into it. */
  datatype ConnRecord = ConnRecord(id: string, nick: string, state: string)

  /** The read-only IRC server descriptor, reduced to the getters this layer
      consults. */
  datatype Server = Server(
    domain: string,
    port: int,
    defaultPassword: Option<string>,  // server.config.password
    ipv6Prefix: Option<string>,       // getIpv6Prefix()
    ipv6Only: bool,                   // getIpv6Only()
    useSsl: bool,                     // useSsl()
    useSasl: bool,                    // useSasl()
    sslSelfSigned: bool,              // useSslSelfSigned()
    allowExpiredCerts: bool,          // allowExpiredCerts()
    ca: string)                       // getCA()

  /** What the remote service answered to a state request. */
  datatype FetchOutcome =
    | Fetched(connections: Option<seq<ConnRecord>>)  // a body; `connections` may be missing
    | FetchFailed                                     // the request reported an error

  /** The body of a connection-open request: the options object the caller
      handed to `createConnection`. */
  datatype CreateOpts = CreateOpts(nick: string)

  datatype HttpMethod = Get | Post

  datatype Request = Request(verb: HttpMethod, path: string, body: Option<CreateOpts>)

  /** The `content` of a command: the "joinchannel" payload, or any other JSON
      value (kept as its text) that a caller of `sendCommand` may pass. */
  datatype Content = ChannelKey(channel: string, key: Option<string>) | Json(text: string)

  /** One outbound WebSocket text frame `{client_id, type, content}`. */
  datatype Frame = Frame(clientId: string, commandType: string, content: Content)

  const ConnectionsPrefix: string := "/_irc/connections/"
  const StateQuery: string := "?detail=state"
  const OpenSuffix: string := "/open"

  /** The priming endpoint of one server. */
  function StatePath(domain: string): (p: string)
  {
    ConnectionsPrefix + domain + StateQuery
  }

  /** The connection-open endpoint of one server. */
  function OpenPath(domain: string): (p: string)
  {
    ConnectionsPrefix + domain + OpenSuffix
  }

  /** Recovers the domain from a priming path; the inverse of StatePath. */
  function StateDomain(p: string): (d: Option<string>)
    ensures d.Some? ==> p == StatePath(d.value)
  {
    var n := |ConnectionsPrefix|;
    var q := |StateQuery|;
    if |p| >= n + q && p[..n] == ConnectionsPrefix && p[|p| - q..] == StateQuery then
      var d := p[n..|p| - q];
      assert p == p[..n] + d + p[|p| - q..];
      Some(d)
    else
      None
  }

  /** Every priming path names its domain, so two servers never share one. */
  lemma StatePathRoundTrip(domain: string)
    ensures StateDomain(StatePath(domain)) == Some(domain)
  {
  }

  /** A priming request can never be mistaken for an open request: the two
      paths end differently. */
  lemma StateAndOpenPathsDiffer(a: string, b: string)
    ensures StatePath(a) != OpenPath(b)
  {
    var s, o := StatePath(a), OpenPath(b);
    assert s[|s| - 1] == 'e';
    assert o[|o| - 1] == 'n';
  }
}
