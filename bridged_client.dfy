/** The per-identity session (`RemoteBridgedClient`): the fields derived when
    it is constructed, the connection options `_connect` builds, the `_connect`
    workflow that ends by storing the broker's connection id, `joinChannel`,
    and the diagnostic `logPrefix`. The identity generator, the IPv6 address
    generator and the broker's remote answers are parameters. */
module BridgedClient {
  import opened RemoteTypes
  import opened Priming
  import opened ClientPool

  /** The id of a session that has no connection yet. */
  const NotConnected: string := "not-connected"

  const JoinChannelCommand: string := "joinchannel"

  /** The bridge-side user behind a virtual identity: `getId()` and
      `getDisplayName()`. */
  datatype MatrixUser = MatrixUser(id: string, displayName: Option<string>)

  /** The per-identity IRC client config: `getDesiredNick()`, `getPassword()`
      and `getIpv6Address()`, the last one written by the address generator. */
  datatype ClientConfig = ClientConfig(
    desiredNick: Option<string>,
    password: Option<string>,
    ipv6Address: Option<string>)

  /** What the identity generator resolves. */
  datatype NameInfo = NameInfo(username: string, realname: string)

  /** The fields a session derives once, at construction. */
  datatype SessionFields = SessionFields(
    userId: Option<string>,
    displayName: Option<string>,
    nick: string,
    password: Option<string>,
    isBot: bool)

  /** Constructor derivations. `serverNick` stands for `server.getNick` and
      `validNick` for `getValidNick(_, false)`, both outside this layer. */
  function Derive(server: Server, config: ClientConfig, user: Option<MatrixUser>, isBot: bool,
                  serverNick: (Option<string>, Option<string>) -> string,
                  validNick: string -> string): (f: SessionFields)
    ensures user.None? ==> f.userId == None && f.displayName == None
    ensures user.Some? ==> f.userId == Some(user.value.id) && f.displayName == user.value.displayName
    ensures Truthy(config.password) ==> f.password == config.password
    ensures !Truthy(config.password) ==> f.password == server.defaultPassword
    ensures Truthy(config.desiredNick) ==> f.nick == validNick(config.desiredNick.value)
    ensures !Truthy(config.desiredNick) ==> f.nick == validNick(serverNick(f.userId, f.displayName))
    ensures f.isBot == isBot
  {
    var userId := if user.Some? then Some(user.value.id) else None;
    var displayName := if user.Some? then user.value.displayName else None;
    var candidate := if Truthy(config.desiredNick) then config.desiredNick.value
                     else serverNick(userId, displayName);
    var password := if Truthy(config.password) then config.password else server.defaultPassword;
    SessionFields(userId, displayName, validNick(candidate), password, isBot)
  }

  /** A session has a usable password exactly when its client config or its
      server supplies one; the server's default never overrides a client's
      own password. */
  lemma PasswordFallback(server: Server, config: ClientConfig, user: Option<MatrixUser>, isBot: bool,
                         serverNick: (Option<string>, Option<string>) -> string,
                         validNick: string -> string)
    ensures var f := Derive(server, config, user, isBot, serverNick, validNick);
            && (Truthy(f.password) <==> Truthy(config.password) || Truthy(server.defaultPassword))
            && (Truthy(config.password) ==> f.password == config.password)
  {
  }

  datatype SecureOpts = SecureOpts(ca: string)

  /** The `connectionOpts` record of `_connect`; `family` and `localAddress`
      are null/undefined when None. */
  datatype ConnectionOptions = ConnectionOptions(
    nick: string,
    userName: string,
    realName: string,
    password: Option<string>,
    localAddress: Option<string>,
    autoConnect: bool,
    autoRejoin: bool,
    floodProtection: bool,
    port: int,
    selfSigned: bool,
    certExpired: bool,
    retryCount: int,
    family: Option<int>,
    bustRfc3484: bool,
    sasl: bool,
    secure: Option<SecureOpts>)

  /** The connection options built from the server descriptor, the session's
      nick and password, the resolved names and the client config's IPv6
      address (as left by the address generator). */
  function BuildOptions(server: Server, nick: string, password: Option<string>, names: NameInfo,
                        ipv6Address: Option<string>): (o: ConnectionOptions)
    ensures o.nick == nick && o.userName == names.username && o.realName == names.realname
    ensures o.password == password
    ensures o.sasl <==> Truthy(password) && server.useSasl
    ensures o.family == (if Truthy(server.ipv6Prefix) || server.ipv6Only then Some(6) else None)
    ensures o.localAddress == (if Truthy(server.ipv6Prefix) then ipv6Address else None)
    ensures o.secure.Some? <==> server.useSsl
    ensures o.secure.Some? ==> o.secure.value.ca == server.ca
    ensures o.port == server.port && o.selfSigned == server.sslSelfSigned
            && o.certExpired == server.allowExpiredCerts
    ensures !o.autoConnect && !o.autoRejoin && o.floodProtection && o.retryCount == 0 && o.bustRfc3484
  {
    var prefixed := Truthy(server.ipv6Prefix);
    ConnectionOptions(
      nick := nick,
      userName := names.username,
      realName := names.realname,
      password := password,
      localAddress := if prefixed then ipv6Address else None,
      autoConnect := false,
      autoRejoin := false,
      floodProtection := true,
      port := server.port,
      selfSigned := server.sslSelfSigned,
      certExpired := server.allowExpiredCerts,
      retryCount := 0,
      family := if prefixed || server.ipv6Only then Some(6) else None,
      bustRfc3484 := true,
      sasl := if Truthy(password) then server.useSasl else false,
      secure := if server.useSsl then Some(SecureOpts(server.ca)) else None)
  }

  /** Options that ask for SASL or a local address always carry what that
      needs: a password, respectively an IPv6 family. */
  lemma OptionsConsistent(server: Server, nick: string, password: Option<string>, names: NameInfo,
                          ipv6Address: Option<string>)
    ensures var o := BuildOptions(server, nick, password, names, ipv6Address);
            && (o.sasl ==> Truthy(o.password))
            && (o.localAddress.Some? ==> o.family == Some(6))
  {
  }

  /** `"<" + nick + "@" + domain + "#" + _id + "> "` */
  function PrefixBase(nick: string, domain: string, id: string): string
  {
    "<" + nick + "@" + domain + "#" + id + "> "
  }

  /** The `logPrefix` getter as written: its `prefix` is a `const`, so the
      `+=` it runs for a truthy user id throws. */
  function LogPrefix(nick: string, domain: string, id: string, userId: Option<string>): (r: Result<string>)
    ensures r.Ok? <==> !Truthy(userId)
    ensures r.Ok? ==> r.value == PrefixBase(nick, domain, id)
    ensures r.Err? ==> r.error == ConstAssignment
  {
    if Truthy(userId) then Err(ConstAssignment) else Ok(PrefixBase(nick, domain, id))
  }

  /** The label the getter evidently means to build: the user id in
      parentheses is appended when there is one. */
  function IntendedLogPrefix(nick: string, domain: string, id: string, userId: Option<string>): (p: string)
    ensures !Truthy(userId) ==> LogPrefix(nick, domain, id, userId) == Ok(p)
    ensures Truthy(userId) ==> p == PrefixBase(nick, domain, id) + "(" + userId.value + ") "
    ensures p[..|PrefixBase(nick, domain, id)|] == PrefixBase(nick, domain, id)
  {
    var base := PrefixBase(nick, domain, id);
    if Truthy(userId) then base + "(" + userId.value + ") " else base
  }

  /** A session with a bridge-side user cannot produce its log prefix as
      written, while the intended label exists. */
  lemma LogPrefixThrowsForUser()
    ensures LogPrefix("alice", "a.example", NotConnected, Some("@alice:example.org")) == Err(ConstAssignment)
    ensures IntendedLogPrefix("alice", "a.example", NotConnected, Some("@alice:example.org"))
            == "<alice@a.example#not-connected> (@alice:example.org) "
  {
    assert PrefixBase("alice", "a.example", NotConnected) == "<alice@a.example#not-connected> ";
  }

  class RemoteBridgedClient {
    const pool: RemoteClientPool
    const server: Server
    const matrixUser: Option<MatrixUser>
    const userId: Option<string>
    const displayName: Option<string>
    const nick: string
    const password: Option<string>
    const isBot: bool
    var clientConfig: ClientConfig
    var id: string

    function Fields(): SessionFields
    {
      SessionFields(userId, displayName, nick, password, isBot)
    }

    constructor (pool: RemoteClientPool, server: Server, config: ClientConfig, matrixUser: Option<MatrixUser>,
                 isBot: bool, serverNick: (Option<string>, Option<string>) -> string,
                 validNick: string -> string)
      ensures this.pool == pool && this.server == server && this.matrixUser == matrixUser
      ensures clientConfig == config
      ensures Fields() == Derive(server, config, matrixUser, isBot, serverNick, validNick)
      ensures id == NotConnected
    {
      var f := Derive(server, config, matrixUser, isBot, serverNick, validNick);
      this.pool := pool;
      this.server := server;
      this.matrixUser := matrixUser;
      userId := f.userId;
      displayName := f.displayName;
      nick := f.nick;
      password := f.password;
      this.isBot := f.isBot;
      clientConfig := config;
      id := NotConnected;
    }

    /** Whether `_connect` gets as far as calling `createConnection`. */
    predicate ReachesCreate(names: Result<NameInfo>, allocation: Result<string>)
    {
      names.Ok? && (Truthy(server.ipv6Prefix) ==> allocation.Ok?)
    }

    /** `_connect`: resolve names, allocate an IPv6 address when the server has
        a prefix, build the connection options, ask the broker for a connection
        for `{nick}` only, and store the id it yields. `id` changes only in the
        last step; any earlier failure leaves it as it was. `opts` is the
        options record the workflow builds (and does not forward). */
    method Connect(names: Result<NameInfo>, allocation: Result<string>, created: Result<string>)
      returns (r: Result<()>, ghost opts: Option<ConnectionOptions>)
      modifies this`id, this`clientConfig, pool`requests
      ensures names.Ok? && Truthy(server.ipv6Prefix) && allocation.Ok? ==>
                clientConfig == old(clientConfig).(ipv6Address := Some(allocation.value))
      ensures !(names.Ok? && Truthy(server.ipv6Prefix) && allocation.Ok?) ==>
                clientConfig == old(clientConfig)
      ensures !ReachesCreate(names, allocation) ==>
                id == old(id) && pool.requests == old(pool.requests) && opts == None
      ensures names.Err? ==> r == Err(names.error)
      ensures names.Ok? && Truthy(server.ipv6Prefix) && allocation.Err? ==> r == Err(allocation.error)
      ensures ReachesCreate(names, allocation) ==>
                opts == Some(BuildOptions(server, nick, password, names.value, clientConfig.ipv6Address))
      ensures ReachesCreate(names, allocation) && CachedId(pool.nickToId, nick).Some? ==>
                r == Ok(()) && id == CachedId(pool.nickToId, nick).value && pool.requests == old(pool.requests)
      ensures ReachesCreate(names, allocation) && CachedId(pool.nickToId, nick).None? ==>
                && pool.requests == old(pool.requests) + [Request(Post, OpenPath(server.domain), Some(CreateOpts(nick)))]
                && (created.Ok? ==> r == Ok(()) && id == created.value)
                && (created.Err? ==> r == Err(created.error) && id == old(id))
    {
      if names.Err? {
        return Err(names.error), None;
      }
      if Truthy(server.ipv6Prefix) {
        if allocation.Err? {
          return Err(allocation.error), None;
        }
        // the address generator writes the address into the client config
        clientConfig := clientConfig.(ipv6Address := Some(allocation.value));
      }
      opts := Some(BuildOptions(server, nick, password, names.value, clientConfig.ipv6Address));
      var uuid := pool.CreateConnection(server, CreateOpts(nick), created);
      if uuid.Err? {
        return Err(uuid.error), opts;
      }
      id := uuid.value;
      r := Ok(());
    }

    /** `joinChannel(channel, key, attemptCount)`: one "joinchannel" command
        addressed to the current id, whatever it is; `attemptCount` is
        ignored and the id is left alone. */
    method JoinChannel(channel: string, key: Option<string>, attemptCount: int) returns (r: Result<()>)
      modifies pool`outbox
      ensures pool.socket == Open ==>
                r == Ok(()) && pool.outbox == old(pool.outbox) + [Frame(id, JoinChannelCommand, ChannelKey(channel, key))]
      ensures pool.socket != Open ==> r.Err? && pool.outbox == old(pool.outbox)
    {
      r := pool.SendCommand(id, JoinChannelCommand, ChannelKey(channel, key));
    }
  }
}
