/** The connection broker (`RemoteClientPool`): the per-server record cache,
    the global dedup map, the WebSocket gate, idempotent connection creation
    and command framing. Remote answers are parameters; the HTTP requests the
    broker issues and the frames it hands to the WebSocket are kept in ghost
    logs. */
module ClientPool {
  import opened RemoteTypes
  import opened Priming

  /** The `websocket` field: null, or a socket whose opening succeeded or
      failed. */
  datatype SocketState = NoSocket | Open | OpenFailed

  /** The state request of each server, in the order `ircServers.map` issues
      them. */
  function StateRequests(servers: seq<Server>): (rs: seq<Request>)
    ensures |rs| == |servers|
    ensures forall k | 0 <= k < |servers| :: rs[k] == Request(Get, StatePath(servers[k].domain), None)
  {
    if servers == [] then []
    else StateRequests(servers[..|servers| - 1])
         + [Request(Get, StatePath(servers[|servers| - 1].domain), None)]
  }

  /** `order` lists the indices of `servers` in the order their requests
      settled: each index exactly once. */
  predicate ValidOrder(servers: seq<Server>, outcomes: seq<FetchOutcome>, order: seq<nat>)
  {
    && |outcomes| == |servers| && |order| == |servers|
    && (forall k | 0 <= k < |order| :: order[k] < |servers|)
    && (forall j, k | 0 <= j < k < |order| :: order[j] != order[k])
  }

  /** The settled requests in completion order, tagged with their server. */
  function Completions(servers: seq<Server>, outcomes: seq<FetchOutcome>, order: seq<nat>): seq<Completion>
    requires ValidOrder(servers, outcomes, order)
  {
    seq(|order|, k requires 0 <= k < |order| => Completion(servers[order[k]].domain, outcomes[order[k]]))
  }

  class RemoteClientPool {
    var clientStates: States
    var nickToId: NickMap
    var socket: SocketState
    /** HTTP requests issued to the remote service, in order. */
    ghost var requests: seq<Request>
    /** Frames handed to the WebSocket, in order. */
    ghost var outbox: seq<Frame>

    function CacheOf(): Cache
      reads this
    {
      Cache(clientStates, nickToId)
    }

    constructor ()
      ensures clientStates == map[] && nickToId == map[] && socket == NoSocket
      ensures requests == [] && outbox == []
    {
      clientStates := map[];
      nickToId := map[];
      socket := NoSocket;
      requests := [];
      outbox := [];
    }

    /** The `.then` handler of one server's state request. */
    method ApplyState(domain: string, o: FetchOutcome) returns (ok: bool)
      modifies this`clientStates, this`nickToId
      ensures CacheOf() == ApplySnapshot(old(CacheOf()), domain, o)
      ensures ok == Succeeded(o)
    {
      if o.FetchFailed? {
        return false;
      }
      clientStates := clientStates[domain := map[]];
      if o.connections.None? {
        // `res.connections.forEach` throws once the fresh map is installed
        return false;
      }
      var rs := o.connections.value;
      var j := 0;
      while j < |rs|
        invariant 0 <= j <= |rs|
        invariant clientStates == old(clientStates)[domain := RecordsById(rs[..j])]
        invariant nickToId == NickIndex(old(nickToId), rs[..j])
      {
        var conn := rs[j];
        assert rs[..j + 1][..j] == rs[..j] && rs[..j + 1][j] == conn;
        assert RecordsById(rs[..j + 1]) == RecordsById(rs[..j])[conn.id := conn];
        assert NickIndex(old(nickToId), rs[..j + 1]) == NickIndex(old(nickToId), rs[..j])[conn.nick := conn.id];
        clientStates := clientStates[domain := clientStates[domain][conn.id := conn]];
        nickToId := nickToId[conn.nick := conn.id];
        j := j + 1;
      }
      assert rs[..j] == rs;
      ok := true;
    }

    /** `connect(ircServers)`: issue every state request, apply each answer as
        it settles (in `order`), and create the WebSocket only when all
        answers succeeded; `openOk` says whether it then opened. Answers that
        settle after a failure are still written to the cache. */
    method Connect(servers: seq<Server>, outcomes: seq<FetchOutcome>, order: seq<nat>, openOk: bool)
      returns (r: Result<()>)
      requires ValidOrder(servers, outcomes, order)
      modifies this`clientStates, this`nickToId, this`socket, this`requests
      ensures requests == old(requests) + StateRequests(servers)
      ensures CacheOf() == PrimeAll(old(CacheOf()), Completions(servers, outcomes, order))
      ensures !AllSucceeded(Completions(servers, outcomes, order)) ==>
                socket == old(socket) && r == Err(StateFetchFailed)
      ensures AllSucceeded(Completions(servers, outcomes, order)) ==>
                socket == (if openOk then Open else OpenFailed)
                && r == (if openOk then Ok(()) else Err(SocketOpenFailed))
    {
      IssueStateRequests(servers);
      var allOk := ApplyCompletions(servers, outcomes, order);
      if !allOk {
        return Err(StateFetchFailed);
      }
      // every answer is in: the WebSocket is created now, and opens or fails
      if openOk {
        socket := Open;
        r := Ok(());
      } else {
        socket := OpenFailed;
        r := Err(SocketOpenFailed);
      }
    }

    /** `ircServers.map(...)`: one state request per server, all issued before
        any answer is looked at. */
    method IssueStateRequests(servers: seq<Server>)
      modifies this`requests
      ensures requests == old(requests) + StateRequests(servers)
    {
      var k := 0;
      while k < |servers|
        invariant 0 <= k <= |servers|
        invariant requests == old(requests) + StateRequests(servers[..k])
      {
        assert servers[..k + 1][..k] == servers[..k];
        requests := requests + [Request(Get, StatePath(servers[k].domain), None)];
        k := k + 1;
      }
      assert servers[..k] == servers;
    }

    /** The answers settling one by one in completion order; `allOk` is what
        `Promise.all` waits for. */
    method ApplyCompletions(servers: seq<Server>, outcomes: seq<FetchOutcome>, order: seq<nat>)
      returns (allOk: bool)
      requires ValidOrder(servers, outcomes, order)
      modifies this`clientStates, this`nickToId
      ensures CacheOf() == PrimeAll(old(CacheOf()), Completions(servers, outcomes, order))
      ensures allOk == AllSucceeded(Completions(servers, outcomes, order))
    {
      ghost var c0 := CacheOf();
      ghost var cs := Completions(servers, outcomes, order);
      var i := 0;
      allOk := true;
      while i < |order|
        invariant 0 <= i <= |order|
        invariant CacheOf() == PrimeAll(c0, cs[..i])
        invariant allOk == AllSucceeded(cs[..i])
      {
        var s := order[i];
        assert cs[..i + 1][..i] == cs[..i] && cs[..i + 1][i] == cs[i];
        assert cs[i] == Completion(servers[s].domain, outcomes[s]);
        assert PrimeAll(c0, cs[..i + 1]) == ApplySnapshot(PrimeAll(c0, cs[..i]), cs[i].domain, cs[i].outcome);
        AllSucceededSnoc(cs[..i + 1]);
        var ok := ApplyState(servers[s].domain, outcomes[s]);
        allOk := allOk && ok;
        i := i + 1;
      }
      assert cs[..i] == cs;
    }

    /** `createConnection(server, opts)`: reuse the id cached for `opts.nick`
        without any request, or issue one open request with `opts` as its body
        and answer with the service's `response`. Neither map is changed. */
    method CreateConnection(server: Server, opts: CreateOpts, response: Result<string>)
      returns (r: Result<string>)
      modifies this`requests
      ensures CachedId(nickToId, opts.nick).Some? ==>
                r == Ok(CachedId(nickToId, opts.nick).value) && requests == old(requests)
      ensures CachedId(nickToId, opts.nick).None? ==>
                r == response && requests == old(requests) + [Request(Post, OpenPath(server.domain), Some(opts))]
    {
      var hit := CachedId(nickToId, opts.nick);
      if hit.Some? {
        return Ok(hit.value);
      }
      requests := requests + [Request(Post, OpenPath(server.domain), Some(opts))];
      r := response;
    }

    /** `sendCommand(client_id, type, content)`: exactly one frame is handed to
        the WebSocket. With no socket yet, `.send` on null throws; a socket that
        never opened refuses the frame. */
    method SendCommand(clientId: string, commandType: string, content: Content) returns (r: Result<()>)
      modifies this`outbox
      ensures socket == NoSocket ==> r == Err(NoWebSocket) && outbox == old(outbox)
      ensures socket == OpenFailed ==> r == Err(SocketNotOpen) && outbox == old(outbox)
      ensures socket == Open ==>
                r == Ok(()) && outbox == old(outbox) + [Frame(clientId, commandType, content)]
    {
      match socket
      case NoSocket => r := Err(NoWebSocket);
      case OpenFailed => r := Err(SocketNotOpen);
      case Open =>
        outbox := outbox + [Frame(clientId, commandType, content)];
        r := Ok(());
    }
  }

  /** Two commands sent one after the other on an open socket appear on the
      wire in call order. */
  method SendTwice(pool: RemoteClientPool, a: Frame, b: Frame)
    requires pool.socket == Open
    modifies pool`outbox
    ensures pool.outbox == old(pool.outbox) + [a, b]
  {
    var r1 := pool.SendCommand(a.clientId, a.commandType, a.content);
    var r2 := pool.SendCommand(b.clientId, b.commandType, b.content);
  }
}
