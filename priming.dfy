/** The broker's bookkeeping as values: the per-server cache of connection
    records, the global nick-to-id dedup map, how one state snapshot updates
    both, how a sequence of snapshot completions does, and the dedup lookup
    of `createConnection`. The class in ClientPool is proved against these
    functions. */
module Priming {
  import opened RemoteTypes

  /** server domain -> (connection id -> record) */
  type States = map<string, map<string, ConnRecord>>

  /** nick -> connection id, shared by all servers */
  type NickMap = map<string, string>

  datatype Cache = Cache(states: States, nicks: NickMap)

  /** One settled state request, tagged with the server it was issued for. */
  datatype Completion = Completion(domain: string, outcome: FetchOutcome)

  function Nicks(rs: seq<ConnRecord>): set<string>
  {
    set r | r in rs :: r.nick
  }

  function Ids(rs: seq<ConnRecord>): set<string>
  {
    set r | r in rs :: r.id
  }

  lemma LastSplit(rs: seq<ConnRecord>)
    requires rs != []
    ensures forall r :: r in rs <==> r in rs[..|rs| - 1] || r == rs[|rs| - 1]
  {
    assert rs == rs[..|rs| - 1] + [rs[|rs| - 1]];
  }

  /** The per-server `Map` built by `set(conn.id, conn)` for each record in
      turn. */
  function RecordsById(rs: seq<ConnRecord>): map<string, ConnRecord>
  {
    if rs == [] then map[]
    else
      var last := rs[|rs| - 1];
      RecordsById(rs[..|rs| - 1])[last.id := last]
  }

  /** The per-server map's keys are exactly the snapshot's ids, and each id is
      mapped to a record of the snapshot that carries it. */
  lemma {:induction false} RecordsByIdExact(rs: seq<ConnRecord>)
    ensures RecordsById(rs).Keys == Ids(rs)
    ensures forall k | k in RecordsById(rs) :: RecordsById(rs)[k].id == k && RecordsById(rs)[k] in rs
  {
    if rs != [] {
      LastSplit(rs);
      RecordsByIdExact(rs[..|rs| - 1]);
    }
  }

  /** When ids repeat in a snapshot, the record set last is the one kept. */
  lemma {:induction false} RecordsByIdLastWins(rs: seq<ConnRecord>, i: nat)
    requires i < |rs|
    requires forall j | i < j < |rs| :: rs[j].id != rs[i].id
    ensures rs[i].id in RecordsById(rs) && RecordsById(rs)[rs[i].id] == rs[i]
  {
    if i < |rs| - 1 {
      var pre := rs[..|rs| - 1];
      assert pre[i] == rs[i];
      assert forall j | i < j < |pre| :: pre[j] == rs[j];
      RecordsByIdLastWins(pre, i);
    }
  }

  /** The dedup map after `this.nickToId[conn.nick] = conn.id` for each record
      in turn. */
  function NickIndex(m: NickMap, rs: seq<ConnRecord>): NickMap
  {
    if rs == [] then m
    else
      var last := rs[|rs| - 1];
      NickIndex(m, rs[..|rs| - 1])[last.nick := last.id]
  }

  /** Indexing only inserts or overwrites: every earlier nick and every nick of
      the snapshot is a key afterwards, and nicks the snapshot does not mention
      keep their id. */
  lemma {:induction false} NickIndexGrows(m: NickMap, rs: seq<ConnRecord>)
    ensures NickIndex(m, rs).Keys == m.Keys + Nicks(rs)
    ensures forall n | n in m && n !in Nicks(rs) :: NickIndex(m, rs)[n] == m[n]
  {
    if rs != [] {
      LastSplit(rs);
      NickIndexGrows(m, rs[..|rs| - 1]);
    }
  }

  /** A repeated nick ends up mapped to the id of its last record. */
  lemma {:induction false} NickIndexLastWins(m: NickMap, rs: seq<ConnRecord>, i: nat)
    requires i < |rs|
    requires forall j | i < j < |rs| :: rs[j].nick != rs[i].nick
    ensures rs[i].nick in NickIndex(m, rs) && NickIndex(m, rs)[rs[i].nick] == rs[i].id
  {
    if i < |rs| - 1 {
      var pre := rs[..|rs| - 1];
      assert pre[i] == rs[i];
      assert forall j | i < j < |pre| :: pre[j] == rs[j];
      NickIndexLastWins(m, pre, i);
    }
  }

  /** Indexing two snapshots one after the other is indexing their
      concatenation. */
  lemma {:induction false} NickIndexConcat(m: NickMap, a: seq<ConnRecord>, b: seq<ConnRecord>)
    ensures NickIndex(m, a + b) == NickIndex(NickIndex(m, a), b)
  {
    if b == [] {
      assert a + b == a;
    } else {
      var ab, pre, last := a + b, b[..|b| - 1], b[|b| - 1];
      assert ab[..|ab| - 1] == a + pre;
      assert ab[|ab| - 1] == last;
      calc {
        NickIndex(m, ab);
        NickIndex(m, a + pre)[last.nick := last.id];
        { NickIndexConcat(m, a, pre); }
        NickIndex(NickIndex(m, a), pre)[last.nick := last.id];
        NickIndex(NickIndex(m, a), b);
      }
    }
  }

  /** What a `.then` handler leaves in `clientStates[domain]`. */
  function Written(o: FetchOutcome): map<string, ConnRecord>
    requires o.Fetched?
  {
    if o.connections.Some? then RecordsById(o.connections.value) else map[]
  }

  /** The records a completion feeds into the dedup map. */
  function RecordsOf(o: FetchOutcome): seq<ConnRecord>
  {
    if o.Fetched? && o.connections.Some? then o.connections.value else []
  }

  /** A completion whose handler ran to the end. */
  predicate Succeeded(o: FetchOutcome)
  {
    o.Fetched? && o.connections.Some?
  }

  /** One server's state request settling. A failed request changes nothing;
      a body replaces that server's map by a fresh one and indexes its nicks
      (a body without `connections` throws right after the fresh empty map is
      installed). Other servers' maps are never touched. */
  function ApplySnapshot(c: Cache, domain: string, o: FetchOutcome): (r: Cache)
    ensures o.FetchFailed? ==> r == c
    ensures o.Fetched? ==> domain in r.states && r.states[domain] == Written(o)
    ensures r.nicks == NickIndex(c.nicks, RecordsOf(o))
    ensures forall e | e != domain ::
              (e in r.states <==> e in c.states) && (e in c.states ==> r.states[e] == c.states[e])
  {
    match o
    case FetchFailed => c
    case Fetched(None) => Cache(c.states[domain := map[]], c.nicks)
    case Fetched(Some(rs)) => Cache(c.states[domain := RecordsById(rs)], NickIndex(c.nicks, rs))
  }

  /** Completions applied in the order they settled. */
  function PrimeAll(c: Cache, cs: seq<Completion>): Cache
  {
    if cs == [] then c
    else
      var last := cs[|cs| - 1];
      ApplySnapshot(PrimeAll(c, cs[..|cs| - 1]), last.domain, last.outcome)
  }

  /** Every record fed into the dedup map, in the order they were indexed. */
  function SnapshotRecords(cs: seq<Completion>): seq<ConnRecord>
  {
    if cs == [] then []
    else SnapshotRecords(cs[..|cs| - 1]) + RecordsOf(cs[|cs| - 1].outcome)
  }

  /** `Promise.all` resolves only if every handler ran to the end. */
  predicate AllSucceeded(cs: seq<Completion>)
  {
    forall k | 0 <= k < |cs| :: Succeeded(cs[k].outcome)
  }

  lemma AllSucceededSnoc(cs: seq<Completion>)
    requires cs != []
    ensures AllSucceeded(cs) == (AllSucceeded(cs[..|cs| - 1]) && Succeeded(cs[|cs| - 1].outcome))
  {
  }

  /** Priming a whole sequence indexes the concatenation of its snapshots. */
  lemma {:induction false} PrimeAllNicks(c: Cache, cs: seq<Completion>)
    ensures PrimeAll(c, cs).nicks == NickIndex(c.nicks, SnapshotRecords(cs))
  {
    if cs != [] {
      var pre := cs[..|cs| - 1];
      PrimeAllNicks(c, pre);
      NickIndexConcat(c.nicks, SnapshotRecords(pre), RecordsOf(cs[|cs| - 1].outcome));
    }
  }

  /** After priming, every nick of every applied snapshot is in the dedup map,
      and no earlier entry is lost: entries for nicks no snapshot mentions keep
      their id. */
  lemma PrimeAllKeepsAndAddsNicks(c: Cache, cs: seq<Completion>)
    ensures PrimeAll(c, cs).nicks.Keys == c.nicks.Keys + Nicks(SnapshotRecords(cs))
    ensures forall n | n in c.nicks && n !in Nicks(SnapshotRecords(cs)) ::
              PrimeAll(c, cs).nicks[n] == c.nicks[n]
  {
    PrimeAllNicks(c, cs);
    NickIndexGrows(c.nicks, SnapshotRecords(cs));
  }

  /** The records of every completion are among the records indexed. */
  lemma {:induction false} SnapshotRecordsContains(cs: seq<Completion>, k: nat, x: ConnRecord)
    requires k < |cs| && x in RecordsOf(cs[k].outcome)
    ensures x in SnapshotRecords(cs)
  {
    if k < |cs| - 1 {
      var pre := cs[..|cs| - 1];
      assert pre[k] == cs[k];
      SnapshotRecordsContains(pre, k, x);
    }
  }

  /** The priming invariant: once every request of a set of distinct servers
      has succeeded, each snapshot record's id is a key of its server's map,
      mapped to a record with that id, and its nick is in the dedup map. */
  lemma PrimedRecordIsCached(c: Cache, cs: seq<Completion>, k: nat, x: ConnRecord)
    requires AllSucceeded(cs)
    requires forall i, j | 0 <= i < j < |cs| :: cs[i].domain != cs[j].domain
    requires k < |cs| && x in RecordsOf(cs[k].outcome)
    ensures var p := PrimeAll(c, cs);
            && cs[k].domain in p.states
            && x.id in p.states[cs[k].domain]
            && p.states[cs[k].domain][x.id].id == x.id
            && x.nick in p.nicks
  {
    assert Succeeded(cs[k].outcome);
    PrimeAllLastWrite(c, cs, cs[k].domain, k);
    RecordsByIdExact(cs[k].outcome.connections.value);
    SnapshotRecordsContains(cs, k, x);
    PrimeAllKeepsAndAddsNicks(c, cs);
  }

  /** After priming, a nick is mapped to the id of the last record carrying it,
      across all servers in completion order. */
  lemma PrimeAllNickLastWins(c: Cache, cs: seq<Completion>, i: nat)
    requires i < |SnapshotRecords(cs)|
    requires forall j | i < j < |SnapshotRecords(cs)| ::
               SnapshotRecords(cs)[j].nick != SnapshotRecords(cs)[i].nick
    ensures var r := SnapshotRecords(cs)[i];
            r.nick in PrimeAll(c, cs).nicks && PrimeAll(c, cs).nicks[r.nick] == r.id
  {
    PrimeAllNicks(c, cs);
    NickIndexLastWins(c.nicks, SnapshotRecords(cs), i);
  }

  /** A server whose every request failed keeps its earlier map, or its
      absence. */
  lemma {:induction false} PrimeAllUntouched(c: Cache, cs: seq<Completion>, d: string)
    requires forall k | 0 <= k < |cs| && cs[k].domain == d :: cs[k].outcome.FetchFailed?
    ensures d in PrimeAll(c, cs).states <==> d in c.states
    ensures d in c.states ==> PrimeAll(c, cs).states[d] == c.states[d]
  {
    if cs != [] {
      var pre := cs[..|cs| - 1];
      assert forall k | 0 <= k < |pre| :: pre[k] == cs[k];
      PrimeAllUntouched(c, pre, d);
    }
  }

  /** A server's map is the one written by the last of its requests that got a
      body; earlier maps for that server are replaced, not merged. */
  lemma {:induction false} PrimeAllLastWrite(c: Cache, cs: seq<Completion>, d: string, i: nat)
    requires i < |cs| && cs[i].domain == d && cs[i].outcome.Fetched?
    requires forall j | i < j < |cs| && cs[j].domain == d :: cs[j].outcome.FetchFailed?
    ensures d in PrimeAll(c, cs).states
    ensures PrimeAll(c, cs).states[d] == Written(cs[i].outcome)
  {
    if i < |cs| - 1 {
      var pre := cs[..|cs| - 1];
      assert forall k | 0 <= k < |pre| :: pre[k] == cs[k];
      PrimeAllLastWrite(c, pre, d, i);
    }
  }

  /** The dedup rule of `createConnection`: a cached id is reused only when it
      is a non-empty string stored for exactly that nick; an absent nick or an
      empty id is a miss. Only the map's own entries are consulted. */
  function CachedId(nicks: NickMap, nick: string): (r: Option<string>)
    ensures r.Some? <==> nick in nicks && nicks[nick] != ""
    ensures r.Some? ==> r.value == nicks[nick]
  {
    if nick in nicks && nicks[nick] != "" then Some(nicks[nick]) else None
  }

  /** A nick primed from a snapshot, with a non-empty id and no later record
      reusing the nick, is served from the cache with that id. */
  lemma PrimedNickIsReused(c: Cache, cs: seq<Completion>, i: nat)
    requires i < |SnapshotRecords(cs)| && SnapshotRecords(cs)[i].id != ""
    requires forall j | i < j < |SnapshotRecords(cs)| ::
               SnapshotRecords(cs)[j].nick != SnapshotRecords(cs)[i].nick
    ensures CachedId(PrimeAll(c, cs).nicks, SnapshotRecords(cs)[i].nick) == Some(SnapshotRecords(cs)[i].id)
  {
    PrimeAllKeepsAndAddsNicks(c, cs);
    PrimeAllNickLastWins(c, cs, i);
  }

  /** The two-server scenario: a.example knows alice as c1, b.example knows bob
      as c2; alice is then served from the cache and carol is not. */
  lemma TwoServerScenario(s: string)
    ensures var cs := [Completion("a.example", Fetched(Some([ConnRecord("c1", "alice", s)]))),
                       Completion("b.example", Fetched(Some([ConnRecord("c2", "bob", s)])))];
            var p := PrimeAll(Cache(map[], map[]), cs);
            && p.nicks == map["alice" := "c1", "bob" := "c2"]
            && CachedId(p.nicks, "alice") == Some("c1")
            && CachedId(p.nicks, "carol") == None
  {
    var cs := [Completion("a.example", Fetched(Some([ConnRecord("c1", "alice", s)]))),
               Completion("b.example", Fetched(Some([ConnRecord("c2", "bob", s)])))];
    var c0 := Cache(map[], map[]);
    var one := [cs[0]];
    assert cs[..|cs| - 1] == one;
    assert one[..0] == [];
    var rs1 := [ConnRecord("c1", "alice", s)];
    assert rs1[..0] == [];
    var rs2 := [ConnRecord("c2", "bob", s)];
    assert rs2[..0] == [];
    assert NickIndex(map[], rs1) == map["alice" := "c1"];
    assert PrimeAll(c0, one[..0]) == c0;
    var p1 := PrimeAll(c0, one);
    assert p1 == ApplySnapshot(c0, "a.example", cs[0].outcome);
    assert p1.nicks == map["alice" := "c1"];
    assert NickIndex(p1.nicks, rs2) == map["alice" := "c1", "bob" := "c2"];
  }

  // ---------------------------------------------------------------------------
  // The lookup as written: `nickToId` is a plain object literal, so indexing it
  // with a nick that names a member of Object.prototype yields that inherited
  // member, which is truthy.

  /** Property names every plain JavaScript object inherits. */
  const ObjectPrototypeMembers: set<string> := {
    "constructor", "hasOwnProperty", "isPrototypeOf", "propertyIsEnumerable",
    "toLocaleString", "toString", "valueOf", "__proto__",
    "__defineGetter__", "__defineSetter__", "__lookupGetter__", "__lookupSetter__"
  }

  /** The value of `this.nickToId[nick]`. */
  datatype JsValue = Undefined | Str(s: string) | Inherited(name: string)

  function LookupAsWritten(nicks: NickMap, nick: string): (v: JsValue)
    ensures nick in nicks ==> v == Str(nicks[nick])
    ensures nick !in nicks && nick in ObjectPrototypeMembers ==> v == Inherited(nick)
    ensures nick !in nicks && nick !in ObjectPrototypeMembers ==> v == Undefined
  {
    if nick in nicks then Str(nicks[nick])
    else if nick in ObjectPrototypeMembers then Inherited(nick)
    else Undefined
  }

  predicate JsTruthy(v: JsValue)
  {
    match v
    case Undefined => false
    case Str(s) => s != ""
    case Inherited(_) => true
  }

  /** Whether `createConnection` as written takes the cache-hit branch. */
  predicate CacheHitAsWritten(nicks: NickMap, nick: string)
  {
    JsTruthy(LookupAsWritten(nicks, nick))
  }

  /** For every nick that is not an Object.prototype member the written test
      and CachedId agree. */
  lemma CacheHitAsWrittenAgrees(nicks: NickMap, nick: string)
    requires nick !in ObjectPrototypeMembers
    ensures CacheHitAsWritten(nicks, nick) <==> CachedId(nicks, nick).Some?
  {
  }

  /** With nothing cached, the nick "valueOf" takes the hit branch as written
      (returning the inherited function as the connection id, without any
      open request), while no id is cached for it. */
  lemma InheritedNickSkipsCreate()
    ensures CacheHitAsWritten(map[], "valueOf")
    ensures CachedId(map[], "valueOf") == None
  {
  }
}
