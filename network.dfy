/**
 * The peer-to-peer session manager `NetworkService`
 * (src/app/store/network/network.service.ts).
 *
 * The service owns at most one PeerJS peer (`peerInstance`) and, in the client
 * role, one outbound data connection (`connInstance`). PeerJS objects are
 * records kept in two arenas, `peers` and `conns`, which stand for the heap:
 * a peer or connection that the service has let go of stays in its arena and
 * can still deliver events, because nothing in the source rejects callbacks
 * from torn-down objects. The listeners that the source's closures register
 * are recorded on the records, so each library callback is a method that runs
 * exactly the listeners registered on the object that fires it.
 *
 * The network store is the field `store`; everything the service emits
 * (store updates, `SendMessage` calls, per-connection sends, `messages$`,
 * `onClientConnected$` and the outcome of `StartHost`'s promise) is appended
 * to the ghost record `log`.
 */
module PeerNetwork {
  import opened Options

  datatype ConnectionState = Disconnected | Connecting | Connected

  datatype NetworkMode = Localhost | Network

  /** The fields of the network store that the service reads and writes. */
  datatype NetworkState = NetworkState(
    peerConnectionState: ConnectionState,
    networkMode: NetworkMode,
    hostID: Option<string>,
    saveHost: bool)

  /** One `networkStore.update` call, in the order the service makes them. */
  datatype StoreUpdate =
    | SetStatus(status: ConnectionState)
    | SetHostID(hostID: Option<string>)
    | SetMode(mode: NetworkMode)
    | SetSaveHost(saveHost: bool)

  /** A message on the wire: a type tag and an opaque payload. */
  datatype Message<D> = Message(messageType: string, data: D)

  /** The options object given to the PeerJS constructor. */
  datatype PeerOptions = PeerOptions(host: string, path: string, secure: bool, port: nat)

  /** Index of a data connection in the service's arena of connections. */
  type ConnId = nat

  /** State of the promise `StartHost` awaits. */
  datatype Startup = Pending | Resolved | Rejected

  /** The peer-level listeners registered right after the peer was created. */
  datatype PeerListeners =
    | NoListeners
    | ClientPeer(hostId: string)   // InitClient: open -> connect, error -> ResetClient(hostId)
    | HostPeer(startup: Startup)   // StartHost: open -> resolve, error -> reject

  /**
   * A PeerJS peer. `connections` is the library's map from remote id to every
   * data connection made with that id; `connectionListeners` counts the
   * "connection" listeners registered on it.
   */
  datatype Peer = Peer(
    id: string,
    options: Option<PeerOptions>,
    open: bool,
    disconnected: bool,
    destroyed: bool,
    connections: map<string, seq<ConnId>>,
    listeners: PeerListeners,
    connectionListeners: nat)

  /**
   * A PeerJS data connection. `clientOf` is `Some(hostId)` for a connection
   * made by the client's open listener (its open and close listeners are
   * registered); `openListeners` counts the host's "open" listeners that
   * announce a joined client; `dataListeners` counts the "data" listeners that
   * forward to `messages$`.
   */
  datatype DataConnection = DataConnection(
    remote: string,
    reliable: bool,
    open: bool,
    closed: bool,
    clientOf: Option<string>,
    openListeners: nat,
    dataListeners: nat)

  /** One `peerConnection.send(message)`. */
  datatype Delivery<D> = Delivery(conn: ConnId, message: Message<D>)

  /** How the promise returned by `StartHost` settled. */
  datatype HostStart = Started | Failed(reason: string)

  /** Everything the service has emitted so far. */
  datatype Outbox<D> = Outbox(
    storeUpdates: seq<StoreUpdate>,
    sendCalls: seq<Message<D>>,
    sent: seq<Delivery<D>>,
    messages: seq<Message<D>>,
    clientConnected: nat,
    hostStarts: seq<HostStart>)

  /** The service's real state, gathered so that contracts can frame it. */
  datatype SessionState = SessionState(
    store: NetworkState,
    peers: seq<Peer>,
    conns: seq<DataConnection>,
    peerInstance: Option<nat>,
    connInstance: Option<nat>,
    pendingReconnects: seq<string>)

  const LOCALHOST_OPTIONS: PeerOptions := PeerOptions("localhost", "ws", false, 3030)

  /** JavaScript truthiness of the stored host id: `undefined` and `''` are both falsy. */
  predicate Truthy(id: Option<string>) {
    id.Some? && id.value != ""
  }

  /** `state.saveHost ? (state.hostID || uuid()) : uuid()` with `generated` for `uuid()`. */
  function ChooseHostId(saveHost: bool, hostID: Option<string>, generated: string): (id: string)
    ensures saveHost && Truthy(hostID) ==> id == hostID.value
    ensures !saveHost || !Truthy(hostID) ==> id == generated
    ensures id == generated || (saveHost && id == hostID.value && id != "")
  {
    if saveHost then (if Truthy(hostID) then hostID.value else generated) else generated
  }

  /** The options `StartPeer` passes: the local signalling server only in localhost mode. */
  function PeerOptionsFor(mode: NetworkMode): (o: Option<PeerOptions>)
    ensures o.Some? <==> mode == Localhost
    ensures o.Some? ==> o.value.host == "localhost" && o.value.path == "ws"
                        && !o.value.secure && o.value.port == 3030
  {
    if mode == Localhost then Some(LOCALHOST_OPTIONS) else None
  }

  /** The mode `SetClientNetworkMode(isLocal)` stores. */
  function ModeFor(isLocal: bool): (m: NetworkMode)
    ensures m == Localhost <==> isLocal
    ensures m == Network <==> !isLocal
  {
    if isLocal then Localhost else Network
  }

  /** A peer as `new Peer(id, options)` makes it: not yet open, no connections. */
  function NewPeer(id: string, options: Option<PeerOptions>): Peer {
    Peer(id, options, false, false, false, map[], NoListeners, 0)
  }

  /** The connection `peer.connect(hostId, {reliable: true})` returns, with the client's listeners. */
  function OutboundConnection(hostId: string): DataConnection {
    DataConnection(hostId, true, false, false, Some(hostId), 0, 0)
  }

  /** `peer.destroy()`: the library also disconnects the peer from the signalling server. */
  function Destroyed(p: Peer): Peer {
    p.(open := false, disconnected := true, destroyed := true)
  }

  /** `conn.close()`. */
  function Closed(c: DataConnection): DataConnection {
    c.(open := false, closed := true)
  }

  /** Every connection listed in `m` is below `n`. */
  ghost predicate ConnIdsBelow(m: map<string, seq<ConnId>>, n: nat) {
    forall remote, j :: remote in m && 0 <= j < |m[remote]| ==> m[remote][j] < n
  }

  /** `peerInstance?.destroy()` on the arena. */
  function DestroyAt(peers: seq<Peer>, i: Option<nat>): (r: seq<Peer>)
    requires i.Some? ==> i.value < |peers|
    ensures |r| == |peers|
    ensures i.Some? ==> r[i.value].destroyed && r[i.value].disconnected && !r[i.value].open
    ensures i.Some? ==> r[i.value].connections == peers[i.value].connections
    ensures forall j :: 0 <= j < |peers| && (i.None? || j != i.value) ==> r[j] == peers[j]
  {
    if i.Some? then peers[i.value := Destroyed(peers[i.value])] else peers
  }

  /** `connInstance?.close()` on the arena. */
  function CloseAt(conns: seq<DataConnection>, i: Option<nat>): (r: seq<DataConnection>)
    requires i.Some? ==> i.value < |conns|
    ensures |r| == |conns|
    ensures i.Some? ==> r[i.value].closed && !r[i.value].open
    ensures forall j :: 0 <= j < |conns| && (i.None? || j != i.value) ==> r[j] == conns[j]
  {
    if i.Some? then conns[i.value := Closed(conns[i.value])] else conns
  }

  /** The library lists a new connection `c` with `remote` under that id. */
  function WithConnection(m: map<string, seq<ConnId>>, remote: string, c: ConnId): (r: map<string, seq<ConnId>>)
    ensures r.Keys == m.Keys + {remote}
    ensures r[remote] == (if remote in m then m[remote] else []) + [c]
    ensures forall k :: k in m && k != remote ==> r[k] == m[k]
  {
    m[remote := (if remote in m then m[remote] else []) + [c]]
  }

  /** `n` copies of `x`: one emission per registered listener. */
  function Repeat<T>(x: T, n: nat): (r: seq<T>)
    ensures |r| == n
    ensures forall i :: 0 <= i < n ==> r[i] == x
  {
    seq(n, _ => x)
  }

  /** Some remote id of a non-empty connections map. */
  ghost function PickRemote(m: map<string, seq<ConnId>>): (k: string)
    requires m != map[]
    ensures k in m
  {
    var k :| k in m; k
  }

  /** Every connection listed under every remote id, with multiplicity. */
  ghost function AllConns(m: map<string, seq<ConnId>>): multiset<ConnId>
    decreases m.Keys
  {
    if m == map[] then multiset{}
    else
      var k := PickRemote(m);
      AllConns(m - {k}) + multiset(m[k])
  }

  /** `AllConns` does not depend on the order in which remote ids are visited. */
  lemma {:induction false} AllConnsRemove(m: map<string, seq<ConnId>>, k: string)
    requires k in m
    ensures AllConns(m) == AllConns(m - {k}) + multiset(m[k])
    decreases m.Keys
  {
    var j := PickRemote(m);
    if j != k {
      var mj, mk := m - {j}, m - {k};
      AllConnsRemove(mj, k);
      AllConnsRemove(mk, j);
      assert mj - {k} == mk - {j};
    }
  }

  /** A connection is a fan-out target iff some remote id lists it. */
  lemma {:induction false} AllConnsMembership(m: map<string, seq<ConnId>>, c: ConnId)
    ensures c in AllConns(m) <==> exists k :: k in m && c in m[k]
    decreases m.Keys
  {
    if m != map[] {
      var k :| k in m;
      AllConnsRemove(m, k);
      AllConnsMembership(m - {k}, c);
      if c in AllConns(m - {k}) {
        var k' :| k' in m - {k} && c in (m - {k})[k'];
        assert k' in m && c in m[k'];
      }
      if exists k' :: k' in m && c in m[k'] {
        var k' :| k' in m && c in m[k'];
        if k' != k {
          assert k' in m - {k} && c in (m - {k})[k'];
        }
      }
    }
  }

  /** A bound on every listed connection bounds every connection `AllConns` collects. */
  lemma AllConnsBelow(m: map<string, seq<ConnId>>, n: nat)
    requires ConnIdsBelow(m, n)
    ensures forall c :: c in AllConns(m) ==> c < n
  {
    forall c | c in AllConns(m)
      ensures c < n
    {
      AllConnsMembership(m, c);
      var k :| k in m && c in m[k];
      var j :| 0 <= j < |m[k]| && m[k][j] == c;
    }
  }

  /** Listing one more connection adds exactly that connection to the fan-out. */
  lemma {:induction false} AllConnsWithConnection(m: map<string, seq<ConnId>>, remote: string, c: ConnId)
    ensures AllConns(WithConnection(m, remote, c)) == AllConns(m) + multiset{c}
  {
    var r := WithConnection(m, remote, c);
    AllConnsRemove(r, remote);
    assert r - {remote} == m - {remote};
    if remote in m {
      AllConnsRemove(m, remote);
      assert multiset(m[remote] + [c]) == multiset(m[remote]) + multiset{c};
    } else {
      assert m - {remote} == m;
    }
  }

  /**
   * The order in which the send loop visits the connections: every
   * connection listed under every remote id, each as often as it is listed.
   */
  method FanOutOrder(connections: map<string, seq<ConnId>>) returns (order: seq<ConnId>)
    ensures multiset(order) == AllConns(connections)
  {
    order := [];
    var rest := connections;
    while rest != map[]
      invariant multiset(order) + AllConns(rest) == AllConns(connections)
      decreases rest.Keys
    {
      var hash :| hash in rest;
      var list := rest[hash];
      ghost var before := order;
      var j := 0;
      while j < |list|
        invariant 0 <= j <= |list|
        invariant order == before + list[..j]
      {
        order := order + [list[j]];
        j := j + 1;
      }
      assert list[..j] == list;
      AllConnsRemove(rest, hash);
      rest := rest - {hash};
    }
  }

  /** The connections a sequence of sends went to, in order. */
  function ConnsOf<D>(ds: seq<Delivery<D>>): (cs: seq<ConnId>)
    ensures |cs| == |ds|
    ensures forall i :: 0 <= i < |ds| ==> cs[i] == ds[i].conn
  {
    seq(|ds|, i requires 0 <= i < |ds| => ds[i].conn)
  }

  /** The connections a sequence of sends went to, with multiplicity. */
  ghost function Recipients<D>(ds: seq<Delivery<D>>): multiset<ConnId>
  {
    multiset(ConnsOf(ds))
  }

  /** `ds` sends `m` and nothing else, exactly to `targets`. */
  ghost predicate Delivers<D>(ds: seq<Delivery<D>>, m: Message<D>, targets: multiset<ConnId>)
  {
    && Recipients(ds) == targets
    && forall i :: 0 <= i < |ds| ==> ds[i].message == m
  }

  /** `after` is `before` plus one `SendMessage(m)` call that reached exactly `targets`. */
  ghost predicate SendRecorded<D>(before: Outbox<D>, after: Outbox<D>, m: Message<D>, targets: multiset<ConnId>)
  {
    && |before.sent| <= |after.sent|
    && after.sent[..|before.sent|] == before.sent
    && Delivers(after.sent[|before.sent|..], m, targets)
    && after == before.(sendCalls := before.sendCalls + [m], sent := after.sent)
  }

  /** A send with no targets leaves the per-connection log as it was. */
  lemma NoTargetsNoSends<D>(before: Outbox<D>, after: Outbox<D>, m: Message<D>)
    requires SendRecorded(before, after, m, multiset{})
    ensures after.sent == before.sent
  {
    var cs := ConnsOf(after.sent[|before.sent|..]);
    assert |multiset(cs)| == |cs|;
    assert after.sent == after.sent[..|before.sent|] + after.sent[|before.sent|..];
  }

  class NetworkService<D> {
    var store: NetworkState
    var peers: seq<Peer>
    var conns: seq<DataConnection>
    var peerInstance: Option<nat>
    var connInstance: Option<nat>
    var pendingReconnects: seq<string>
    ghost var log: Outbox<D>

    /**
     * The current peer and connection are objects of the arenas, and every
     * connection a peer lists is an object of the connection arena.
     */
    ghost predicate Valid()
      reads this
    {
      && (peerInstance.Some? ==> peerInstance.value < |peers|)
      && (connInstance.Some? ==> connInstance.value < |conns|)
      && (forall q :: 0 <= q < |peers| ==> ConnIdsBelow(peers[q].connections, |conns|))
    }

    ghost function Session(): SessionState
      reads this
    {
      SessionState(store, peers, conns, peerInstance, connInstance, pendingReconnects)
    }

    /** The connections `SendMessage` would send to now, all objects of the arena. */
    ghost function FanOutTargets(): (r: multiset<ConnId>)
      reads this
      requires Valid()
      ensures forall c :: c in r ==> c < |conns|
    {
      if peerInstance.None? || peers[peerInstance.value].disconnected then multiset{}
      else
        AllConnsBelow(peers[peerInstance.value].connections, |conns|);
        AllConns(peers[peerInstance.value].connections)
    }

    constructor(initial: NetworkState)
      ensures Valid()
      ensures Session() == SessionState(initial, [], [], None, None, [])
      ensures log == Outbox([], [], [], [], 0, [])
    {
      store := initial;
      peers, conns := [], [];
      peerInstance, connInstance := None, None;
      pendingReconnects := [];
      log := Outbox([], [], [], [], 0, []);
    }

    /** `getPeerId`: the id of the current peer, if there is one. */
    function GetPeerId(): (id: Option<string>)
      reads this
      requires Valid()
      ensures id.Some? <==> peerInstance.Some?
      ensures id.Some? ==> id.value == peers[peerInstance.value].id
    {
      if peerInstance.Some? then Some(peers[peerInstance.value].id) else None
    }

    method UpdateNetworkStatus(status: ConnectionState)
      requires Valid()
      modifies this
      ensures Valid()
      ensures Session() == old(Session()).(store := old(store).(peerConnectionState := status))
      ensures log == old(log).(storeUpdates := old(log.storeUpdates) + [SetStatus(status)])
    {
      store := store.(peerConnectionState := status);
      log := log.(storeUpdates := log.storeUpdates + [SetStatus(status)]);
    }

    /**
     * Nothing is sent when the current peer reports itself disconnected or
     * when there is no peer; otherwise the message goes once to every
     * connection listed under every remote id, and to nothing else.
     */
    method SendMessage(message: Message<D>)
      requires Valid()
      modifies this
      ensures Valid()
      ensures Session() == old(Session())
      ensures SendRecorded(old(log), log, message, old(FanOutTargets()))
    {
      var sentTo: seq<ConnId> := [];  // the connections sent to, in order
      if !(peerInstance.Some? && peers[peerInstance.value].disconnected) {
        sentTo := FanOutOrder(if peerInstance.Some? then peers[peerInstance.value].connections else map[]);
      }
      ghost var out := seq(|sentTo|, i requires 0 <= i < |sentTo| => Delivery(sentTo[i], message));
      assert ConnsOf(out) == sentTo;
      log := log.(sendCalls := log.sendCalls + [message], sent := log.sent + out);
      assert log.sent[|old(log.sent)|..] == out;
    }

    /**
     * The client's recovery: status `Disconnected`, close and forget the
     * client connection, destroy and forget the peer, and schedule one
     * `InitClient(hostId)` for later.
     */
    method ResetClient(hostId: string)
      requires Valid()
      modifies this
      ensures Valid()
      ensures Session() == old(Session()).(
                store := old(store).(peerConnectionState := Disconnected),
                conns := CloseAt(old(conns), old(connInstance)),
                peers := DestroyAt(old(peers), old(peerInstance)),
                connInstance := None,
                peerInstance := None,
                pendingReconnects := old(pendingReconnects) + [hostId])
      ensures log == old(log).(storeUpdates := old(log.storeUpdates) + [SetStatus(Disconnected)])
    {
      UpdateNetworkStatus(Disconnected);
      conns := CloseAt(conns, connInstance);
      connInstance := None;
      peers := DestroyAt(peers, peerInstance);
      peerInstance := None;
      pendingReconnects := pendingReconnects + [hostId];
    }

    /**
     * Status `Disconnected`; the current peer is destroyed only if it exists
     * and is not destroyed yet. The fields and any pending reconnect stay.
     */
    method Stop()
      requires Valid()
      modifies this
      ensures Valid()
      ensures Session() == old(Session()).(
                store := old(store).(peerConnectionState := Disconnected),
                peers := if old(peerInstance).Some? && !old(peers[peerInstance.value].destroyed)
                         then DestroyAt(old(peers), old(peerInstance))
                         else old(peers))
      ensures log == old(log).(storeUpdates := old(log.storeUpdates) + [SetStatus(Disconnected)])
    {
      UpdateNetworkStatus(Disconnected);
      if peerInstance.Some? && !peers[peerInstance.value].destroyed {
        peers := DestroyAt(peers, peerInstance);
      }
    }

    /** `new Peer(id, options)` with the options the stored mode selects. */
    method StartPeer(id: string) returns (p: nat)
      requires Valid()
      modifies this
      ensures Valid()
      ensures p == |old(peers)|
      ensures Session() == old(Session()).(peers := old(peers) + [NewPeer(id, PeerOptionsFor(old(store.networkMode)))])
      ensures log == old(log)
    {
      var mode := store.networkMode;
      p := |peers|;
      peers := peers + [NewPeer(id, PeerOptionsFor(mode))];
    }

    method SetClientNetworkMode(isLocal: bool := false)
      requires Valid()
      modifies this
      ensures Valid()
      ensures Session() == old(Session()).(store := old(store).(networkMode := ModeFor(isLocal)))
      ensures log == old(log).(storeUpdates := old(log.storeUpdates) + [SetMode(ModeFor(isLocal))])
    {
      store := store.(networkMode := ModeFor(isLocal));
      log := log.(storeUpdates := log.storeUpdates + [SetMode(ModeFor(isLocal))]);
    }

    /**
     * Status `Connecting` and a new current peer under `freshId` (the
     * `uuid()`), with the client's open, disconnected and error listeners.
     * The previous peer and connection are neither destroyed nor cleared.
     */
    method InitClient(hostId: string, freshId: string)
      requires Valid()
      modifies this
      ensures Valid()
      ensures Session() == old(Session()).(
                store := old(store).(peerConnectionState := Connecting),
                peers := old(peers) + [NewPeer(freshId, PeerOptionsFor(old(store.networkMode))).(listeners := ClientPeer(hostId))],
                peerInstance := Some(|old(peers)|))
      ensures log == old(log).(storeUpdates := old(log.storeUpdates) + [SetStatus(Connecting)])
    {
      UpdateNetworkStatus(Connecting);
      var p := StartPeer(freshId);
      peerInstance := Some(p);
      peers := peers[p := peers[p].(listeners := ClientPeer(hostId))];
    }

    /**
     * Status `Connecting`, then a new current peer under the chosen host id
     * whose open and error events settle the promise `StartHost` awaits.
     */
    method StartHost(freshId: string)
      requires Valid()
      modifies this
      ensures Valid()
      ensures Session() == old(Session()).(
                store := old(store).(peerConnectionState := Connecting),
                peers := old(peers) + [NewPeer(ChooseHostId(old(store.saveHost), old(store.hostID), freshId),
                                               PeerOptionsFor(old(store.networkMode))).(listeners := HostPeer(Pending))],
                peerInstance := Some(|old(peers)|))
      ensures log == old(log).(storeUpdates := old(log.storeUpdates) + [SetStatus(Connecting)])
    {
      UpdateNetworkStatus(Connecting);
      var state := store;
      var hostID := ChooseHostId(state.saveHost, state.hostID, freshId);
      var p := StartPeer(hostID);
      peerInstance := Some(p);
      peers := peers[p := peers[p].(listeners := HostPeer(Pending))];
    }

    method SwitchSaveHost()
      requires Valid()
      modifies this
      ensures Valid()
      ensures Session() == old(Session()).(store := old(store).(saveHost := !old(store.saveHost)))
      ensures log == old(log).(storeUpdates := old(log.storeUpdates) + [SetSaveHost(!old(store.saveHost))])
    {
      store := store.(saveHost := !store.saveHost);
      log := log.(storeUpdates := log.storeUpdates + [SetSaveHost(store.saveHost)]);
    }

    /**
     * The client's open listener: connect from the CURRENT peer (if any) to
     * the host, make that the client connection and register the client's
     * listeners on it.
     */
    method ConnectToHost(hostId: string)
      requires Valid()
      modifies this
      ensures Valid()
      ensures old(peerInstance).None? ==> Session() == old(Session()).(connInstance := None)
      ensures old(peerInstance).Some? ==>
                var q := old(peerInstance).value;
                Session() == old(Session()).(
                  peers := old(peers)[q := old(peers[q]).(connections := WithConnection(old(peers[q].connections), hostId, |old(conns)|))],
                  conns := old(conns) + [OutboundConnection(hostId)],
                  connInstance := Some(|old(conns)|))
      ensures log == old(log)
    {
      if peerInstance.Some? {
        var q := peerInstance.value;
        var c := |conns|;
        conns := conns + [OutboundConnection(hostId)];
        peers := peers[q := peers[q].(connections := WithConnection(peers[q].connections, hostId, c))];
        connInstance := Some(c);
      } else {
        connInstance := None;
      }
    }

    /**
     * The continuation of `StartHost` after its promise resolved: status
     * `Connected`, then the current peer's id (if any) as the stored host id,
     * then a "connection" listener on the current peer.
     */
    method CompleteHostStart()
      requires Valid()
      modifies this
      ensures Valid()
      ensures Session() == old(Session()).(
                store := old(store).(peerConnectionState := Connected, hostID := old(GetPeerId())),
                peers := if old(peerInstance).Some?
                         then old(peers)[old(peerInstance).value := old(peers[peerInstance.value]).(
                                connectionListeners := old(peers[peerInstance.value].connectionListeners) + 1)]
                         else old(peers))
      ensures log == old(log).(storeUpdates := old(log.storeUpdates) + [SetStatus(Connected), SetHostID(old(GetPeerId()))],
                               hostStarts := old(log.hostStarts) + [Started])
    {
      UpdateNetworkStatus(Connected);
      var id := GetPeerId();
      store := store.(hostID := id);
      log := log.(storeUpdates := log.storeUpdates + [SetHostID(id)]);
      if peerInstance.Some? {
        var q := peerInstance.value;
        peers := peers[q := peers[q].(connectionListeners := peers[q].connectionListeners + 1)];
      }
      log := log.(hostStarts := log.hostStarts + [Started]);
    }

    /** The catch branch of `StartHost`: status `Disconnected`, and the call fails. */
    method FailHostStart(reason: string)
      requires Valid()
      modifies this
      ensures Valid()
      ensures Session() == old(Session()).(store := old(store).(peerConnectionState := Disconnected))
      ensures log == old(log).(storeUpdates := old(log.storeUpdates) + [SetStatus(Disconnected)],
                               hostStarts := old(log.hostStarts) + [Failed(reason)])
    {
      UpdateNetworkStatus(Disconnected);
      log := log.(hostStarts := log.hostStarts + [Failed(reason)]);
    }

    // Library callbacks. Each may be delivered by any peer or connection the
    // service ever created; the listeners registered on that object run.

    /** "open" on peer `p`: the client connects to its host, or `StartHost` resumes. */
    method OnPeerOpen(p: nat)
      requires Valid() && p < |peers|
      modifies this
      ensures Valid()
      ensures
        var afterOpen := old(peers)[p := old(peers[p]).(open := true)];
        var session := old(Session()).(peers := afterOpen);
        match old(peers[p].listeners)
        case ClientPeer(hostId) =>
          && log == old(log)
          && (old(peerInstance).None? ==> Session() == session.(connInstance := None))
          && (old(peerInstance).Some? ==>
                var q := old(peerInstance).value;
                Session() == session.(
                  peers := afterOpen[q := afterOpen[q].(connections := WithConnection(afterOpen[q].connections, hostId, |old(conns)|))],
                  conns := old(conns) + [OutboundConnection(hostId)],
                  connInstance := Some(|old(conns)|)))
        case HostPeer(Pending) =>
          var resolved := afterOpen[p := afterOpen[p].(listeners := HostPeer(Resolved))];
          var hostID := if old(peerInstance).Some? then Some(resolved[old(peerInstance).value].id) else None;
          && Session() == session.(
               store := old(store).(peerConnectionState := Connected, hostID := hostID),
               peers := if old(peerInstance).Some?
                        then resolved[old(peerInstance).value := resolved[old(peerInstance).value].(
                               connectionListeners := resolved[old(peerInstance).value].connectionListeners + 1)]
                        else resolved)
          && log == old(log).(storeUpdates := old(log.storeUpdates) + [SetStatus(Connected), SetHostID(hostID)],
                              hostStarts := old(log.hostStarts) + [Started])
        case _ =>
          Session() == session && log == old(log)
    {
      peers := peers[p := peers[p].(open := true)];
      match peers[p].listeners {
        case ClientPeer(hostId) =>
          ConnectToHost(hostId);
        case HostPeer(startup) =>
          if startup == Pending {
            peers := peers[p := peers[p].(listeners := HostPeer(Resolved))];
            CompleteHostStart();
          }
        case NoListeners =>
      }
    }

    /** "error" on peer `p`: the client resets; a pending `StartHost` fails. */
    method OnPeerError(p: nat, reason: string)
      requires Valid() && p < |peers|
      modifies this
      ensures Valid()
      ensures
        match old(peers[p].listeners)
        case ClientPeer(hostId) =>
          && Session() == old(Session()).(
               store := old(store).(peerConnectionState := Disconnected),
               conns := CloseAt(old(conns), old(connInstance)),
               peers := DestroyAt(old(peers), old(peerInstance)),
               connInstance := None,
               peerInstance := None,
               pendingReconnects := old(pendingReconnects) + [hostId])
          && log == old(log).(storeUpdates := old(log.storeUpdates) + [SetStatus(Disconnected)])
        case HostPeer(Pending) =>
          && Session() == old(Session()).(
               store := old(store).(peerConnectionState := Disconnected),
               peers := old(peers)[p := old(peers[p]).(listeners := HostPeer(Rejected))])
          && log == old(log).(storeUpdates := old(log.storeUpdates) + [SetStatus(Disconnected)],
                              hostStarts := old(log.hostStarts) + [Failed(reason)])
        case _ =>
          Session() == old(Session()) && log == old(log)
    {
      match peers[p].listeners {
        case ClientPeer(hostId) =>
          ResetClient(hostId);
        case HostPeer(startup) =>
          if startup == Pending {
            peers := peers[p := peers[p].(listeners := HostPeer(Rejected))];
            FailHostStart(reason);
          }
        case NoListeners =>
      }
    }

    /** "disconnected" on peer `p`: the library flags the peer; the client's listener does nothing. */
    method OnPeerDisconnected(p: nat)
      requires Valid() && p < |peers|
      modifies this
      ensures Valid()
      ensures Session() == old(Session()).(peers := old(peers)[p := old(peers[p]).(disconnected := true)])
      ensures log == old(log)
    {
      peers := peers[p := peers[p].(disconnected := true)];
    }

    /**
     * "connection" on peer `p` from `remote`: the library lists the new
     * connection under `remote`; each "connection" listener of the host
     * registers an "open" listener on it.
     */
    method OnPeerConnection(p: nat, remote: string, reliable: bool)
      requires Valid() && p < |peers|
      modifies this
      ensures Valid()
      ensures Session() == old(Session()).(
                peers := old(peers)[p := old(peers[p]).(connections := WithConnection(old(peers[p].connections), remote, |old(conns)|))],
                conns := old(conns) + [DataConnection(remote, reliable, false, false, None, old(peers[p].connectionListeners), 0)])
      ensures log == old(log)
    {
      var c := |conns|;
      conns := conns + [DataConnection(remote, reliable, false, false, None, peers[p].connectionListeners, 0)];
      peers := peers[p := peers[p].(connections := WithConnection(peers[p].connections, remote, c))];
    }

    /**
     * "open" on connection `c`. On the client's connection: a "data" listener
     * on the CURRENT client connection, then status `Connected`. On a host's
     * inbound connection: one `onClientConnected$` emission per listener.
     */
    method OnConnOpen(c: nat)
      requires Valid() && c < |conns|
      modifies this
      ensures Valid()
      ensures
        var afterOpen := old(conns)[c := old(conns[c]).(open := true)];
        var client := old(conns[c].clientOf).Some?;
        && Session() == old(Session()).(
             conns := if client && old(connInstance).Some?
                      then afterOpen[old(connInstance).value := afterOpen[old(connInstance).value].(
                             dataListeners := afterOpen[old(connInstance).value].dataListeners + 1)]
                      else afterOpen,
             store := if client then old(store).(peerConnectionState := Connected) else old(store))
        && log == old(log).(storeUpdates := old(log.storeUpdates) + (if client then [SetStatus(Connected)] else []),
                            clientConnected := old(log.clientConnected) + old(conns[c].openListeners))
    {
      conns := conns[c := conns[c].(open := true)];
      if conns[c].clientOf.Some? {
        if connInstance.Some? {
          var ci := connInstance.value;
          conns := conns[ci := conns[ci].(dataListeners := conns[ci].dataListeners + 1)];
        }
        UpdateNetworkStatus(Connected);
      }
      log := log.(clientConnected := log.clientConnected + conns[c].openListeners);
    }

    /** "close" on connection `c`: the client's connection resets the client. */
    method OnConnClose(c: nat)
      requires Valid() && c < |conns|
      modifies this
      ensures Valid()
      ensures
        var closed := old(conns)[c := Closed(old(conns[c]))];
        match old(conns[c].clientOf)
        case Some(hostId) =>
          && Session() == old(Session()).(
               store := old(store).(peerConnectionState := Disconnected),
               conns := CloseAt(closed, old(connInstance)),
               peers := DestroyAt(old(peers), old(peerInstance)),
               connInstance := None,
               peerInstance := None,
               pendingReconnects := old(pendingReconnects) + [hostId])
          && log == old(log).(storeUpdates := old(log.storeUpdates) + [SetStatus(Disconnected)])
        case None =>
          Session() == old(Session()).(conns := closed) && log == old(log)
    {
      conns := conns[c := Closed(conns[c])];
      if conns[c].clientOf.Some? {
        ResetClient(conns[c].clientOf.value);
      }
    }

    /** "error" on connection `c`: only logged, so nothing changes and no reset is scheduled. */
    method OnConnError(c: nat, error: string)
      requires Valid() && c < |conns|
      ensures Session() == old(Session()) && log == old(log)
    {
    }

    /** "data" on connection `c`: one `messages$` emission per "data" listener. */
    method OnConnData(c: nat, data: Message<D>)
      requires Valid() && c < |conns|
      modifies this
      ensures Valid()
      ensures Session() == old(Session())
      ensures log == old(log).(messages := old(log.messages) + Repeat(data, old(conns[c].dataListeners)))
    {
      log := log.(messages := log.messages + Repeat(data, conns[c].dataListeners));
    }

    /** The earliest pending reconnect timer fires: `InitClient` with the host id it captured. */
    method OnTimerFire(freshId: string)
      requires Valid() && |pendingReconnects| > 0
      modifies this
      ensures Valid()
      ensures Session() == old(Session()).(
                store := old(store).(peerConnectionState := Connecting),
                peers := old(peers) + [NewPeer(freshId, PeerOptionsFor(old(store.networkMode))).(listeners := ClientPeer(old(pendingReconnects[0])))],
                peerInstance := Some(|old(peers)|),
                pendingReconnects := old(pendingReconnects[1..]))
      ensures log == old(log).(storeUpdates := old(log.storeUpdates) + [SetStatus(Connecting)])
    {
      var hostId := pendingReconnects[0];
      pendingReconnects := pendingReconnects[1..];
      InitClient(hostId, freshId);
    }
  }
}
