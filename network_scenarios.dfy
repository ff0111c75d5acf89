/**
 * Runs of `NetworkService` through several calls and library callbacks,
 * stating what the session manager promises across them.
 */
module NetworkScenarios {
  import opened Options
  import opened PeerNetwork

  /**
   * A client connects, loses its connection and is rebuilt once, after the
   * timer, for the same host. Status is `Connected` only once the outbound
   * connection opens, and data is forwarded only from then on.
   */
  method ClientReconnects(mode: NetworkMode, hostId: string, id1: string, id2: string, data: Message<int>)
    returns (afterPeerOpen: ConnectionState, afterConnOpen: ConnectionState, afterClose: ConnectionState,
             pending: seq<string>, retry: Peer, afterRetry: ConnectionState,
             ghost forwardedBeforeOpen: seq<Message<int>>, ghost forwardedAfterOpen: seq<Message<int>>)
    ensures afterPeerOpen == Connecting
    ensures forwardedBeforeOpen == [] && forwardedAfterOpen == [data]
    ensures afterConnOpen == Connected
    ensures afterClose == Disconnected && pending == [hostId]
    ensures retry.id == id2 && retry.listeners == ClientPeer(hostId) && afterRetry == Connecting
  {
    var net := new NetworkService<int>(NetworkState(Disconnected, mode, None, false));
    net.InitClient(hostId, id1);
    net.OnPeerOpen(0);
    afterPeerOpen := net.store.peerConnectionState;
    assert net.connInstance == Some(0) && net.conns[0].clientOf == Some(hostId);
    net.OnConnData(0, data);
    forwardedBeforeOpen := net.log.messages;
    net.OnConnOpen(0);
    afterConnOpen := net.store.peerConnectionState;
    net.OnConnData(0, data);
    forwardedAfterOpen := net.log.messages;
    net.OnConnClose(0);
    afterClose := net.store.peerConnectionState;
    pending := net.pendingReconnects;
    net.OnTimerFire(id2);
    retry := net.peers[net.peerInstance.value];
    afterRetry := net.store.peerConnectionState;
  }

  /** A connection error and a peer "disconnected" event leave a connected client alone. */
  method ClientIgnoresConnErrorAndDisconnect(hostId: string, id1: string, error: string)
    returns (status: ConnectionState, pending: seq<string>, connKept: bool)
    ensures status == Connected && pending == [] && connKept
  {
    var net := new NetworkService<int>(NetworkState(Disconnected, Network, None, false));
    net.InitClient(hostId, id1);
    net.OnPeerOpen(0);
    net.OnConnOpen(0);
    net.OnConnError(0, error);
    net.OnPeerDisconnected(0);
    status := net.store.peerConnectionState;
    pending := net.pendingReconnects;
    connKept := net.connInstance == Some(0) && net.peerInstance == Some(0);
  }

  /**
   * Start a host, stop it and start it again: with `saveHost` set the second
   * peer reuses the stored id, otherwise it takes the new `uuid()`.
   */
  method HostRestart(saveHost: bool, id1: string, id2: string)
    returns (first: string, second: string, stored: Option<string>)
    ensures first == id1 && stored == Some(id1)
    ensures saveHost && id1 != "" ==> second == id1
    ensures !saveHost || id1 == "" ==> second == id2
  {
    var net := new NetworkService<int>(NetworkState(Disconnected, Network, None, saveHost));
    net.StartHost(id1);
    net.OnPeerOpen(0);
    first := net.peers[0].id;
    stored := net.store.hostID;
    net.Stop();
    net.StartHost(id2);
    second := net.peers[1].id;
  }

  /** A host whose peer errors before opening fails the start and stores no id. */
  method HostStartFails(stored: Option<string>, id1: string, reason: string)
    returns (status: ConnectionState, hostID: Option<string>, ghost starts: seq<HostStart>)
    ensures status == Disconnected && hostID == stored
    ensures starts == [Failed(reason)]
  {
    var net := new NetworkService<int>(NetworkState(Disconnected, Network, stored, true));
    net.StartHost(id1);
    net.OnPeerError(0, reason);
    assert net.log.hostStarts == [Failed(reason)];
    net.OnPeerOpen(0);
    status := net.store.peerConnectionState;
    hostID := net.store.hostID;
    starts := net.log.hostStarts;
  }

  /** A host whose peer is open and to which clients `a` and `b` have connected. */
  method HostWithTwoClients(id1: string, a: string, b: string)
    returns (net: NetworkService<int>, ghost host: Peer)
    ensures fresh(net) && net.Valid() && net.store.peerConnectionState == Connected
    ensures net.peerInstance == Some(0) && !host.disconnected
    ensures net.peers == [host.(connections := WithConnection(WithConnection(map[], a, 0), b, 1))]
    ensures net.conns == [DataConnection(a, true, false, false, None, 1, 0), DataConnection(b, true, false, false, None, 1, 0)]
    ensures net.log.clientConnected == 0
  {
    net := new NetworkService<int>(NetworkState(Disconnected, Network, None, false));
    net.StartHost(id1);
    net.OnPeerOpen(0);
    host := net.peers[0];
    assert host.connectionListeners == 1 && host.connections == map[] && !host.disconnected;
    assert net.store.peerConnectionState == Connected && net.peerInstance == Some(0);
    net.OnPeerConnection(0, a, true);
    net.OnPeerConnection(0, b, true);
  }

  /**
   * A host with two joined clients keeps status `Connected` when one
   * connection closes, and a later send still reaches both: the service's
   * own code never removes a connection from the peer's map (PeerJS's own
   * removal on close is outside this model). The two clients may
   * share a remote id, as a client reconnecting under its old id does.
   */
  method HostKeepsClosedConnections(id1: string, a: string, b: string, m: Message<int>)
    returns (status: ConnectionState, ghost joined: nat, ghost reached: multiset<ConnId>)
    ensures status == Connected && joined == 2
    ensures reached == multiset{0, 1}
  {
    var net, host := HostWithTwoClients(id1, a, b);
    var peers := net.peers;
    net.OnConnOpen(0);
    net.OnConnOpen(1);
    assert net.log.clientConnected == 2;
    net.OnConnClose(0);
    assert net.peers == peers;
    status := net.store.peerConnectionState;
    joined := net.log.clientConnected;
    AllConnsWithConnection(map[], a, 0);
    AllConnsWithConnection(WithConnection(map[], a, 0), b, 1);
    assert net.FanOutTargets() == multiset{0, 1};
    label before:
    net.SendMessage(m);
    reached := Recipients(net.log.sent[|old@before(net.log.sent)|..]);
  }

  /** Stopping twice destroys the peer once; the second call only re-sets the status. */
  method StopTwice(net: NetworkService<int>)
    requires net.Valid()
    modifies net
    ensures net.Valid()
    ensures net.Session() == old(net.Session()).(
              store := old(net.store).(peerConnectionState := Disconnected),
              peers := if old(net.peerInstance).Some? && !old(net.peers[net.peerInstance.value].destroyed)
                       then DestroyAt(old(net.peers), old(net.peerInstance))
                       else old(net.peers))
  {
    net.Stop();
    net.Stop();
  }

  /** Toggling `saveHost` twice restores it. */
  method SwitchSaveHostTwice(net: NetworkService<int>)
    requires net.Valid()
    modifies net
    ensures net.Valid() && net.Session() == old(net.Session())
  {
    net.SwitchSaveHost();
    net.SwitchSaveHost();
  }

  /** Once its peer is disconnected a session sends nothing. */
  method NoSendWhenDisconnected(net: NetworkService<int>, m: Message<int>)
    requires net.Valid() && net.peerInstance.Some?
    modifies net
    ensures net.log.sent == old(net.log.sent)
  {
    net.OnPeerDisconnected(net.peerInstance.value);
    label before:
    net.SendMessage(m);
    NoTargetsNoSends(old@before(net.log), net.log, m);
  }
}
