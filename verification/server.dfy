/**
 The per-packet decision logic of the DHT server. Each handler is a pure
 function from the server state, the packet and its source address to a
 `Step`: the new state, the datagrams to send and whether the handler
 reported an error. Randomness (nonces, ping ids, draws, fresh keys) and the
 clock (`now`, in seconds) are parameters.
 */
module DhtServer {
  import opened Basics
  import opened Crypto
  import opened Net
  import opened Packets
  import opened DhtNodes
  import opened Utils

  /** Number of NodesRequests sent to random close nodes before the 20-second pacing applies. */
  const MAX_BOOTSTRAP_TIMES: nat := 5
  /** Seconds between NodesRequests to a random close node. */
  const NODES_REQ_INTERVAL: nat := 20
  /** Seconds after which the onion return key is replaced. */
  const ONION_REFRESH_KEY_INTERVAL: nat := 7200

  datatype HolePunch = HolePunch(pingId: u64, lastRecvPingTime: nat, isPunchingDone: bool)

  datatype DhtFriend = DhtFriend(pk: PublicKey, holePunch: HolePunch)

  /**
   The server state. `pendingPings` stands for the request queue: the
   (public key, ping id) pairs sent and not yet answered.
   */
  datatype Server = Server(
    sk: SecretKey,
    pk: PublicKey,
    closeNodes: seq<DhtNode>,
    pendingPings: set<(PublicKey, u64)>,
    friends: seq<DhtFriend>,
    onionKey: SymKey,
    onionKeyTime: nat,
    bootstrapTimes: nat,
    lastNodesReqTime: nat,
    hasTcpOnionSink: bool,
    lanDiscoveryEnabled: bool,
    isIpv6Mode: bool)

  datatype Error =
    | DecryptionFailed
    | Ipv6InIpv4Mode
    | OwnPublicKey
    | ZeroPingId
    | PingIdMismatch
    | NodeNotFound
    | FriendNotFound
    | NatPingMismatch
    | MissingNextReturn
    | UnexpectedNextReturn
    | NoTcpRelay

  /** A datagram for the UDP socket, or an onion response handed to the TCP relay. */
  datatype Outgoing = Udp(packet: DhtPacket, addr: SocketAddr) | Tcp(response: InnerOnionResponse, addr: SocketAddr)

  datatype Status = Done | Failed(error: Error)

  datatype Step = Step(server: Server, sent: seq<Outgoing>, status: Status)

  /** `Instant::elapsed`, which never goes below zero. */
  function Elapsed(now: nat, since: nat): nat {
    if now >= since then now - since else 0
  }

  /** Whether `send_to` accepts `addr`: an IPv4-mode node cannot reach IPv6 addresses. */
  predicate Routable(ipv6Mode: bool, addr: SocketAddr) {
    ipv6Mode || addr.ip.V4?
  }

  /** The address `send_to` actually uses for `addr`. */
  function Delivered(ipv6Mode: bool, addr: SocketAddr): (d: SocketAddr)
    ensures d.port == addr.port
    ensures Canonical(d.ip) == Canonical(addr.ip)
    ensures ipv6Mode ==> d.ip.V6?
    ensures addr.ip.V6? || !ipv6Mode ==> d == addr
  {
    match addr.ip
    case V4(a) => if ipv6Mode then SocketAddr(V6(ToIpv6Mapped(a)), addr.port) else addr
    case V6(_) => addr
  }

  /**
   `send_to`: in IPv6 mode an IPv4 destination is rewritten to its IPv4-mapped
   form; in IPv4 mode an IPv6 destination is an error.
   */
  function SendTo(ipv6Mode: bool, addr: SocketAddr, packet: DhtPacket): (r: Result<Outgoing, Error>)
    ensures r.Err? <==> !Routable(ipv6Mode, addr)
    ensures r.Err? ==> r.error == Ipv6InIpv4Mode
    ensures r.Ok? ==> r.value.Udp? && r.value.packet == packet
    ensures r.Ok? ==> r.value.addr.port == addr.port && Canonical(r.value.addr.ip) == Canonical(addr.ip)
    ensures r.Ok? && ipv6Mode ==> r.value.addr.ip.V6?
    ensures r.Ok? && !ipv6Mode ==> r.value.addr == addr
  {
    if !Routable(ipv6Mode, addr) then Err(Ipv6InIpv4Mode)
    else Ok(Udp(packet, Delivered(ipv6Mode, addr)))
  }

  /** The step that sends what `r` produced, keeping state `s`. */
  function Emit(s: Server, r: Result<Outgoing, Error>): Step {
    match r
    case Ok(o) => Step(s, [o], Done)
    case Err(e) => Step(s, [], Failed(e))
  }

  /** `r` forwards `packet` to `dest` without touching the state, or fails to route and sends nothing. */
  predicate Forwarded(s: Server, r: Step, dest: SocketAddr, packet: DhtPacket) {
    && r.server == s
    && if Routable(s.isIpv6Mode, dest) then r.status == Done && r.sent == [Udp(packet, Delivered(s.isIpv6Mode, dest))]
       else r.status == Failed(Ipv6InIpv4Mode) && r.sent == []
  }

  /** Only these steps send anything, and only successful ones do. */
  predicate Quiet(r: Step) {
    r.status.Failed? ==> r.sent == []
  }

  // ----- NodesRequest -----

  /**
   `send_nodes_req`: a NodesRequest asking `target` for nodes close to
   `searchPk`. Refuses our own key.
   */
  function SendNodesReq(s: Server, target: PackedNode, searchPk: PublicKey, pingId: u64, nonce: Nonce): (r: Result<Outgoing, Error>)
    ensures target.pk == s.pk ==> r == Err(OwnPublicKey)
    ensures target.pk != s.pk ==> (r.Ok? <==> Routable(s.isIpv6Mode, target.saddr))
    ensures r.Ok? ==> r.value.Udp? && r.value.addr == Delivered(s.isIpv6Mode, target.saddr)
    ensures r.Ok? ==> r.value.packet.NodesRequestPacket? && r.value.packet.nodesRequest.pk == s.pk
    ensures r.Ok? ==> r.value.packet.nodesRequest.nonce == nonce
    ensures r.Ok? && s.pk == PublicKeyOf(s.sk) ==>
      forall tsk :: PublicKeyOf(tsk) == target.pk ==>
        Open(Precompute(s.pk, tsk), nonce, r.value.packet.nodesRequest.payload) == Some(NodesRequestPayload(searchPk, pingId))
  {
    if s.pk == target.pk then Err(OwnPublicKey)
    else
      var payload := Seal(Precompute(target.pk, s.sk), nonce, NodesRequestPayload(searchPk, pingId));
      SendTo(s.isIpv6Mode, target.saddr, NodesRequestPacket(NodesRequest(s.pk, nonce, payload)))
  }

  /** The close-list entries that are not bad, in close-list order. */
  function GoodNodes(nodes: seq<DhtNode>, isBad: DhtNode -> bool): (good: seq<DhtNode>)
    ensures |good| <= |nodes|
    ensures forall n :: n in good <==> n in nodes && !isBad(n)
    ensures forall n :: multiset(good)[n] == if isBad(n) then 0 else multiset(nodes)[n]
    ensures (forall k :: 0 <= k < |nodes| ==> !isBad(nodes[k])) ==> good == nodes
  {
    if |nodes| == 0 then []
    else
      assert nodes == [nodes[0]] + nodes[1..];
      assert multiset(nodes) == multiset{nodes[0]} + multiset(nodes[1..]);
      if isBad(nodes[0]) then GoodNodes(nodes[1..], isBad)
      else [nodes[0]] + GoodNodes(nodes[1..], isBad)
  }

  /**
   Filtering distributes over concatenation: the good nodes of the front of
   the close list come first, so the filter keeps close-list order.
   */
  lemma {:induction false} GoodNodesConcat(a: seq<DhtNode>, b: seq<DhtNode>, isBad: DhtNode -> bool)
    ensures GoodNodes(a + b, isBad) == GoodNodes(a, isBad) + GoodNodes(b, isBad)
  {
    if |a| == 0 {
      assert a + b == b;
    } else {
      assert (a + b)[1..] == a[1..] + b;
      GoodNodesConcat(a[1..], b, isBad);
    }
  }

  /**
   The index choice of `send_nodes_req_random`: a first draw modulo the number
   of good nodes, then lowered by a second draw to favour closer nodes.
   */
  function BiasedIndex(len: nat, r1: u32, r2: u32): (i: nat)
    requires len > 0
    ensures i < len
    ensures i <= r1 % len
  {
    var first := r1 % len;
    if first != 0 then first - r2 % (first + 1) else first
  }

  /** Every index up to the first draw is reachable with some second draw. */
  lemma BiasedIndexReaches(len: nat, r1: u32, j: nat)
    requires len > 0 && j <= r1 % len
    ensures exists r2: u32 :: BiasedIndex(len, r1, r2) == j
  {
    var first := r1 % len;
    var r2: u32 := first - j;
    ModOfSmaller(r2, first + 1);
    assert BiasedIndex(len, r1, r2) == j;
  }

  /** The pacing rule: no random NodesRequest while recent and bootstrapping is over. */
  predicate NodesReqIdle(s: Server, now: nat) {
    Elapsed(now, s.lastNodesReqTime) < NODES_REQ_INTERVAL && s.bootstrapTimes >= MAX_BOOTSTRAP_TIMES
  }

  /** `r` is the step that sends a NodesRequest to `node` and records the attempt at time `now`. */
  predicate RequestedFrom(s: Server, r: Step, node: DhtNode, now: nat, pingId: u64, nonce: Nonce) {
    && r.server == s.(pendingPings := s.pendingPings + {(node.pk, pingId)},
                      bootstrapTimes := s.bootstrapTimes + 1,
                      lastNodesReqTime := now)
    && Step(s, r.sent, r.status) == Emit(s, SendNodesReq(s, ToPacked(node), s.pk, pingId, nonce))
  }

  /** `send_nodes_req_random`, called once a second. */
  function SendNodesReqRandom(s: Server, now: nat, isBad: DhtNode -> bool, r1: u32, r2: u32, pingId: u64, nonce: Nonce): (r: Step)
    ensures Quiet(r) && |r.sent| <= 1
    ensures NodesReqIdle(s, now) || |GoodNodes(s.closeNodes, isBad)| == 0 ==> r == Step(s, [], Done)
    ensures r.server.bootstrapTimes == s.bootstrapTimes + 1 <==> !NodesReqIdle(s, now) && |GoodNodes(s.closeNodes, isBad)| > 0
    ensures !NodesReqIdle(s, now) && |GoodNodes(s.closeNodes, isBad)| > 0 ==>
      var good := GoodNodes(s.closeNodes, isBad);
      RequestedFrom(s, r, good[BiasedIndex(|good|, r1, r2)], now, pingId, nonce)
    ensures !NodesReqIdle(s, now) && |GoodNodes(s.closeNodes, isBad)| > 0 ==>
      var good := GoodNodes(s.closeNodes, isBad);
      exists i :: 0 <= i <= r1 % |good| && i < |good| && RequestedFrom(s, r, good[i], now, pingId, nonce)
  {
    if NodesReqIdle(s, now) then Step(s, [], Done)
    else
      var good := GoodNodes(s.closeNodes, isBad);
      if |good| == 0 then Step(s, [], Done)
      else
        var i := BiasedIndex(|good|, r1, r2);
        var target := good[i];
        var s' := s.(pendingPings := s.pendingPings + {(target.pk, pingId)},
                     bootstrapTimes := s.bootstrapTimes + 1,
                     lastNodesReqTime := now);
        var sent := Emit(s, SendNodesReq(s, ToPacked(target), s.pk, pingId, nonce));
        assert RequestedFrom(s, Step(s', sent.sent, sent.status), good[i], now, pingId, nonce);
        Step(s', sent.sent, sent.status)
  }

  /**
   Every good node no later in the list than the first draw's index is the
   one asked for some second draw.
   */
  lemma SendNodesReqRandomReaches(s: Server, now: nat, isBad: DhtNode -> bool, r1: u32, pingId: u64, nonce: Nonce, j: nat)
    ensures !NodesReqIdle(s, now) && |GoodNodes(s.closeNodes, isBad)| > 0 && j <= r1 % |GoodNodes(s.closeNodes, isBad)| ==>
      exists r2: u32 ::
        RequestedFrom(s, SendNodesReqRandom(s, now, isBad, r1, r2, pingId, nonce), GoodNodes(s.closeNodes, isBad)[j], now, pingId, nonce)
  {
    var good := GoodNodes(s.closeNodes, isBad);
    if !NodesReqIdle(s, now) && |good| > 0 && j <= r1 % |good| {
      BiasedIndexReaches(|good|, r1, j);
      var r2: u32 :| BiasedIndex(|good|, r1, r2) == j;
      assert RequestedFrom(s, SendNodesReqRandom(s, now, isBad, r1, r2, pingId, nonce), good[j], now, pingId, nonce);
    }
  }

  // ----- PingResponse -----

  /** The close list with only entry `i` changed: the response time of `addr`'s family set to `now`. */
  predicate RespTimeUpdated(before: seq<DhtNode>, after: seq<DhtNode>, i: nat, addr: SocketAddr, now: nat) {
    && |after| == |before| && i < |before|
    && (forall j :: 0 <= j < |before| && j != i ==> after[j] == before[j])
    && if addr.ip.V4? then after[i] == before[i].(lastRespTimeV4 := now)
       else after[i] == before[i].(lastRespTimeV6 := now)
  }

  /**
   `handle_ping_resp`: a response with a decryptable, non-zero id that the
   request queue accepts refreshes the sender's close-list entry.
   */
  function HandlePingResp(s: Server, packet: PingResponse, addr: SocketAddr, now: nat): (r: Step)
    ensures r.sent == []
    ensures r.server.(closeNodes := s.closeNodes, pendingPings := s.pendingPings) == s
    ensures var d := Open(Precompute(packet.pk, s.sk), packet.nonce, packet.payload);
      && (d.None? ==> r == Step(s, [], Failed(DecryptionFailed)))
      && (d.Some? && d.value.id == 0 ==> r == Step(s, [], Failed(ZeroPingId)))
      && (d.Some? && d.value.id != 0 && (packet.pk, d.value.id) !in s.pendingPings ==> r == Step(s, [], Failed(PingIdMismatch)))
      && (d.Some? && d.value.id != 0 && (packet.pk, d.value.id) in s.pendingPings ==>
            && r.server.pendingPings == s.pendingPings - {(packet.pk, d.value.id)}
            && (r.status.Done? <==> exists j :: 0 <= j < |s.closeNodes| && s.closeNodes[j].pk == packet.pk)
            && (r.status.Failed? ==> r.status.error == NodeNotFound && r.server.closeNodes == s.closeNodes))
    ensures r.status.Done? ==>
      var i := FindByKey(s.closeNodes, NodePk, packet.pk);
      i.Some? && RespTimeUpdated(s.closeNodes, r.server.closeNodes, i.value, addr, now)
  {
    match Open(Precompute(packet.pk, s.sk), packet.nonce, packet.payload)
    case None => Step(s, [], Failed(DecryptionFailed))
    case Some(payload) =>
      if payload.id == 0 then Step(s, [], Failed(ZeroPingId))
      else if (packet.pk, payload.id) !in s.pendingPings then Step(s, [], Failed(PingIdMismatch))
      else
        var s1 := s.(pendingPings := s.pendingPings - {(packet.pk, payload.id)});
        match FindByKey(s.closeNodes, NodePk, packet.pk)
        case None => Step(s1, [], Failed(NodeNotFound))
        case Some(i) =>
          var node := s.closeNodes[i];
          var node' := if addr.ip.V4? then node.(lastRespTimeV4 := now) else node.(lastRespTimeV6 := now);
          Step(s1.(closeNodes := s.closeNodes[i := node']), [], Done)
  }

  /**
   The request queue resolves a ping id once: after a response got past the
   id check, the same response is refused as a mismatch.
   */
  lemma PingRespResolvesOnce(s: Server, packet: PingResponse, addr: SocketAddr, now: nat, addr': SocketAddr, now': nat)
    requires var r := HandlePingResp(s, packet, addr, now); r.status == Done || r.status == Failed(NodeNotFound)
    ensures HandlePingResp(HandlePingResp(s, packet, addr, now).server, packet, addr', now').status == Failed(PingIdMismatch)
  {
    var r := HandlePingResp(s, packet, addr, now);
    var d := Open(Precompute(packet.pk, s.sk), packet.nonce, packet.payload);
    assert d.Some? && d.value.id != 0 && (packet.pk, d.value.id) in s.pendingPings;
    assert r.server.sk == s.sk;
    assert (packet.pk, d.value.id) !in r.server.pendingPings;
  }

  // ----- DhtRequest -----

  /** The key of a friend entry. */
  function FriendPk(friend: DhtFriend): PublicKey {
    friend.pk
  }

  /** `handle_nat_ping_req`: echo the id in a NatPingResponse addressed to the sender. */
  function HandleNatPingReq(s: Server, id: u64, spk: PublicKey, addr: SocketAddr, nonce: Nonce): (r: Step)
    ensures r.server == s && Quiet(r)
    ensures r.status.Done? <==> Routable(s.isIpv6Mode, addr)
    ensures r.status.Done? ==>
      && |r.sent| == 1 && r.sent[0].Udp? && r.sent[0].addr == Delivered(s.isIpv6Mode, addr)
      && r.sent[0].packet.DhtRequestPacket?
      && var reply := r.sent[0].packet.dhtRequest;
      && reply.rpk == spk && reply.spk == s.pk && reply.nonce == nonce
      && (s.pk == PublicKeyOf(s.sk) ==> forall fsk :: PublicKeyOf(fsk) == spk ==>
            Open(Precompute(s.pk, fsk), nonce, reply.payload) == Some(NatPingResponse(id)))
  {
    var payload := Seal(Precompute(spk, s.sk), nonce, NatPingResponse(id));
    Emit(s, SendTo(s.isIpv6Mode, addr, DhtRequestPacket(DhtRequest(spk, s.pk, nonce, payload))))
  }

  /**
   `handle_nat_ping_resp`: the friend with key `spk` gets hole punching
   re-enabled when `id` is its outstanding NAT ping id and the last ping was
   received less than `interval` seconds ago.
   */
  function HandleNatPingResp(s: Server, id: u64, spk: PublicKey, now: nat, interval: nat): (r: Step)
    ensures r.sent == []
    ensures r.server.(friends := s.friends) == s
    ensures r.status.Failed? ==> r.server == s
    ensures FindByKey(s.friends, FriendPk, spk).None? ==> r.status == Failed(FriendNotFound)
    ensures FindByKey(s.friends, FriendPk, spk).Some? && id == 0 ==> r.status == Failed(ZeroPingId)
    ensures r.status.Done? <==>
      var i := FindByKey(s.friends, FriendPk, spk);
      && i.Some? && id != 0
      && s.friends[i.value].holePunch.pingId == id
      && Elapsed(now, s.friends[i.value].holePunch.lastRecvPingTime) < interval
    ensures r.status.Done? ==>
      var i := FindByKey(s.friends, FriendPk, spk).value;
      && |r.server.friends| == |s.friends|
      && (forall j :: 0 <= j < |s.friends| && j != i ==> r.server.friends[j] == s.friends[j])
      && r.server.friends[i] == s.friends[i].(holePunch := s.friends[i].holePunch.(isPunchingDone := false))
  {
    match FindByKey(s.friends, FriendPk, spk)
    case None => Step(s, [], Failed(FriendNotFound))
    case Some(i) =>
      if id == 0 then Step(s, [], Failed(ZeroPingId))
      else
        var hp := s.friends[i].holePunch;
        if Elapsed(now, hp.lastRecvPingTime) < interval && hp.pingId == id then
          var friend := s.friends[i].(holePunch := hp.(isPunchingDone := false));
          Step(s.(friends := s.friends[i := friend]), [], Done)
        else Step(s, [], Failed(NatPingMismatch))
  }

  /**
   `handle_dht_req`: a request for us is decrypted and handled here; one for a
   close node with a usable address is passed on unchanged; any other is
   dropped without error. `socketAddr` is `get_socket_addr` in the server's
   IP mode; `punchInterval` is the NAT ping punching interval.
   */
  function HandleDhtReq(s: Server, packet: DhtRequest, addr: SocketAddr, socketAddr: DhtNode -> Option<SocketAddr>,
                        now: nat, punchInterval: nat, nonce: Nonce): (r: Step)
    ensures Quiet(r) && |r.sent| <= 1
    ensures packet.rpk == s.pk ==> r.server.(friends := s.friends) == s
    ensures packet.rpk == s.pk ==>
      var d := Open(Precompute(packet.spk, s.sk), packet.nonce, packet.payload);
      && (d.None? ==> r == Step(s, [], Failed(DecryptionFailed)))
      && (d.Some? && d.value.NatPingRequest? ==> r == HandleNatPingReq(s, d.value.id, packet.spk, addr, nonce))
      && (d.Some? && d.value.NatPingResponse? ==> r == HandleNatPingResp(s, d.value.id, packet.spk, now, punchInterval))
      && (d.Some? && d.value.DhtPkAnnounce? ==> r == Step(s, [], Done))
    ensures packet.rpk == s.pk ==> forall o :: o in r.sent ==>
      o.Udp? && o.packet.DhtRequestPacket? && o.packet.dhtRequest.rpk == packet.spk && o.addr == Delivered(s.isIpv6Mode, addr)
    ensures packet.rpk != s.pk ==> r.server == s
    ensures packet.rpk != s.pk ==>
      var i := FindByKey(s.closeNodes, NodePk, packet.rpk);
      && (i.None? || socketAddr(s.closeNodes[i.value]).None? ==> r == Step(s, [], Done))
      && (i.Some? && socketAddr(s.closeNodes[i.value]).Some? ==>
            Forwarded(s, r, socketAddr(s.closeNodes[i.value]).value, DhtRequestPacket(packet)))
    ensures packet.rpk != s.pk && r.sent != [] ==>
      exists j :: 0 <= j < |s.closeNodes| && s.closeNodes[j].pk == packet.rpk && socketAddr(s.closeNodes[j]).Some? &&
        r.sent == [Udp(DhtRequestPacket(packet), Delivered(s.isIpv6Mode, socketAddr(s.closeNodes[j]).value))]
  {
    if packet.rpk == s.pk then
      match Open(Precompute(packet.spk, s.sk), packet.nonce, packet.payload)
      case None => Step(s, [], Failed(DecryptionFailed))
      case Some(payload) =>
        match payload
        case NatPingRequest(id) => HandleNatPingReq(s, id, packet.spk, addr, nonce)
        case NatPingResponse(id) => HandleNatPingResp(s, id, packet.spk, now, punchInterval)
        case DhtPkAnnounce(_) => Step(s, [], Done)
    else
      match FindByKey(s.closeNodes, NodePk, packet.rpk)
      case None => Step(s, [], Done)
      case Some(i) =>
        match socketAddr(s.closeNodes[i])
        case None => Step(s, [], Done)
        case Some(a) => Emit(s, SendTo(s.isIpv6Mode, a, DhtRequestPacket(packet)))
  }

  /**
   NAT ping round trip between us (`s`) and a friend node (`t`): the friend
   answers our NatPingRequest(id) with a DhtRequest back to us, and handling
   that answer is `handle_nat_ping_resp`, which succeeds exactly when `id` is
   the friend's outstanding, recent ping id.
   */
  lemma NatPingRoundTrip(s: Server, t: Server, id: u64, reqNonce: Nonce, replyNonce: Nonce, addrOfS: SocketAddr, addrOfT: SocketAddr,
                         socketAddr: DhtNode -> Option<SocketAddr>, now: nat, interval: nat, nonce: Nonce)
    requires s.pk == PublicKeyOf(s.sk) && t.pk == PublicKeyOf(t.sk)
    requires Routable(t.isIpv6Mode, addrOfS)
    ensures
      var request := DhtRequest(t.pk, s.pk, reqNonce, Seal(Precompute(t.pk, s.sk), reqNonce, NatPingRequest(id)));
      var atFriend := HandleDhtReq(t, request, addrOfS, socketAddr, now, interval, replyNonce);
      && atFriend.server == t && atFriend.status == Done && |atFriend.sent| == 1
      && atFriend.sent[0].Udp? && atFriend.sent[0].packet.DhtRequestPacket?
      && var back := HandleDhtReq(s, atFriend.sent[0].packet.dhtRequest, addrOfT, socketAddr, now, interval, nonce);
      && back == HandleNatPingResp(s, id, t.pk, now, interval)
      && (back.status.Done? <==>
            var i := FindByKey(s.friends, FriendPk, t.pk);
            && i.Some? && id != 0
            && s.friends[i.value].holePunch.pingId == id
            && Elapsed(now, s.friends[i.value].holePunch.lastRecvPingTime) < interval)
  {
    var request := DhtRequest(t.pk, s.pk, reqNonce, Seal(Precompute(t.pk, s.sk), reqNonce, NatPingRequest(id)));
    PrecomputeSymmetric(s.sk, t.sk);
    assert Open(Precompute(request.spk, t.sk), request.nonce, request.payload) == Some(NatPingRequest(id));
    var atFriend := HandleDhtReq(t, request, addrOfS, socketAddr, now, interval, replyNonce);
    assert atFriend == HandleNatPingReq(t, id, s.pk, addrOfS, replyNonce);
    var reply := atFriend.sent[0].packet.dhtRequest;
    assert reply == DhtRequest(s.pk, t.pk, replyNonce, Seal(Precompute(s.pk, t.sk), replyNonce, NatPingResponse(id)));
    assert Open(Precompute(reply.spk, s.sk), reply.nonce, reply.payload) == Some(NatPingResponse(id));
  }

  /**
   A relay is transparent: the request a close node receives through
   `handle_dht_req` is handled there exactly as the sender's original, and
   the addressee opens it to what the sender sealed.
   */
  lemma DhtReqRelayTransparent(relay: Server, packet: DhtRequest, from: SocketAddr, socketAddr: DhtNode -> Option<SocketAddr>,
                               now: nat, interval: nat, nonce: Nonce,
                               c: Server, addr: SocketAddr, socketAddr': DhtNode -> Option<SocketAddr>, nonce': Nonce,
                               senderSk: SecretKey, p: DhtRequestPayload)
    requires packet.rpk != relay.pk
    requires HandleDhtReq(relay, packet, from, socketAddr, now, interval, nonce).sent != []
    ensures
      var out := HandleDhtReq(relay, packet, from, socketAddr, now, interval, nonce).sent[0];
      && out.Udp? && out.packet.DhtRequestPacket?
      && HandleDhtReq(c, out.packet.dhtRequest, addr, socketAddr', now, interval, nonce') ==
         HandleDhtReq(c, packet, addr, socketAddr', now, interval, nonce')
      && (c.pk == packet.rpk && c.pk == PublicKeyOf(c.sk) && packet.spk == PublicKeyOf(senderSk)
          && packet.payload == Seal(Precompute(c.pk, senderSk), packet.nonce, p) ==>
            Open(Precompute(out.packet.dhtRequest.spk, c.sk), out.packet.dhtRequest.nonce, out.packet.dhtRequest.payload) == Some(p))
  {
    PrecomputeSymmetric(senderSk, c.sk);
  }

  // ----- LanDiscovery -----

  /**
   `handle_lan_discovery`: answer a LAN announcement with a NodesRequest for
   our own key, unless LAN discovery is off or the announcement is our own.
   */
  function HandleLanDiscovery(s: Server, packet: LanDiscovery, addr: SocketAddr, pingId: u64, nonce: Nonce): (r: Step)
    ensures Quiet(r) && |r.sent| <= 1
    ensures !s.lanDiscoveryEnabled || packet.pk == s.pk ==> r == Step(s, [], Done)
    ensures s.lanDiscoveryEnabled && packet.pk != s.pk ==>
      && r.server == s.(pendingPings := s.pendingPings + {(packet.pk, pingId)})
      && (r.status.Done? <==> Routable(s.isIpv6Mode, addr))
      && (r.status.Failed? ==> r.status.error == Ipv6InIpv4Mode)
      && (r.status.Done? ==>
            && |r.sent| == 1 && r.sent[0].Udp?
            && r.sent[0].addr == Delivered(s.isIpv6Mode, addr)
            && r.sent[0].packet.NodesRequestPacket?
            && r.sent[0].packet.nodesRequest.pk == s.pk
            && r.sent[0].packet.nodesRequest.nonce == nonce)
      && (r.status.Done? && s.pk == PublicKeyOf(s.sk) ==> forall tsk :: PublicKeyOf(tsk) == packet.pk ==>
            Open(Precompute(s.pk, tsk), nonce, r.sent[0].packet.nodesRequest.payload) == Some(NodesRequestPayload(s.pk, pingId)))
  {
    if !s.lanDiscoveryEnabled then Step(s, [], Done)
    else if packet.pk == s.pk then Step(s, [], Done)
    else
      var s' := s.(pendingPings := s.pendingPings + {(packet.pk, pingId)});
      Emit(s', SendNodesReq(s, PackedNode(packet.pk, addr), s.pk, pingId, nonce))
  }

  // ----- Onion requests -----

  /**
   `handle_onion_request_0`: decrypt the first layer with the key shared with
   the sender's temporary key, then pass nonce, next temporary key and inner
   layer on to the decrypted address with a fresh return for the sender.
   */
  function HandleOnionRequest0(s: Server, packet: OnionRequest0, addr: SocketAddr, returnNonce: Nonce): (r: Step)
    ensures r.server == s && Quiet(r)
    ensures Open(Precompute(packet.temporaryPk, s.sk), packet.nonce, packet.payload).None? ==>
      r == Step(s, [], Failed(DecryptionFailed))
    ensures var d := Open(Precompute(packet.temporaryPk, s.sk), packet.nonce, packet.payload);
      d.Some? ==>
        var ret := NewOnionReturn(s.onionKey, returnNonce, FromUdpSaddr(addr), None);
        Forwarded(s, r, ToSaddr(d.value.ipPort),
          OnionRequest1Packet(OnionRequest1(packet.nonce, d.value.temporaryPk, d.value.inner, ret)))
    ensures r.status.Done? ==>
      OpenReturn(s.onionKey, r.sent[0].packet.onionRequest1.onionReturn) == Some(ReturnPayload(FromUdpSaddr(addr), None))
  {
    match Open(Precompute(packet.temporaryPk, s.sk), packet.nonce, packet.payload)
    case None => Step(s, [], Failed(DecryptionFailed))
    case Some(p) =>
      var ret := NewOnionReturn(s.onionKey, returnNonce, FromUdpSaddr(addr), None);
      Emit(s, SendTo(s.isIpv6Mode, ToSaddr(p.ipPort), OnionRequest1Packet(OnionRequest1(packet.nonce, p.temporaryPk, p.inner, ret))))
  }

  /** `handle_onion_request_1`: as layer 0, but the new return wraps the incoming one. */
  function HandleOnionRequest1(s: Server, packet: OnionRequest1, addr: SocketAddr, returnNonce: Nonce): (r: Step)
    ensures r.server == s && Quiet(r)
    ensures Open(Precompute(packet.temporaryPk, s.sk), packet.nonce, packet.payload).None? ==>
      r == Step(s, [], Failed(DecryptionFailed))
    ensures var d := Open(Precompute(packet.temporaryPk, s.sk), packet.nonce, packet.payload);
      d.Some? ==>
        var ret := NewOnionReturn(s.onionKey, returnNonce, FromUdpSaddr(addr), Some(packet.onionReturn));
        Forwarded(s, r, ToSaddr(d.value.ipPort),
          OnionRequest2Packet(OnionRequest2(packet.nonce, d.value.temporaryPk, d.value.inner, ret)))
    ensures r.status.Done? ==>
      OpenReturn(s.onionKey, r.sent[0].packet.onionRequest2.onionReturn) == Some(ReturnPayload(FromUdpSaddr(addr), Some(packet.onionReturn)))
  {
    match Open(Precompute(packet.temporaryPk, s.sk), packet.nonce, packet.payload)
    case None => Step(s, [], Failed(DecryptionFailed))
    case Some(p) =>
      var ret := NewOnionReturn(s.onionKey, returnNonce, FromUdpSaddr(addr), Some(packet.onionReturn));
      Emit(s, SendTo(s.isIpv6Mode, ToSaddr(p.ipPort), OnionRequest2Packet(OnionRequest2(packet.nonce, p.temporaryPk, p.inner, ret))))
  }

  /** The packet the last relay sends for an inner onion request. */
  function ExitPacket(inner: InnerOnionRequest, ret: OnionReturn): (p: DhtPacket)
    ensures p.OnionAnnounceRequestPacket? || p.OnionDataRequestPacket?
  {
    match inner
    case AnnounceRequest(b) => OnionAnnounceRequestPacket(OnionAnnounceRequest(b, ret))
    case DataRequest(b) => OnionDataRequestPacket(OnionDataRequest(b, ret))
  }

  /** The onion return an exit packet carries. */
  function ExitReturn(p: DhtPacket): OnionReturn
    requires p.OnionAnnounceRequestPacket? || p.OnionDataRequestPacket?
  {
    if p.OnionAnnounceRequestPacket? then p.announceRequest.onionReturn else p.dataRequest.onionReturn
  }

  /**
   `handle_onion_request_2`: the decrypted inner announce or data request goes
   to the destination with a return wrapping the incoming one.
   */
  function HandleOnionRequest2(s: Server, packet: OnionRequest2, addr: SocketAddr, returnNonce: Nonce): (r: Step)
    ensures r.server == s && Quiet(r)
    ensures Open(Precompute(packet.temporaryPk, s.sk), packet.nonce, packet.payload).None? ==>
      r == Step(s, [], Failed(DecryptionFailed))
    ensures var d := Open(Precompute(packet.temporaryPk, s.sk), packet.nonce, packet.payload);
      d.Some? ==>
        var ret := NewOnionReturn(s.onionKey, returnNonce, FromUdpSaddr(addr), Some(packet.onionReturn));
        Forwarded(s, r, ToSaddr(d.value.ipPort), ExitPacket(d.value.inner, ret))
    ensures r.status.Done? ==>
      && (r.sent[0].packet.OnionAnnounceRequestPacket? || r.sent[0].packet.OnionDataRequestPacket?)
      && OpenReturn(s.onionKey, ExitReturn(r.sent[0].packet)) == Some(ReturnPayload(FromUdpSaddr(addr), Some(packet.onionReturn)))
  {
    match Open(Precompute(packet.temporaryPk, s.sk), packet.nonce, packet.payload)
    case None => Step(s, [], Failed(DecryptionFailed))
    case Some(p) =>
      var ret := NewOnionReturn(s.onionKey, returnNonce, FromUdpSaddr(addr), Some(packet.onionReturn));
      Emit(s, SendTo(s.isIpv6Mode, ToSaddr(p.ipPort), ExitPacket(p.inner, ret)))
  }

  /**
   `handle_tcp_onion_request`: a TCP relay's onion request enters the path
   like layer 0, with a return recording the TCP client's address.
   */
  function HandleTcpOnionRequest(s: Server, packet: TcpOnionRequest, addr: SocketAddr, returnNonce: Nonce): (r: Step)
    ensures r.server == s && Quiet(r)
    ensures Forwarded(s, r, ToSaddr(packet.ipPort),
      OnionRequest1Packet(OnionRequest1(packet.nonce, packet.temporaryPk, packet.payload,
        NewOnionReturn(s.onionKey, returnNonce, FromTcpSaddr(addr), None))))
    ensures r.status.Done? ==>
      OpenReturn(s.onionKey, r.sent[0].packet.onionRequest1.onionReturn) == Some(ReturnPayload(FromTcpSaddr(addr), None))
  {
    var ret := NewOnionReturn(s.onionKey, returnNonce, FromTcpSaddr(addr), None);
    Emit(s, SendTo(s.isIpv6Mode, ToSaddr(packet.ipPort), OnionRequest1Packet(OnionRequest1(packet.nonce, packet.temporaryPk, packet.payload, ret))))
  }

  // ----- Onion responses -----

  /**
   `handle_onion_response_3`: peel our return; it must hold a nested return,
   which goes with the unchanged payload to the recorded address.
   */
  function HandleOnionResponse3(s: Server, packet: OnionResponse3): (r: Step)
    ensures r.server == s && Quiet(r)
    ensures OpenReturn(s.onionKey, packet.onionReturn).None? ==> r.status == Failed(DecryptionFailed)
    ensures var d := OpenReturn(s.onionKey, packet.onionReturn);
      d.Some? && d.value.next.None? ==> r.status == Failed(MissingNextReturn)
    ensures var d := OpenReturn(s.onionKey, packet.onionReturn);
      d.Some? && d.value.next.Some? ==>
        Forwarded(s, r, ToSaddr(d.value.ipPort), OnionResponse2Packet(OnionResponse2(d.value.next.value, packet.payload)))
  {
    match OpenReturn(s.onionKey, packet.onionReturn)
    case None => Step(s, [], Failed(DecryptionFailed))
    case Some(ReturnPayload(ip, next)) =>
      match next
      case None => Step(s, [], Failed(MissingNextReturn))
      case Some(n) => Emit(s, SendTo(s.isIpv6Mode, ToSaddr(ip), OnionResponse2Packet(OnionResponse2(n, packet.payload))))
  }

  /** `handle_onion_response_2`: as layer 3, one hop closer to the client. */
  function HandleOnionResponse2(s: Server, packet: OnionResponse2): (r: Step)
    ensures r.server == s && Quiet(r)
    ensures OpenReturn(s.onionKey, packet.onionReturn).None? ==> r.status == Failed(DecryptionFailed)
    ensures var d := OpenReturn(s.onionKey, packet.onionReturn);
      d.Some? && d.value.next.None? ==> r.status == Failed(MissingNextReturn)
    ensures var d := OpenReturn(s.onionKey, packet.onionReturn);
      d.Some? && d.value.next.Some? ==>
        Forwarded(s, r, ToSaddr(d.value.ipPort), OnionResponse1Packet(OnionResponse1(d.value.next.value, packet.payload)))
  {
    match OpenReturn(s.onionKey, packet.onionReturn)
    case None => Step(s, [], Failed(DecryptionFailed))
    case Some(ReturnPayload(ip, next)) =>
      match next
      case None => Step(s, [], Failed(MissingNextReturn))
      case Some(n) => Emit(s, SendTo(s.isIpv6Mode, ToSaddr(ip), OnionResponse1Packet(OnionResponse1(n, packet.payload))))
  }

  /** The top-level packet an inner onion response becomes at the first relay. */
  function ResponsePacket(payload: InnerOnionResponse): DhtPacket
  {
    match payload
    case AnnounceResponse(b) => OnionAnnounceResponsePacket(b)
    case DataResponse(b) => OnionDataResponsePacket(b)
  }

  /**
   `handle_onion_response_1`: our return must be the innermost one. Over UDP
   the inner response is sent as a packet of its own kind; over TCP it goes to
   the TCP relay, if there is one.
   */
  function HandleOnionResponse1(s: Server, packet: OnionResponse1): (r: Step)
    ensures r.server == s && Quiet(r) && |r.sent| <= 1
    ensures OpenReturn(s.onionKey, packet.onionReturn).None? ==> r.status == Failed(DecryptionFailed)
    ensures var d := OpenReturn(s.onionKey, packet.onionReturn);
      d.Some? && d.value.next.Some? ==> r.status == Failed(UnexpectedNextReturn)
    ensures var d := OpenReturn(s.onionKey, packet.onionReturn);
      d.Some? && d.value.next.None? && d.value.ipPort.protocol == UDP ==>
        Forwarded(s, r, ToSaddr(d.value.ipPort), ResponsePacket(packet.payload))
    ensures var d := OpenReturn(s.onionKey, packet.onionReturn);
      d.Some? && d.value.next.None? && d.value.ipPort.protocol == TCP ==>
        if s.hasTcpOnionSink then r.status == Done && r.sent == [Tcp(packet.payload, ToSaddr(d.value.ipPort))]
        else r.status == Failed(NoTcpRelay)
    ensures forall o :: o in r.sent && o.Tcp? ==> s.hasTcpOnionSink
  {
    match OpenReturn(s.onionKey, packet.onionReturn)
    case None => Step(s, [], Failed(DecryptionFailed))
    case Some(ReturnPayload(ip, next)) =>
      if next.Some? then Step(s, [], Failed(UnexpectedNextReturn))
      else match ip.protocol
        case UDP => Emit(s, SendTo(s.isIpv6Mode, ToSaddr(ip), ResponsePacket(packet.payload)))
        case TCP =>
          if s.hasTcpOnionSink then Step(s, [Tcp(packet.payload, ToSaddr(ip))], Done)
          else Step(s, [], Failed(NoTcpRelay))
  }

  // ----- Onion key refresh -----

  /** `refresh_onion_key`: replace the onion key with `freshKey` once it is 7200 seconds old. */
  function RefreshOnionKey(s: Server, now: nat, freshKey: SymKey): (s': Server)
    ensures s'.(onionKey := s.onionKey, onionKeyTime := s.onionKeyTime) == s
    ensures Elapsed(now, s.onionKeyTime) >= ONION_REFRESH_KEY_INTERVAL ==> s'.onionKey == freshKey && s'.onionKeyTime == now
    ensures Elapsed(now, s.onionKeyTime) < ONION_REFRESH_KEY_INTERVAL ==> s' == s
  {
    if Elapsed(now, s.onionKeyTime) >= ONION_REFRESH_KEY_INTERVAL then s.(onionKeyTime := now, onionKey := freshKey)
    else s
  }

  /**
   A refresh expires every onion path through this node: returns minted under
   the old key are refused afterwards at every response layer.
   */
  lemma RefreshExpiresReturns(s: Server, now: nat, freshKey: SymKey, ret: OnionReturn, payload: InnerOnionResponse)
    requires Elapsed(now, s.onionKeyTime) >= ONION_REFRESH_KEY_INTERVAL
    requires freshKey != s.onionKey
    requires OpenReturn(s.onionKey, ret).Some?
    ensures var s' := RefreshOnionKey(s, now, freshKey);
      && HandleOnionResponse3(s', OnionResponse3(ret, payload)) == Step(s', [], Failed(DecryptionFailed))
      && HandleOnionResponse2(s', OnionResponse2(ret, payload)) == Step(s', [], Failed(DecryptionFailed))
      && HandleOnionResponse1(s', OnionResponse1(ret, payload)) == Step(s', [], Failed(DecryptionFailed))
  {}
}
