/**
 What the relay handlers achieve together. Forward: an onion built on a path
 is peeled by the three relays in turn and reaches its destination carrying a
 return that each relay wrapped once. Backward: a response carrying that
 return is peeled by the relays in reverse order and reaches the client.
 */
module OnionRoute {
  import opened Basics
  import opened Crypto
  import opened Net
  import opened Packets
  import opened DhtNodes
  import opened OnionPath
  import opened DhtServer

  /** One relay's layer of a return: its onion key, the nonce it drew and the address it received from. */
  datatype Hop = Hop(key: SymKey, nonce: Nonce, from: IpPort)

  /** The return the last of `hops` sends on: the first relay starts it, each later one wraps it. */
  function WrapAll(hops: seq<Hop>): OnionReturn
    requires |hops| > 0
    decreases |hops|
  {
    var h := hops[|hops| - 1];
    if |hops| == 1 then NewOnionReturn(h.key, h.nonce, h.from, None)
    else NewOnionReturn(h.key, h.nonce, h.from, Some(WrapAll(hops[..|hops| - 1])))
  }

  /**
   Peeling with `keys`, first key first: the addresses found, provided every
   layer opens, every layer but the last nests another, and the last does not.
   */
  function PeelAll(keys: seq<SymKey>, r: OnionReturn): Option<seq<IpPort>>
    requires |keys| > 0
    decreases |keys|
  {
    match OpenReturn(keys[0], r)
    case None => None
    case Some(ReturnPayload(ip, next)) =>
      if |keys| == 1 then (if next.None? then Some([ip]) else None)
      else match next
        case None => None
        case Some(n) =>
          match PeelAll(keys[1..], n)
          case None => None
          case Some(ips) => Some([ip] + ips)
  }

  /** The hops' keys, last hop first. */
  function PeelKeys(hops: seq<Hop>): (keys: seq<SymKey>)
    ensures |keys| == |hops|
    ensures forall i :: 0 <= i < |hops| ==> keys[i] == hops[|hops| - 1 - i].key
  {
    if |hops| == 0 then [] else [hops[|hops| - 1].key] + PeelKeys(hops[..|hops| - 1])
  }

  /** The hops' addresses, last hop first. */
  function PeelAddrs(hops: seq<Hop>): (ips: seq<IpPort>)
    ensures |ips| == |hops|
    ensures forall i :: 0 <= i < |hops| ==> ips[i] == hops[|hops| - 1 - i].from
  {
    if |hops| == 0 then [] else [hops[|hops| - 1].from] + PeelAddrs(hops[..|hops| - 1])
  }

  /** Wrapping in path order and peeling in reverse gives back the relay addresses in reverse order. */
  lemma {:induction false} WrapThenPeel(hops: seq<Hop>)
    requires |hops| > 0
    ensures PeelAll(PeelKeys(hops), WrapAll(hops)) == Some(PeelAddrs(hops))
  {
    var h := hops[|hops| - 1];
    var prefix := hops[..|hops| - 1];
    assert OpenReturn(h.key, WrapAll(hops)).Some?;
    if |hops| == 1 {
      assert PeelKeys(hops) == [h.key];
      assert PeelAddrs(hops) == [h.from];
    } else {
      WrapThenPeel(prefix);
      assert PeelKeys(hops)[0] == h.key;
      assert PeelKeys(hops)[1..] == PeelKeys(prefix);
      assert OpenReturn(h.key, WrapAll(hops)) == Some(ReturnPayload(h.from, Some(WrapAll(prefix))));
      assert PeelAddrs(hops) == [h.from] + PeelAddrs(prefix);
    }
  }

  /** A layer peeled with the wrong key stops the whole return path. */
  lemma PeelWrongKey(hops: seq<Hop>, keys: seq<SymKey>)
    requires |hops| > 0 && |keys| > 0
    requires keys[0] != hops[|hops| - 1].key
    ensures PeelAll(keys, WrapAll(hops)) == None
  {}

  /** The three encrypted layers a client builds on a path, innermost for the last relay. */
  datatype Onion = Onion(
    layer0: Sealed<PrecomputedKey, OnionRequest0Payload>,
    layer1: Sealed<PrecomputedKey, OnionRequest1Payload>,
    layer2: Sealed<PrecomputedKey, OnionRequest2Payload>)

  /**
   The onion for `inner` to `dest` over path `p`, all layers under one nonce:
   layer i is sealed with hop i's key and names hop i+1 (or the destination).
   */
  function BuildOnion(p: Path, nonce: Nonce, dest: IpPort, inner: InnerOnionRequest): Onion
    requires WellFormed(p)
  {
    var l2 := Seal(p.precomputedKeys[2], nonce, OnionRequest2Payload(dest, inner));
    var l1 := Seal(p.precomputedKeys[1], nonce, OnionRequest1Payload(FromUdpSaddr(p.nodes[2].saddr), p.publicKeys[2], l2));
    var l0 := Seal(p.precomputedKeys[0], nonce, OnionRequest0Payload(FromUdpSaddr(p.nodes[1].saddr), p.publicKeys[1], l1));
    Onion(l0, l1, l2)
  }

  /** Relay `s` holds the secret key of path node `node`. */
  predicate RunsNode(s: Server, node: DhtNode) {
    node.pk == PublicKeyOf(s.sk)
  }

  /**
   Forward direction. The three relays of a path built by `NewPath` each open
   their layer, pass nonce, next key and next layer on unchanged to the next
   node, and add one layer to the return; the destination gets the inner
   request with the three-layer return.
   */
  lemma {:induction false} ForwardPath(
    csk: SecretKey, nodes: seq<DhtNode>, sk2: SecretKey, sk3: SecretKey,
    s0: Server, s1: Server, s2: Server,
    nonce: Nonce, dest: IpPort, inner: InnerOnionRequest,
    origin: SocketAddr, a0: SocketAddr, a1: SocketAddr,
    rn0: Nonce, rn1: Nonce, rn2: Nonce)
    requires |nodes| >= 3
    requires RunsNode(s0, nodes[0]) && RunsNode(s1, nodes[1]) && RunsNode(s2, nodes[2])
    requires Routable(s0.isIpv6Mode, nodes[1].saddr)
    requires Routable(s1.isIpv6Mode, nodes[2].saddr)
    requires Routable(s2.isIpv6Mode, ToSaddr(dest))
    ensures
      var p := NewPath((PublicKeyOf(csk), csk), nodes, sk2, sk3);
      var o := BuildOnion(p, nonce, dest, inner);
      var h0 := Hop(s0.onionKey, rn0, FromUdpSaddr(origin));
      var h1 := Hop(s1.onionKey, rn1, FromUdpSaddr(a0));
      var h2 := Hop(s2.onionKey, rn2, FromUdpSaddr(a1));
      var q1 := OnionRequest1(nonce, p.publicKeys[1], o.layer1, WrapAll([h0]));
      var q2 := OnionRequest2(nonce, p.publicKeys[2], o.layer2, WrapAll([h0, h1]));
      && HandleOnionRequest0(s0, OnionRequest0(nonce, p.publicKeys[0], o.layer0), origin, rn0)
           == Step(s0, [Udp(OnionRequest1Packet(q1), Delivered(s0.isIpv6Mode, nodes[1].saddr))], Done)
      && HandleOnionRequest1(s1, q1, a0, rn1)
           == Step(s1, [Udp(OnionRequest2Packet(q2), Delivered(s1.isIpv6Mode, nodes[2].saddr))], Done)
      && HandleOnionRequest2(s2, q2, a1, rn2)
           == Step(s2, [Udp(ExitPacket(inner, WrapAll([h0, h1, h2])), Delivered(s2.isIpv6Mode, ToSaddr(dest)))], Done)
  {
    var p := NewPath((PublicKeyOf(csk), csk), nodes, sk2, sk3);
    PathKeysAgree((PublicKeyOf(csk), csk), nodes, sk2, sk3, [s0.sk, s1.sk, s2.sk]);
    var o := BuildOnion(p, nonce, dest, inner);
    var h0 := Hop(s0.onionKey, rn0, FromUdpSaddr(origin));
    var h1 := Hop(s1.onionKey, rn1, FromUdpSaddr(a0));
    var h2 := Hop(s2.onionKey, rn2, FromUdpSaddr(a1));
    assert [h0, h1][..1] == [h0];
    assert [h0, h1, h2][..2] == [h0, h1];
    var q1 := OnionRequest1(nonce, p.publicKeys[1], o.layer1, WrapAll([h0]));
    var q2 := OnionRequest2(nonce, p.publicKeys[2], o.layer2, WrapAll([h0, h1]));
    assert Precompute(p.publicKeys[0], s0.sk) == p.precomputedKeys[0];
    assert Precompute(p.publicKeys[1], s1.sk) == p.precomputedKeys[1];
    assert Precompute(p.publicKeys[2], s2.sk) == p.precomputedKeys[2];
  }

  /**
   Return direction. A response carrying the three-layer return is peeled by
   the last relay, then the middle one, then the first, each sending it to the
   address it recorded; the first relay hands the inner response to the client.
   */
  lemma {:induction false} ReturnPath(
    s0: Server, s1: Server, s2: Server, payload: InnerOnionResponse,
    origin: SocketAddr, a0: SocketAddr, a1: SocketAddr,
    rn0: Nonce, rn1: Nonce, rn2: Nonce)
    requires Routable(s2.isIpv6Mode, a1) && Routable(s1.isIpv6Mode, a0) && Routable(s0.isIpv6Mode, origin)
    ensures
      var h0 := Hop(s0.onionKey, rn0, FromUdpSaddr(origin));
      var h1 := Hop(s1.onionKey, rn1, FromUdpSaddr(a0));
      var h2 := Hop(s2.onionKey, rn2, FromUdpSaddr(a1));
      && HandleOnionResponse3(s2, OnionResponse3(WrapAll([h0, h1, h2]), payload))
           == Step(s2, [Udp(OnionResponse2Packet(OnionResponse2(WrapAll([h0, h1]), payload)), Delivered(s2.isIpv6Mode, a1))], Done)
      && HandleOnionResponse2(s1, OnionResponse2(WrapAll([h0, h1]), payload))
           == Step(s1, [Udp(OnionResponse1Packet(OnionResponse1(WrapAll([h0]), payload)), Delivered(s1.isIpv6Mode, a0))], Done)
      && HandleOnionResponse1(s0, OnionResponse1(WrapAll([h0]), payload))
           == Step(s0, [Udp(ResponsePacket(payload), Delivered(s0.isIpv6Mode, origin))], Done)
  {
    var h0 := Hop(s0.onionKey, rn0, FromUdpSaddr(origin));
    var h1 := Hop(s1.onionKey, rn1, FromUdpSaddr(a0));
    var h2 := Hop(s2.onionKey, rn2, FromUdpSaddr(a1));
    assert [h0, h1][..1] == [h0];
    assert [h0, h1, h2][..2] == [h0, h1];
  }

  /**
   A request that entered through a TCP relay: the first relay's return
   records the TCP client, so the response goes to the TCP relay when one is
   attached and is refused otherwise.
   */
  lemma TcpEntryReturn(s0: Server, packet: TcpOnionRequest, addr: SocketAddr, rn0: Nonce, payload: InnerOnionResponse)
    requires Routable(s0.isIpv6Mode, ToSaddr(packet.ipPort))
    ensures var st := HandleTcpOnionRequest(s0, packet, addr, rn0);
      && st.status == Done
      && var ret := st.sent[0].packet.onionRequest1.onionReturn;
      && (s0.hasTcpOnionSink ==> HandleOnionResponse1(s0, OnionResponse1(ret, payload)) == Step(s0, [Tcp(payload, addr)], Done))
      && (!s0.hasTcpOnionSink ==> HandleOnionResponse1(s0, OnionResponse1(ret, payload)) == Step(s0, [], Failed(NoTcpRelay)))
  {}
}
