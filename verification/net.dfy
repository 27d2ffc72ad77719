/** Socket addresses, the `IpPort` carried in onion packets, and IPv4-mapped IPv6 addresses. */
module Net {
  import opened Basics

  type Octets4 = s: seq<byte> | |s| == 4 witness [0, 0, 0, 0]
  type Octets16 = s: seq<byte> | |s| == 16 witness [0, 0, 0, 0, 0, 0, 0, 0, 0, 0, 0, 0, 0, 0, 0, 0]

  datatype IpAddr = V4(v4: Octets4) | V6(v6: Octets16)

  datatype SocketAddr = SocketAddr(ip: IpAddr, port: u16)

  datatype ProtocolType = UDP | TCP

  /** Address plus transport, as stored inside onion packets and onion returns. */
  datatype IpPort = IpPort(protocol: ProtocolType, ip: IpAddr, port: u16)

  /** The 96-bit prefix `::ffff:0:0/96` of section 2.5.5.2 of RFC 4291. */
  const MAPPED_PREFIX: seq<byte> := [0, 0, 0, 0, 0, 0, 0, 0, 0, 0, 0xff, 0xff]

  /** `Ipv4Addr::to_ipv6_mapped`: the IPv4-mapped IPv6 address of `a`. */
  function ToIpv6Mapped(a: Octets4): (r: Octets16)
    ensures r[..12] == MAPPED_PREFIX
    ensures r[12..] == a
  {
    MAPPED_PREFIX + a
  }

  /** Inverse of `ToIpv6Mapped`: the embedded IPv4 address, when `a` carries the mapped prefix. */
  function FromIpv6Mapped(a: Octets16): Option<Octets4> {
    if a[..12] == MAPPED_PREFIX then Some(a[12..]) else None
  }

  /** The address a host is known by, with IPv4-mapped IPv6 addresses folded back to IPv4. */
  function Canonical(ip: IpAddr): IpAddr {
    match ip
    case V4(_) => ip
    case V6(a) => match FromIpv6Mapped(a) case Some(b) => V4(b) case None => ip
  }

  lemma MappedRoundTrip(a: Octets4)
    ensures FromIpv6Mapped(ToIpv6Mapped(a)) == Some(a)
  {}

  /** Exactly the addresses carrying the prefix are mapped ones. */
  lemma {:induction false} MappedOnlyFromPrefix(b: Octets16)
    ensures FromIpv6Mapped(b).Some? <==> exists a: Octets4 :: ToIpv6Mapped(a) == b
  {
    if FromIpv6Mapped(b).Some? {
      var a: Octets4 := b[12..];
      assert ToIpv6Mapped(a) == b;
    }
  }

  lemma MappedInjective(a: Octets4, b: Octets4)
    requires ToIpv6Mapped(a) == ToIpv6Mapped(b)
    ensures a == b
  {
    assert a == ToIpv6Mapped(a)[12..];
  }

  /** `IpPort::from_udp_saddr`. */
  function FromUdpSaddr(addr: SocketAddr): (r: IpPort)
    ensures r.protocol == UDP
    ensures ToSaddr(r) == addr
  {
    IpPort(UDP, addr.ip, addr.port)
  }

  /** `IpPort::from_tcp_saddr`. */
  function FromTcpSaddr(addr: SocketAddr): (r: IpPort)
    ensures r.protocol == TCP
    ensures ToSaddr(r) == addr
  {
    IpPort(TCP, addr.ip, addr.port)
  }

  /** `IpPort::to_saddr`: the socket address, protocol dropped. */
  function ToSaddr(ip: IpPort): SocketAddr {
    SocketAddr(ip.ip, ip.port)
  }
}
