/**
 The DHT and onion packets the server reads and writes. Encrypted parts are
 `Sealed` terms over their decrypted payload type; bodies the server never
 looks into (announce and data requests and responses) are plain bytes.
 */
module Packets {
  import opened Basics
  import opened Crypto
  import opened Net

  /**
   An onion return: a secretbox, under the relay's onion key, of the address the
   request came from and the return that came with it (none at the first relay).
   */
  datatype OnionReturn = OnionReturn(nonce: Nonce, payload: Sealed<SymKey, ReturnPayload>)

  datatype ReturnPayload = ReturnPayload(ipPort: IpPort, next: Option<OnionReturn>)

  /** `OnionReturn::new`; `nonce` is the fresh secretbox nonce. */
  function NewOnionReturn(key: SymKey, nonce: Nonce, ipPort: IpPort, next: Option<OnionReturn>): (r: OnionReturn)
    ensures OpenReturn(key, r) == Some(ReturnPayload(ipPort, next))
    ensures forall other: SymKey :: other != key ==> OpenReturn(other, r).None?
  {
    OnionReturn(nonce, Seal(key, nonce, ReturnPayload(ipPort, next)))
  }

  /** `OnionReturn::get_payload`. */
  function OpenReturn(key: SymKey, r: OnionReturn): Option<ReturnPayload> {
    Open(key, r.nonce, r.payload)
  }

  datatype PingResponsePayload = PingResponsePayload(id: u64)
  datatype PingResponse = PingResponse(pk: PublicKey, nonce: Nonce, payload: Sealed<PrecomputedKey, PingResponsePayload>)

  datatype NodesRequestPayload = NodesRequestPayload(pk: PublicKey, id: u64)
  datatype NodesRequest = NodesRequest(pk: PublicKey, nonce: Nonce, payload: Sealed<PrecomputedKey, NodesRequestPayload>)

  datatype DhtRequestPayload =
    | NatPingRequest(id: u64)
    | NatPingResponse(id: u64)
    | DhtPkAnnounce(body: seq<byte>)

  /** A request addressed to `rpk`, sent by `spk`. */
  datatype DhtRequest = DhtRequest(rpk: PublicKey, spk: PublicKey, nonce: Nonce, payload: Sealed<PrecomputedKey, DhtRequestPayload>)

  datatype LanDiscovery = LanDiscovery(pk: PublicKey)

  datatype InnerOnionRequest = AnnounceRequest(announce: seq<byte>) | DataRequest(data: seq<byte>)

  datatype OnionRequest2Payload = OnionRequest2Payload(ipPort: IpPort, inner: InnerOnionRequest)
  datatype OnionRequest1Payload = OnionRequest1Payload(ipPort: IpPort, temporaryPk: PublicKey, inner: Sealed<PrecomputedKey, OnionRequest2Payload>)
  datatype OnionRequest0Payload = OnionRequest0Payload(ipPort: IpPort, temporaryPk: PublicKey, inner: Sealed<PrecomputedKey, OnionRequest1Payload>)

  datatype OnionRequest0 = OnionRequest0(nonce: Nonce, temporaryPk: PublicKey, payload: Sealed<PrecomputedKey, OnionRequest0Payload>)
  datatype OnionRequest1 = OnionRequest1(nonce: Nonce, temporaryPk: PublicKey, payload: Sealed<PrecomputedKey, OnionRequest1Payload>, onionReturn: OnionReturn)
  datatype OnionRequest2 = OnionRequest2(nonce: Nonce, temporaryPk: PublicKey, payload: Sealed<PrecomputedKey, OnionRequest2Payload>, onionReturn: OnionReturn)

  /** The onion request a TCP relay hands over; its payload is already the first relay layer. */
  datatype TcpOnionRequest = TcpOnionRequest(nonce: Nonce, temporaryPk: PublicKey, ipPort: IpPort, payload: Sealed<PrecomputedKey, OnionRequest1Payload>)

  datatype OnionAnnounceRequest = OnionAnnounceRequest(inner: seq<byte>, onionReturn: OnionReturn)
  datatype OnionDataRequest = OnionDataRequest(inner: seq<byte>, onionReturn: OnionReturn)

  datatype InnerOnionResponse = AnnounceResponse(announce: seq<byte>) | DataResponse(data: seq<byte>)

  datatype OnionResponse3 = OnionResponse3(onionReturn: OnionReturn, payload: InnerOnionResponse)
  datatype OnionResponse2 = OnionResponse2(onionReturn: OnionReturn, payload: InnerOnionResponse)
  datatype OnionResponse1 = OnionResponse1(onionReturn: OnionReturn, payload: InnerOnionResponse)

  /** The packet kinds this model sends or receives. */
  datatype DhtPacket =
    | PingResponsePacket(pingResponse: PingResponse)
    | NodesRequestPacket(nodesRequest: NodesRequest)
    | DhtRequestPacket(dhtRequest: DhtRequest)
    | LanDiscoveryPacket(lanDiscovery: LanDiscovery)
    | OnionRequest0Packet(onionRequest0: OnionRequest0)
    | OnionRequest1Packet(onionRequest1: OnionRequest1)
    | OnionRequest2Packet(onionRequest2: OnionRequest2)
    | OnionAnnounceRequestPacket(announceRequest: OnionAnnounceRequest)
    | OnionDataRequestPacket(dataRequest: OnionDataRequest)
    | OnionResponse3Packet(onionResponse3: OnionResponse3)
    | OnionResponse2Packet(onionResponse2: OnionResponse2)
    | OnionResponse1Packet(onionResponse1: OnionResponse1)
    | OnionAnnounceResponsePacket(announceResponse: seq<byte>)
    | OnionDataResponsePacket(dataResponse: seq<byte>)
}
