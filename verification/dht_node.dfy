/**
 The parts of a close-list entry the server reads or writes. The entry's own
 file (dht_node.rs) is not part of this model: one socket address stands for
 the entry's IPv4/IPv6 association.
 */
module DhtNodes {
  import opened Basics
  import opened Crypto
  import opened Net

  datatype DhtNode = DhtNode(pk: PublicKey, saddr: SocketAddr, lastRespTimeV4: nat, lastRespTimeV6: nat)

  datatype PackedNode = PackedNode(pk: PublicKey, saddr: SocketAddr)

  /** `DhtNode -> PackedNode`. */
  function ToPacked(node: DhtNode): PackedNode
  {
    PackedNode(node.pk, node.saddr)
  }

  /** The key of a close-list entry. */
  function NodePk(node: DhtNode): PublicKey {
    node.pk
  }

  /**
   Index of the first element whose key, under `key`, is `pk`: the linear
   search of `get_node` over the close list and of `find` over the friends.
   */
  function FindByKey<T>(xs: seq<T>, key: T -> PublicKey, pk: PublicKey): (r: Option<nat>)
    ensures r.Some? ==> r.value < |xs| && key(xs[r.value]) == pk
    ensures r.Some? ==> forall j :: 0 <= j < r.value ==> key(xs[j]) != pk
    ensures r.None? <==> forall j :: 0 <= j < |xs| ==> key(xs[j]) != pk
  {
    if |xs| == 0 then None
    else if key(xs[0]) == pk then Some(0)
    else match FindByKey(xs[1..], key, pk)
      case Some(i) => Some(i + 1)
      case None => None
  }
}
