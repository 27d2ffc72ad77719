/** An onion path: three relay nodes and, per hop, the key the client encrypts that hop's layer with. */
module OnionPath {
  import opened Basics
  import opened Crypto
  import opened DhtNodes

  datatype Path = Path(number: u32, publicKeys: seq<PublicKey>, precomputedKeys: seq<PrecomputedKey>, nodes: seq<DhtNode>)

  /** The three fixed-size arrays of the record. */
  predicate WellFormed(p: Path) {
    |p.publicKeys| == 3 && |p.precomputedKeys| == 3 && |p.nodes| == 3
  }

  /**
   `Path::new`. Hop 1 uses the caller's own key pair; hops 2 and 3 use the
   fresh secret keys `sk2` and `sk3` drawn by `gen_keypair`. The source indexes
   `nodes[0..3]` and panics on fewer nodes.
   */
  function NewPath(keypair: (PublicKey, SecretKey), nodes: seq<DhtNode>, sk2: SecretKey, sk3: SecretKey): (p: Path)
    requires |nodes| >= 3
    ensures WellFormed(p)
    ensures p.number == 0
    ensures p.nodes == nodes[..3]
    ensures p.publicKeys[0] == keypair.0
    ensures p.precomputedKeys[0] == Precompute(nodes[0].pk, keypair.1)
    ensures p.publicKeys[1] == PublicKeyOf(sk2) && p.precomputedKeys[1] == Precompute(nodes[1].pk, sk2)
    ensures p.publicKeys[2] == PublicKeyOf(sk3) && p.precomputedKeys[2] == Precompute(nodes[2].pk, sk3)
  {
    Path(
      0,
      [keypair.0, PublicKeyOf(sk2), PublicKeyOf(sk3)],
      [Precompute(nodes[0].pk, keypair.1), Precompute(nodes[1].pk, sk2), Precompute(nodes[2].pk, sk3)],
      [nodes[0], nodes[1], nodes[2]])
  }

  /**
   Each relay derives its hop key from the public key the client announces for
   that hop and its own secret key, provided the caller's key pair matches.
   */
  lemma PathKeysAgree(keypair: (PublicKey, SecretKey), nodes: seq<DhtNode>, sk2: SecretKey, sk3: SecretKey, relaySks: seq<SecretKey>)
    requires |nodes| >= 3 && |relaySks| == 3
    requires keypair.0 == PublicKeyOf(keypair.1)
    requires forall i :: 0 <= i < 3 ==> nodes[i].pk == PublicKeyOf(relaySks[i])
    ensures var p := NewPath(keypair, nodes, sk2, sk3);
      forall i :: 0 <= i < 3 ==> p.precomputedKeys[i] == Precompute(p.publicKeys[i], relaySks[i])
  {
    var p := NewPath(keypair, nodes, sk2, sk3);
    PrecomputeSymmetric(keypair.1, relaySks[0]);
    PrecomputeSymmetric(sk2, relaySks[1]);
    PrecomputeSymmetric(sk3, relaySks[2]);
    assert forall i :: 0 <= i < 3 ==> p.precomputedKeys[i] == Precompute(p.publicKeys[i], relaySks[i]) by {
      assert p.precomputedKeys[0] == Precompute(p.publicKeys[0], relaySks[0]);
      assert p.precomputedKeys[1] == Precompute(p.publicKeys[1], relaySks[1]);
      assert p.precomputedKeys[2] == Precompute(p.publicKeys[2], relaySks[2]);
    }
  }
}
