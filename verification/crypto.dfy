/**
 A symbolic model of the NaCl primitives the DHT node uses. Keys are
 identified by a number; a ciphertext is a term that remembers the key and
 nonce it was sealed under, so opening succeeds exactly when both match and
 fails on anything else, including bytes an attacker made up.
 */
module Crypto {
  import opened Basics

  datatype SecretKey = SecretKey(id: nat)
  datatype PublicKey = PublicKey(id: nat)

  /** Shared key of a crypto_box: derived from one side's public and the other side's secret key. */
  datatype PrecomputedKey = PrecomputedKey(lo: nat, hi: nat)

  /** Key of a crypto_secretbox (symmetric, used for onion returns). */
  datatype SymKey = SymKey(id: nat)

  datatype Nonce = Nonce(value: nat)

  /** An authenticated ciphertext of a `T` under a key of type `K`. */
  datatype Sealed<K, T> = Sealed(key: K, nonce: Nonce, plain: T) | Forged(bytes: seq<byte>)

  function PublicKeyOf(sk: SecretKey): PublicKey {
    PublicKey(sk.id)
  }

  /** `precompute(pk, sk)`: the pair of identities, order forgotten. */
  function Precompute(pk: PublicKey, sk: SecretKey): PrecomputedKey {
    if pk.id <= sk.id then PrecomputedKey(pk.id, sk.id) else PrecomputedKey(sk.id, pk.id)
  }

  function Seal<K, T>(key: K, nonce: Nonce, plain: T): Sealed<K, T> {
    Sealed(key, nonce, plain)
  }

  /** Authenticated decryption: the plaintext when key and nonce match, `None` otherwise. */
  function Open<K(==), T>(key: K, nonce: Nonce, c: Sealed<K, T>): (r: Option<T>)
    ensures r.Some? <==> c.Sealed? && c.key == key && c.nonce == nonce
    ensures r.Some? ==> r.value == c.plain
  {
    match c
    case Sealed(k, n, x) => if k == key && n == nonce then Some(x) else None
    case Forged(_) => None
  }

  /** Opening what was sealed under the same key and nonce gives back the plaintext. */
  lemma OpenSeal<K, T>(key: K, nonce: Nonce, plain: T)
    ensures Open(key, nonce, Seal(key, nonce, plain)) == Some(plain)
  {}

  /** Opening under a different key fails. */
  lemma OpenWrongKey<K, T>(key: K, other: K, nonce: Nonce, plain: T)
    requires other != key
    ensures Open(other, nonce, Seal(key, nonce, plain)) == None
  {}

  /** Both ends of a box derive the same key: shared(A.secret, B.public) == shared(B.secret, A.public). */
  lemma PrecomputeSymmetric(a: SecretKey, b: SecretKey)
    ensures Precompute(PublicKeyOf(b), a) == Precompute(PublicKeyOf(a), b)
  {}

  /** A shared key determines the two parties: nobody outside the pair derives it. */
  lemma PrecomputeDeterminesParties(pa: PublicKey, sa: SecretKey, pb: PublicKey, sb: SecretKey)
    requires Precompute(pa, sa) == Precompute(pb, sb)
    ensures {pa.id, sa.id} == {pb.id, sb.id}
  {}
}
