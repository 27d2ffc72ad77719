/** Small helpers shared by the DHT code; randomness arrives as explicit draws. */
module Utils {
  import opened Basics

  /**
   `gen_ping_id`: draws 64-bit values until one is non-zero. `draws` is the
   stream of the random source; `used` is how many values were consumed.
   */
  method GenPingId(draws: seq<u64>) returns (pingId: u64, used: nat)
    requires exists i :: 0 <= i < |draws| && draws[i] != 0
    ensures pingId != 0
    ensures 0 < used <= |draws| && pingId == draws[used - 1]
    ensures forall j :: 0 <= j < used - 1 ==> draws[j] == 0
  {
    pingId := 0;
    used := 0;
    while pingId == 0
      invariant used <= |draws|
      invariant pingId == 0 ==> forall j :: 0 <= j < used ==> draws[j] == 0
      invariant pingId == 0 ==> exists i :: used <= i < |draws| && draws[i] != 0
      invariant pingId != 0 ==> 0 < used && pingId == draws[used - 1]
      invariant pingId != 0 ==> forall j :: 0 <= j < used - 1 ==> draws[j] == 0
      decreases |draws| - used, if pingId == 0 then 1 else 0
    {
      pingId := draws[used];
      used := used + 1;
    }
  }

  /** `random_element`: `None` for an empty slice, otherwise the element at `draw % len`. */
  function RandomElement<T>(slice: seq<T>, draw: u64): (r: Option<T>)
    ensures r.None? <==> |slice| == 0
    ensures r.Some? ==> r.value in slice
    ensures |slice| == 1 ==> r == Some(slice[0])
  {
    if |slice| == 0 then None
    else Some(slice[draw % |slice|])
  }

  /** Every position of a non-empty slice is chosen by some draw. */
  lemma RandomElementCovers<T>(slice: seq<T>, i: nat)
    requires i < |slice| < U64_LIMIT
    ensures RandomElement(slice, i) == Some(slice[i])
  {
    ModOfSmaller(i, |slice|);
  }

  /** A value below the modulus is its own remainder. */
  lemma ModOfSmaller(a: nat, m: nat)
    requires a < m
    ensures a % m == a
  {}
}
