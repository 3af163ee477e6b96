/** Decoding of the one-hot grant vector `o_gnt` into a client index
    (`get_grant_index` of the testbench). */
module GrantDecode {
  import opened Bits

  /** Reference meaning of a grant value: -1 when no client is granted
      (nothing set, or the single set bit lies outside the client range),
      -2 when more than one bit is set, otherwise the granted client. */
  function GrantIndex(v: nat, numClients: int): int
  {
    if v == 0 then -1
    else if !IsPow2(v) then -2
    else if Log2(v) < numClients then Log2(v)
    else -1
  }

  /** The testbench's decoder: the zero test, the power-of-two test (v and
      its predecessor share no set bit), then a scan of bits
      0 .. numClients-1 that returns the first set one. */
  method GetGrantIndex(v: nat, numClients: int) returns (r: int)
    ensures r == GrantIndex(v, numClients)
  {
    if v == 0 {
      return -1;
    }
    AndPredecessor(v);
    if And(v, v - 1) != 0 {
      return -2;
    }
    var i := 0;
    while i < numClients
      invariant 0 <= i && (i == 0 || i <= numClients)
      invariant forall j :: 0 <= j < i ==> Bit(v, j) == 0
    {
      AndOne(Shr(v, i));
      BitOfOneHot(v, i);
      if And(Shr(v, i), 1) == 1 {
        return i;
      }
      i := i + 1;
    }
    BitOfOneHot(v, Log2(v));
    return -1;
  }

  /** Round trip: the grant vector `1 << i` decodes to i when i names a
      client, and to -1 (no grant) when the bit lies beyond the clients. */
  lemma GrantIndexOfOneHot(i: nat, numClients: int)
    ensures GrantIndex(Pow2(i), numClients) == if i < numClients then i else -1
  {
    Log2OfPow2(i);
  }

  /** A non-negative decode names a client whose one-hot vector is exactly v. */
  lemma GrantIndexNamesOneHot(v: nat, numClients: int)
    ensures GrantIndex(v, numClients) >= 0 ==>
              GrantIndex(v, numClients) < numClients && v == Pow2(GrantIndex(v, numClients))
  {
    if v != 0 && IsPow2(v) {
      Pow2OfLog2(v);
    }
  }

  /** -2 is returned exactly when at least two distinct bits of v are set. */
  lemma GrantIndexMultiple(v: nat, numClients: int)
    ensures GrantIndex(v, numClients) == -2 <==>
              exists j: nat, k: nat :: j < k && Bit(v, j) == 1 && Bit(v, k) == 1
  {
    if GrantIndex(v, numClients) == -2 {
      var j, k := TwoSetBits(v);
    } else {
      forall j: nat, k: nat | j < k && Bit(v, j) == 1
        ensures Bit(v, k) != 1
      {
        if v == 0 {
          ShrZero(j);
        } else {
          BitOfOneHot(v, j);
          BitOfOneHot(v, k);
        }
      }
    }
  }
}
