/** Arithmetic view of the bit operations the testbench applies to Python
    integers: shifts, bitwise AND / OR, powers of two and bit fields.
    All values are non-negative, as every signal value and weight is. */
module Bits {

  /** 2^k, the value of `1 << k`. */
  function Pow2(k: nat): (r: nat)
    ensures r >= 1
    ensures k >= 1 ==> r % 2 == 0
  {
    if k == 0 then 1 else 2 * Pow2(k - 1)
  }

  /** `v >> k`: k halvings, each dropping the lowest bit. */
  function Shr(v: nat, k: nat): nat
  {
    if k == 0 then v else Shr(v / 2, k - 1)
  }

  /** `v << k`. */
  function Shl(v: nat, k: nat): nat
  {
    v * Pow2(k)
  }

  /** Bit i of v, i.e. `(v >> i) % 2`. */
  function Bit(v: nat, i: nat): nat
  {
    Shr(v, i) % 2
  }

  /** The w-bit field of v that starts at bit lo: bits [lo, lo + w). */
  function Field(v: nat, lo: nat, w: nat): nat
  {
    Shr(v, lo) % Pow2(w)
  }

  /** Bitwise AND, `a & b`, defined bit by bit from the least significant end. */
  function And(a: nat, b: nat): (r: nat)
    ensures r <= a && r <= b
    decreases a
  {
    if a == 0 || b == 0 then 0
    else 2 * And(a / 2, b / 2) + (if a % 2 == 1 && b % 2 == 1 then 1 else 0)
  }

  /** Bitwise OR, `a | b`, defined bit by bit from the least significant end. */
  function Or(a: nat, b: nat): (r: nat)
    ensures a <= r && b <= r && r <= a + b
    decreases a
  {
    if a == 0 then b
    else if b == 0 then a
    else 2 * Or(a / 2, b / 2) + (if a % 2 == 1 || b % 2 == 1 then 1 else 0)
  }

  /** v has exactly one bit set. */
  predicate IsPow2(v: nat)
  {
    v == 1 || (v > 1 && v % 2 == 0 && IsPow2(v / 2))
  }

  /** Position of the highest set bit of v (0 for v <= 1). */
  function Log2(v: nat): nat
  {
    if v <= 1 then 0 else 1 + Log2(v / 2)
  }

  // ---------------------------------------------------------------------
  // Integer division facts
  // ---------------------------------------------------------------------

  lemma DivModUnique(x: int, d: int, q: int, r: int)
    requires d > 0 && 0 <= r < d && x == q * d + r
    ensures x / d == q && x % d == r
  {
    var q', r' := x / d, x % d;
    assert (q' - q) * d == r - r';
    if q' > q {
      MulAtLeast(q' - q, d);
    } else if q' < q {
      MulAtLeast(q - q', d);
    }
  }

  lemma MulAtLeast(k: int, d: int)
    requires k >= 1 && d > 0
    ensures k * d >= d
  {
  }

  /** x mod 2^(k+1) splits into its lowest bit and (x/2) mod 2^k. */
  lemma ModDouble(x: nat, p: nat)
    requires p >= 1
    ensures x % (2 * p) == 2 * ((x / 2) % p) + x % 2
  {
    var q, r := (x / 2) / p, (x / 2) % p;
    assert x / 2 == q * p + r;
    assert x == q * (2 * p) + (2 * r + x % 2);
    DivModUnique(x, 2 * p, q, 2 * r + x % 2);
  }

  /** Dividing by 2p is halving and then dividing by p. */
  lemma DivDouble(x: nat, p: nat)
    requires p >= 1
    ensures x / (2 * p) == (x / 2) / p
  {
    var q, r := (x / 2) / p, (x / 2) % p;
    assert x / 2 == q * p + r;
    assert x == q * (2 * p) + (2 * r + x % 2);
    DivModUnique(x, 2 * p, q, 2 * r + x % 2);
  }

  /** For 0 <= x < 2n, reducing modulo n subtracts n at most once. */
  lemma ModOnce(x: int, n: int)
    requires n >= 1 && 0 <= x < 2 * n
    ensures x % n == if x < n then x else x - n
  {
    if x < n { DivModUnique(x, n, 0, x); } else { DivModUnique(x, n, 1, x - n); }
  }

  // ---------------------------------------------------------------------
  // Powers of two
  // ---------------------------------------------------------------------

  lemma {:induction false} Pow2Add(a: nat, b: nat)
    ensures Pow2(a + b) == Pow2(a) * Pow2(b)
  {
    if a > 0 {
      Pow2Add(a - 1, b);
      assert Pow2(a + b) == 2 * Pow2(a - 1 + b);
    }
  }

  /** `v >> k` is v divided by 2^k and rounded down. */
  lemma {:induction false} ShrIsFloorDiv(v: nat, k: nat)
    ensures Shr(v, k) == v / Pow2(k)
  {
    if k > 0 {
      ShrIsFloorDiv(v / 2, k - 1);
      DivDouble(v, Pow2(k - 1));
    }
  }

  lemma {:induction false} Log2OfPow2(k: nat)
    ensures IsPow2(Pow2(k)) && Log2(Pow2(k)) == k
  {
    if k > 0 {
      Log2OfPow2(k - 1);
      assert Pow2(k) / 2 == Pow2(k - 1);
    }
  }

  lemma {:induction false} Pow2OfLog2(v: nat)
    requires IsPow2(v)
    ensures Pow2(Log2(v)) == v
  {
    if v > 1 { Pow2OfLog2(v / 2); }
  }

  // ---------------------------------------------------------------------
  // Shifts and bits
  // ---------------------------------------------------------------------

  lemma {:induction false} ShrZero(k: nat)
    ensures Shr(0, k) == 0
  {
    if k > 0 { ShrZero(k - 1); }
  }

  lemma {:induction false} ShrAdd(x: nat, j: nat, k: nat)
    ensures Shr(x, j + k) == Shr(Shr(x, j), k)
  {
    if j > 0 { ShrAdd(x / 2, j - 1, k); }
  }

  /** Shifting right by k undoes a shift left by k, whatever lies below bit k. */
  lemma {:induction false} ShrOverShl(a: nat, b: nat, k: nat)
    requires a < Pow2(k)
    ensures Shr(a + Shl(b, k), k) == b
  {
    if k > 0 {
      assert b * Pow2(k) == 2 * (b * Pow2(k - 1));
      assert (a + b * Pow2(k)) / 2 == a / 2 + b * Pow2(k - 1);
      ShrOverShl(a / 2, b, k - 1);
    }
  }

  lemma ShlShl(y: nat, a: nat, b: nat)
    ensures Shl(Shl(y, a), b) == Shl(y, a + b)
  {
    Pow2Add(a, b);
    assert y * Pow2(a) * Pow2(b) == y * (Pow2(a) * Pow2(b));
  }

  lemma ShlAdd(a: nat, b: nat, k: nat)
    ensures Shl(a + b, k) == Shl(a, k) + Shl(b, k)
  {
    assert (a + b) * Pow2(k) == a * Pow2(k) + b * Pow2(k);
  }

  lemma MulPred(n: nat, w: nat)
    requires n >= 1
    ensures (n - 1) * w + w == n * w
  {
  }

  lemma MulMonotone(x: nat, y: nat, p: nat)
    requires x <= y
    ensures x * p <= y * p
  {
    assert y * p - x * p == (y - x) * p;
  }

  /** A value below 2^k has no bit at or above k. */
  lemma {:induction false} ShrBelow(x: nat, k: nat)
    requires x < Pow2(k)
    ensures Shr(x, k) == 0
  {
    if k > 0 { ShrBelow(x / 2, k - 1); }
  }

  /** 2^k has bit k set and no other. */
  lemma {:induction false} BitOfPow2(k: nat, i: nat)
    ensures Bit(Pow2(k), i) == if i == k then 1 else 0
  {
    if i > 0 {
      if k == 0 {
        ShrZero(i - 1);
      } else {
        assert Pow2(k) / 2 == Pow2(k - 1);
        BitOfPow2(k - 1, i - 1);
      }
    }
  }

  lemma {:induction false} BitOfHalf(v: nat, i: nat)
    ensures Bit(v, i + 1) == Bit(v / 2, i)
  {
  }

  /** A value with exactly one set bit has it at its Log2 position only. */
  lemma BitOfOneHot(v: nat, i: nat)
    requires IsPow2(v)
    ensures Bit(v, i) == if i == Log2(v) then 1 else 0
  {
    Pow2OfLog2(v);
    BitOfPow2(Log2(v), i);
  }

  /** Every non-zero value has its Log2 bit set. */
  lemma {:induction false} TopBitSet(v: nat)
    requires v >= 1
    ensures Bit(v, Log2(v)) == 1
  {
    if v > 1 {
      TopBitSet(v / 2);
      BitOfHalf(v, Log2(v / 2));
    }
  }

  /** A non-zero value that is not a power of two has two distinct set bits. */
  lemma {:induction false} TwoSetBits(v: nat) returns (j: nat, k: nat)
    requires v != 0 && !IsPow2(v)
    ensures j < k && Bit(v, j) == 1 && Bit(v, k) == 1
  {
    if v % 2 == 1 {
      TopBitSet(v / 2);
      BitOfHalf(v, Log2(v / 2));
      j, k := 0, Log2(v / 2) + 1;
    } else {
      var j', k' := TwoSetBits(v / 2);
      BitOfHalf(v, j');
      BitOfHalf(v, k');
      j, k := j' + 1, k' + 1;
    }
  }

  /** A set bit c means the value is at least 2^c. */
  lemma {:induction false} BitSetBound(v: nat, c: nat)
    requires Bit(v, c) == 1
    ensures v >= Pow2(c)
  {
    if c > 0 {
      BitSetBound(v / 2, c - 1);
    }
  }

  /** `v & ~(1 << c)`: v with bit c cleared. */
  function ClearBit(v: nat, c: nat): nat
  {
    if Bit(v, c) == 1 && v >= Pow2(c) then v - Pow2(c) else v
  }

  /** Clearing bit c turns that bit off and leaves every other bit as it was. */
  lemma {:induction false} ClearBitBits(v: nat, c: nat, i: nat)
    ensures Bit(ClearBit(v, c), i) == if i == c then 0 else Bit(v, i)
  {
    if Bit(v, c) == 1 {
      BitSetBound(v, c);
      var u := v - Pow2(c);
      if c == 0 {
        assert u / 2 == v / 2 && u % 2 == 0;
        if i > 0 { BitOfHalf(u, i - 1); BitOfHalf(v, i - 1); }
      } else {
        assert u / 2 == v / 2 - Pow2(c - 1) && u % 2 == v % 2;
        BitOfHalf(v, c - 1);
        if i > 0 {
          ClearBitBits(v / 2, c - 1, i - 1);
          BitOfHalf(u, i - 1);
          BitOfHalf(v, i - 1);
        }
      }
    }
  }

  // ---------------------------------------------------------------------
  // AND / OR
  // ---------------------------------------------------------------------

  lemma {:induction false} AndSelf(x: nat)
    ensures And(x, x) == x
  {
    if x > 0 { AndSelf(x / 2); }
  }

  /** `x & 1` is the lowest bit of x. */
  lemma AndOne(x: nat)
    ensures And(x, 1) == x % 2
  {
  }

  /** `a & ((1 << k) - 1)` keeps the k low bits of a: it is a mod 2^k. */
  lemma {:induction false} AndLowMask(a: nat, k: nat)
    ensures And(a, Pow2(k) - 1) == a % Pow2(k)
  {
    if k == 0 {
      assert Pow2(0) == 1;
    } else if a == 0 {
      DivModUnique(0, Pow2(k), 0, 0);
    } else {
      var p := Pow2(k - 1);
      var m := Pow2(k) - 1;
      assert m == 2 * (p - 1) + 1;
      assert m != 0 && m % 2 == 1 && m / 2 == p - 1;
      assert And(a, m) == 2 * And(a / 2, p - 1) + a % 2;
      AndLowMask(a / 2, k - 1);
      ModDouble(a, p);
    }
  }

  /** The test `v & (v - 1) == 0` holds of a non-zero v exactly when v is a power of two. */
  lemma {:induction false} AndPredecessor(v: nat)
    requires v >= 1
    ensures And(v, v - 1) == 0 <==> IsPow2(v)
  {
    if v > 1 {
      if v % 2 == 0 {
        assert (v - 1) / 2 == v / 2 - 1;
        AndPredecessor(v / 2);
      } else {
        assert (v - 1) / 2 == v / 2;
        AndSelf(v / 2);
      }
    }
  }

  /** OR-ing a value below 2^s with a value shifted left by s adds them: no bit overlaps. */
  lemma {:induction false} OrDisjoint(a: nat, b: nat, s: nat)
    requires a < Pow2(s)
    ensures Or(a, Shl(b, s)) == a + Shl(b, s)
  {
    if s > 0 && a > 0 && b > 0 {
      var p := Pow2(s - 1);
      assert b * Pow2(s) == 2 * (b * p);
      assert (b * Pow2(s)) / 2 == b * p && (b * Pow2(s)) % 2 == 0;
      assert b * p > 0;
      OrDisjoint(a / 2, b, s - 1);
    }
  }
}
