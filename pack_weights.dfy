/** Packing of the per-client weight table into the single `i_weight`
    signal value (`pack_weights` of the testbench): client i's weight,
    masked to `width` bits, occupies bits [i*width, (i+1)*width). */
module WeightPacking {
  import opened Bits

  /** Reference value of the packed signal: the first weight, reduced to
      `width` bits, in the low field, and the packing of the rest above it. */
  function Packed(ws: seq<nat>, width: nat): nat
  {
    if |ws| == 0 then 0
    else ws[0] % Pow2(width) + Shl(Packed(ws[1..], width), width)
  }

  /** The testbench's loop: each weight in turn is masked to `width` bits,
      shifted up to its field and or-ed into the accumulated value. */
  method PackWeights(ws: seq<nat>, width: nat) returns (packed: nat)
    ensures packed == Packed(ws, width)
    ensures forall i :: 0 <= i < |ws| ==> Field(packed, i * width, width) == ws[i] % Pow2(width)
    ensures packed < Pow2(|ws| * width)
  {
    packed := 0;
    var i := 0;
    while i < |ws|
      invariant i <= |ws|
      invariant packed == Packed(ws[..i], width)
    {
      var mask := Pow2(width) - 1;
      var field := Shl(And(ws[i], mask), i * width);
      AndLowMask(ws[i], width);
      PackedBound(ws[..i], width);
      OrDisjoint(packed, ws[i] % Pow2(width), i * width);
      PackedSnoc(ws[..i], ws[i], width);
      assert ws[..i + 1] == ws[..i] + [ws[i]];
      packed := Or(packed, field);
      i := i + 1;
    }
    assert ws[..i] == ws;
    forall i | 0 <= i < |ws|
      ensures Field(packed, i * width, width) == ws[i] % Pow2(width)
    {
      PackedField(ws, width, i);
    }
    PackedBound(ws, width);
  }

  /** Appending a weight places it, masked, in the field just above the others. */
  lemma {:induction false} PackedSnoc(ws: seq<nat>, x: nat, width: nat)
    ensures Packed(ws + [x], width) == Packed(ws, width) + Shl(x % Pow2(width), |ws| * width)
  {
    var m := x % Pow2(width);
    if |ws| == 0 {
      assert Packed([x], width) == m + Shl(Packed([], width), width);
    } else {
      var n := |ws|;
      assert (ws + [x])[1..] == ws[1..] + [x];
      PackedSnoc(ws[1..], x, width);
      var r := Packed(ws[1..], width);
      var k := (n - 1) * width;
      ShlAdd(r, Shl(m, k), width);
      ShlShl(m, k, width);
      MulPred(n, width);
    }
  }

  /** Bits at and above |ws|*width are zero: the packed value is below 2^(|ws|*width). */
  lemma {:induction false} PackedBound(ws: seq<nat>, width: nat)
    ensures Packed(ws, width) < Pow2(|ws| * width)
  {
    if |ws| > 0 {
      var n := |ws|;
      var p := Pow2(width);
      var r := Packed(ws[1..], width);
      PackedBound(ws[1..], width);
      var k := (n - 1) * width;
      var low := ws[0] % p;
      assert low < p;
      MulMonotone(r + 1, Pow2(k), p);
      assert (r + 1) * p == r * p + p;
      assert low + r * p < Pow2(k) * p;
      Pow2Add(k, width);
      MulPred(n, width);
      assert Pow2(k) * p == Pow2(n * width);
      assert Packed(ws, width) == low + r * p;
    }
  }

  /** Extracting bits [i*width, (i+1)*width) gives weight i reduced mod 2^width. */
  lemma {:induction false} PackedField(ws: seq<nat>, width: nat, i: nat)
    requires i < |ws|
    ensures Field(Packed(ws, width), i * width, width) == ws[i] % Pow2(width)
  {
    var p := Pow2(width);
    var low := ws[0] % p;
    var r := Packed(ws[1..], width);
    if i == 0 {
      DivModUnique(Packed(ws, width), p, r, low);
    } else {
      assert i * width == width + (i - 1) * width;
      ShrAdd(Packed(ws, width), width, (i - 1) * width);
      ShrOverShl(low, r, width);
      PackedField(ws[1..], width, i - 1);
    }
  }

  /** Fields of different clients never overlap: changing weight j leaves
      every other client's field unchanged. */
  lemma PackedFieldsIndependent(ws: seq<nat>, width: nat, j: nat, x: nat, i: nat)
    requires j < |ws| && i < |ws| && i != j
    ensures Field(Packed(ws[j := x], width), i * width, width) == Field(Packed(ws, width), i * width, width)
  {
    PackedField(ws, width, i);
    PackedField(ws[j := x], width, i);
  }

  /** Nothing above the table: shifting out all |ws| fields leaves 0. */
  lemma PackedHighBitsZero(ws: seq<nat>, width: nat)
    ensures Shr(Packed(ws, width), |ws| * width) == 0
  {
    PackedBound(ws, width);
    ShrBelow(Packed(ws, width), |ws| * width);
  }
}
