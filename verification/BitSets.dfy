/** Sets of discrete attribute values as the byte arrays of C4.5: value b is bit b mod 8 of byte
    b div 8. */
module BitSets {

  type Bits = seq<bv8>

  function Bit(k: nat): bv8
    requires k < 8
  {
    if k == 0 then 1 else if k == 1 then 2 else if k == 2 then 4 else if k == 3 then 8
    else if k == 4 then 16 else if k == 5 then 32 else if k == 6 then 64 else 128
  }

  /** The bytes needed for the values 0 to n. */
  function Bytes(n: nat): nat { n / 8 + 1 }

  function Cleared(bytes: nat): Bits { seq(bytes, _ => 0 as bv8) }

  predicate HasBit(x: bv8, k: nat)
    requires k < 8
  {
    x & Bit(k) != 0
  }

  predicate In(b: nat, s: Bits) { b / 8 < |s| && HasBit(s[b / 8], b % 8) }

  function WithBit(b: nat, s: Bits): Bits
    requires b / 8 < |s|
  {
    s[b / 8 := s[b / 8] | Bit(b % 8)]
  }

  function Union(s: Bits, t: Bits): Bits
    requires |s| == |t|
  {
    seq(|s|, i requires 0 <= i < |s| => s[i] | t[i])
  }

  lemma BitOr(x: bv8, y: bv8, k: nat)
    requires k < 8
    ensures HasBit(x | y, k) <==> HasBit(x, k) || HasBit(y, k)
  {
    AndOr(x, y, Bit(k));
  }

  lemma AndOr(x: bv8, y: bv8, z: bv8)
    ensures (x | y) & z != 0 <==> x & z != 0 || y & z != 0
  {}

  lemma OnlyBit(i: nat, j: nat)
    requires i < 8 && j < 8
    ensures HasBit(Bit(i), j) <==> i == j
  {}

  lemma InCleared(b: nat, bytes: nat)
    ensures !In(b, Cleared(bytes))
  {
    if b / 8 < bytes {
      assert Cleared(bytes)[b / 8] == 0;
    }
  }

  lemma InWithBit(b: nat, s: Bits, v: nat)
    requires b / 8 < |s|
    ensures In(v, WithBit(b, s)) <==> v == b || In(v, s)
  {
    hide HasBit, Bit;
    if v / 8 == b / 8 {
      BitOr(s[b / 8], Bit(b % 8), v % 8);
      OnlyBit(b % 8, v % 8);
    }
  }

  lemma InUnion(s: Bits, t: Bits, v: nat)
    requires |s| == |t|
    ensures In(v, Union(s, t)) <==> In(v, s) || In(v, t)
  {
    hide HasBit;
    if v / 8 < |s| {
      BitOr(s[v / 8], t[v / 8], v % 8);
    }
  }
}
