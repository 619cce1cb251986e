/** XOR on 32-bit words and its laws. */
module Bits {
  /** XOR under a name, so that proofs can treat it as an abstract operation. */
  function Xor(a: bv32, b: bv32): bv32 { a ^ b }

  lemma XorAssoc(x: bv32, y: bv32, z: bv32)
    ensures Xor(Xor(x, y), z) == Xor(x, Xor(y, z))
    ensures Xor(x, y) == Xor(y, x)
    ensures Xor(x, 0) == x
    ensures Xor(x, x) == 0
  {}

  lemma XorIs(a: bv32, b: bv32)
    ensures Xor(a, b) == a ^ b
  {}

  lemma XorRange(a: bv32, b: bv32)
    requires a < 0x4000_0000 && b < 0x4000_0000
    ensures Xor(a, b) < 0x4000_0000
  {}

  lemma XorCancel(a: bv32, b: bv32)
    ensures Xor(a, Xor(a, b)) == b
  {}
}
