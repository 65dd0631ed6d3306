/** C++ scalar types used by the model. */
module CTypes {
  /** C++ `int` (32 bits, two's complement). */
  newtype int32 = x: int | -0x8000_0000 <= x < 0x8000_0000

  /** The 32-bit two's complement pattern of an int. */
  function ToBits(x: int32): bv32
  {
    if x >= 0 then x as int as bv32 else (x as int + 0x1_0000_0000) as bv32
  }

  /** The int whose 32-bit pattern is `b`. */
  function FromBits(b: bv32): int32
  {
    if b < 0x8000_0000 then b as int as int32 else (b as int - 0x1_0000_0000) as int32
  }

  /** Every 32-bit pattern is the pattern of the int FromBits gives, so the OR of two
      patterns is again the pattern of an int (the one IntOr returns). */
  lemma ToFromBits(b: bv32)
    ensures ToBits(FromBits(b)) == b
  {
    if b >= 0x8000_0000 {
      assert FromBits(b) as int + 0x1_0000_0000 == b as int;
    }
  }

  /** C++ `a | b` on ints: the OR of their bit patterns. */
  function IntOr(a: int32, b: int32): (r: int32)
    ensures ToBits(r) == ToBits(a) | ToBits(b)
  {
    ToFromBits(ToBits(a) | ToBits(b));
    FromBits(ToBits(a) | ToBits(b))
  }
}
