/** 32-bit signed integers as C# `int` has them: a bounded newtype, the two's-complement
    truncation that `unchecked` arithmetic performs, and the bit pattern used by `^`. */
module Int32 {

  const MIN: int := -0x8000_0000
  const MAX: int := 0x7fff_ffff
  const MODULUS: int := 0x1_0000_0000

  newtype int32 = v: int | -0x8000_0000 <= v < 0x8000_0000

  /** The 32-bit result of an `unchecked` C# operation whose exact value is `v`. */
  function Wrap(v: int): (r: int32)
    ensures (r as int - v) % MODULUS == 0
    ensures MIN <= v <= MAX ==> r as int == v
  {
    var m := v % MODULUS;
    if m <= MAX then m as int32 else (m - MODULUS) as int32
  }

  /** Two values that agree modulo 2^32 wrap to the same `int32`. */
  lemma WrapCongruent(a: int, b: int)
    requires (a - b) % MODULUS == 0
    ensures Wrap(a) == Wrap(b)
  {
    var q := (a - b) / MODULUS;
    assert a == b + q * MODULUS;
    assert a % MODULUS == b % MODULUS;
  }

  /** Adding to an already wrapped value wraps like adding to the exact value: an
      accumulator updated with `unchecked` `+=` always equals the wrapped exact sum. */
  lemma WrapAdd(a: int, b: int)
    ensures Wrap(Wrap(a) as int + b) == Wrap(a + b)
  {
    var w := Wrap(a) as int;
    assert ((w + b) - (a + b)) % MODULUS == 0 by {
      assert (w + b) - (a + b) == w - a;
    }
    WrapCongruent(w + b, a + b);
  }

  /** The bit pattern of a C# `int`. */
  function ToBits(v: int32): bv32
  {
    (if v < 0 then v as int + MODULUS else v as int) as bv32
  }

  /** The C# `int` whose bit pattern is `b`. */
  function FromBits(b: bv32): int32
  {
    if b as int <= MAX then b as int as int32 else (b as int - MODULUS) as int32
  }
}
