/**
 * The C# `Int32` that the image geometry is computed in. C# evaluates `+`, `-`
 * and `*` on `Int32` in an unchecked context by default, so a result that does
 * not fit wraps around modulo 2^32 (two's complement).
 */
module Int32Arith {
  const MinInt32: int := -0x8000_0000
  const MaxInt32: int := 0x7FFF_FFFF
  const Modulus: int := 0x1_0000_0000

  type Int32 = x: int | -0x8000_0000 <= x <= 0x7FFF_FFFF

  predicate InRange(x: int) {
    MinInt32 <= x <= MaxInt32
  }

  /** The Int32 that an unchecked C# operation yields for the exact result `x`. */
  function Wrap(x: int): (r: Int32)
    ensures InRange(x) ==> r == x
  {
    Reduce(x)
  }

  /** `x` shifted by multiples of 2^32 into the Int32 range. */
  function Reduce(x: int): (r: Int32)
    ensures InRange(x) ==> r == x
    decreases if x < MinInt32 then MaxInt32 - x else x - MinInt32
  {
    if x < MinInt32 then Reduce(x + Modulus)
    else if x > MaxInt32 then Reduce(x - Modulus)
    else x
  }

  /** The wrapped value differs from the exact one by a multiple of 2^32. */
  lemma WrapIsCongruent(x: int)
    ensures (x - Wrap(x)) % Modulus == 0
  {
    ReduceIsCongruent(x);
  }

  lemma {:induction false} ReduceIsCongruent(x: int)
    ensures (x - Reduce(x)) % Modulus == 0
    decreases if x < MinInt32 then MaxInt32 - x else x - MinInt32
  {
    if x < MinInt32 {
      ReduceIsCongruent(x + Modulus);
    } else if x > MaxInt32 {
      ReduceIsCongruent(x - Modulus);
    }
  }

  /** Two Int32 values that differ by a multiple of 2^32 are equal. */
  lemma CongruentInt32sAreEqual(a: Int32, b: Int32)
    requires (a - b) % Modulus == 0
    ensures a == b
  {
  }

  /** Two integers that differ by a multiple of 2^32 wrap to the same Int32. */
  lemma WrapCongruent(x: int, y: int)
    requires (x - y) % Modulus == 0
    ensures Wrap(x) == Wrap(y)
  {
    WrapIsCongruent(x);
    WrapIsCongruent(y);
    CongruentInt32sAreEqual(Wrap(x), Wrap(y));
  }

  /** Wrapping an intermediate result of a subtraction does not change the wrapped result. */
  lemma WrapSub(a: int, c: int)
    ensures Wrap(a - Wrap(c)) == Wrap(a - c)
  {
    WrapIsCongruent(c);
    assert ((a - Wrap(c)) - (a - c)) == c - Wrap(c);
    WrapCongruent(a - Wrap(c), a - c);
  }

  /** Wrapping an intermediate result of an addition does not change the wrapped result. */
  lemma WrapAdd(a: int, c: int)
    ensures Wrap(a + Wrap(c)) == Wrap(a + c)
  {
    WrapIsCongruent(c);
    assert ((a + Wrap(c)) - (a + c)) == -(c - Wrap(c));
    WrapCongruent(a + Wrap(c), a + c);
  }
}
