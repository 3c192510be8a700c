/**
  Integer helpers shared by the packing operations: the 32-bit unsigned
  values of the uniform parameter record, the conversion of a 64-bit size to
  such a value, and the ceiling division `div_up` used to size packed images.
*/
module Arith {

  const TWO_TO_32: nat := 0x1_0000_0000
  const TWO_TO_31: nat := 0x8000_0000

  /** A `uint32_t`. */
  type u32 = x: nat | x < 0x1_0000_0000

  /** Conversion of a non-negative integer to `uint32_t`: only the low 32 bits survive,
      so the result is the unique 32-bit value congruent to `x`. */
  function Wrap32(x: nat): (r: u32)
    ensures x < TWO_TO_32 ==> r == x
    ensures r <= x
    ensures (x - r) % TWO_TO_32 == 0
  {
    x % TWO_TO_32
  }

  /** `q` blocks of `b` elements cover `a` elements, and dropping one block would not. */
  predicate Covers(q: int, a: int, b: int) {
    q * b >= a && (q - 1) * b < a
  }

  /** Ceiling division `div_up(a, b)`, computed as `(a + b - 1) / b`. */
  function DivUp(a: nat, b: nat): (q: nat)
    requires b > 0
    ensures Covers(q, a, b)
    ensures q <= a
  {
    var q := (a + b - 1) / b;
    assert q * b + (a + b - 1) % b == a + b - 1;
    q
  }

  /** Multiplying by a non-negative factor preserves order. */
  lemma MulMonotone(x: int, y: int, b: nat)
    requires x <= y
    ensures x * b <= y * b
  {
  }

  /** Covering is a characterisation: the ceiling quotient is the only count of
      blocks that covers `a` without a block to spare. */
  lemma DivUpUnique(a: nat, b: nat, q: int)
    requires b > 0
    requires Covers(q, a, b)
    ensures q == DivUp(a, b)
  {
    var r := DivUp(a, b);
    if q > r {
      MulMonotone(r, q - 1, b);
      assert false;
    } else if q < r {
      MulMonotone(q, r - 1, b);
      assert false;
    }
  }
}
