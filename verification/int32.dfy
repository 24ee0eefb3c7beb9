/** JavaScript's ToInt32 conversion: the result of every bitwise operator is the
    operand taken modulo 2^32 and read as a signed 32-bit integer. */
module Int32 {

  const Modulus: int := 0x1_0000_0000
  const Half: int := 0x8000_0000

  predicate IsInt32(x: int)
  {
    -Half <= x < Half
  }

  /** The signed 32-bit integer congruent to `x` modulo 2^32. */
  function ToInt32(x: int): (r: int)
    ensures IsInt32(r)
    ensures (x - r) % Modulus == 0
    ensures IsInt32(x) ==> r == x
  {
    var m := x % Modulus;
    if m >= Half then m - Modulus else m
  }

  /** ToInt32 depends only on its argument modulo 2^32. */
  lemma {:induction false} Congruent(x: int, y: int, k: int)
    requires x == y + k * Modulus
    ensures ToInt32(x) == ToInt32(y)
  {
    var rx, ry := ToInt32(x), ToInt32(y);
    assert (rx - ry) % Modulus == 0 by {
      assert rx - ry == (x - ry) - (x - rx);
      assert (x - ry) % Modulus == 0 by {
        assert x - ry == (y - ry) + k * Modulus;
      }
    }
    assert -Modulus < rx - ry < Modulus;
  }
}
