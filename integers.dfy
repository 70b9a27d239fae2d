/** Fixed-width unsigned integers of the C++ source, as subset types of `int`. */
module Integers {

  const TWO_TO_8: int := 0x100
  const TWO_TO_16: int := 0x1_0000
  const TWO_TO_32: int := 0x1_0000_0000

  type Uint8 = x: int | 0 <= x < TWO_TO_8
  type Uint16 = x: int | 0 <= x < TWO_TO_16
  /** `unsigned` on the targets the source is built for. */
  type Uint32 = x: int | 0 <= x < TWO_TO_32

  /** Bytes of a `byte_buffer`. */
  type Bytes = seq<Uint8>

  /** Quotient and remainder are the unique pair with x == q * n + r and 0 <= r < n. */
  lemma DivModUnique(x: int, n: int, q: int, r: int)
    requires n > 0 && 0 <= r < n && x == q * n + r
    ensures x / n == q && x % n == r
  {
    var q', r' := x / n, x % n;
    assert x == q' * n + r';
    assert (q - q') * n == r' - r;
    if q > q' {
      assert (q - q') * n >= n by { MulAtLeast(q - q', n); }
    } else if q < q' {
      assert (q' - q) * n >= n by { MulAtLeast(q' - q, n); }
    }
  }

  lemma MulAtLeast(k: int, n: int)
    requires k >= 1 && n > 0
    ensures k * n >= n
  {
  }
}
