/** `nearest_odd` of the readout module: the smoothing window size of the charts. */
module Readout {

  /** The quotient of a non-negative `a` by a positive `b` brackets `a` between two multiples of `b`. */
  lemma DivBounds(a: int, b: int)
    requires a >= 0 && b > 0
    ensures 0 <= a / b && (a / b) * b <= a < (a / b + 1) * b
  {
    var q, r := a / b, a % b;
    assert a == b * q + r && 0 <= r < b;
    assert (q + 1) * b == q * b + b;
    assert q * b == b * q;
  }

  /** `int(x)` for `x = num / den`: truncation toward zero. */
  function Truncate(num: int, den: int): (n: int)
    requires den > 0
    ensures num >= 0 ==> 0 <= n && n * den <= num < (n + 1) * den
    ensures num < 0 ==> n <= 0 && (n - 1) * den < num <= n * den
  {
    if num >= 0 then
      DivBounds(num, den);
      num / den
    else
      var q := (-num) / den;
      DivBounds(-num, den);
      assert (-q) * den == -(q * den) && (-q - 1) * den == -((q + 1) * den);
      -q
  }

  /**
    `nearest_odd(x) = 2 * floor(int(x) / 2) + 1`: `int(x)` itself when it is
    odd, the next integer when it is even (zero and negatives included).
   */
  function NearestOdd(num: int, den: int): (r: int)
    requires den > 0
    ensures r % 2 == 1
    ensures Truncate(num, den) <= r <= Truncate(num, den) + 1
    ensures Truncate(num, den) % 2 == 1 ==> r == Truncate(num, den)
    ensures Truncate(num, den) % 2 == 0 ==> r == Truncate(num, den) + 1
  {
    var n := Truncate(num, den);
    2 * (n / 2) + 1
  }

  /** Applying nearest_odd to its own result changes nothing. */
  lemma NearestOddIdempotent(num: int, den: int)
    requires den > 0
    ensures NearestOdd(NearestOdd(num, den), 1) == NearestOdd(num, den)
  {
    var r := NearestOdd(num, den);
    assert Truncate(r, 1) == r;
  }
}
