/** C integer semantics used by the rescaler: division that truncates toward
    zero, and the modular conversions to `uint64_t`, `uint32_t` and `int`. */
module CInt {

  const TWO_31: int := 0x8000_0000
  const TWO_32: int := 0x1_0000_0000
  const TWO_64: int := 0x1_0000_0000_0000_0000

  /** A value of C's 32-bit `int`. */
  type Int32 = x: int | -TWO_31 <= x < TWO_31

  /** `a / b` in C for a positive divisor: the quotient is truncated toward
      zero (Dafny's own `/` rounds toward minus infinity for positive `b`). */
  function CDiv(a: int, b: int): (q: int)
    requires b > 0
    ensures a >= 0 ==> 0 <= q && q * b <= a < q * b + b
    ensures a < 0 ==> q <= 0 && q * b - b < a <= q * b
  {
    if a >= 0 then
      var q := a / b;
      assert a == q * b + a % b && 0 <= a % b < b;
      q
    else
      var q := (-a) / b;
      assert -a == q * b + (-a) % b && 0 <= (-a) % b < b;
      assert (-q) * b == -(q * b);
      -q
  }

  /** Conversion to `uint64_t` (reduction modulo 2^64). */
  function ToU64(x: int): (r: int)
    ensures 0 <= r < TWO_64
    ensures 0 <= x < TWO_64 ==> r == x
    ensures (x - r) % TWO_64 == 0
  {
    x % TWO_64
  }

  /** Conversion to `uint32_t` (reduction modulo 2^32). */
  function ToU32(x: int): (r: int)
    ensures 0 <= r < TWO_32
    ensures 0 <= x < TWO_32 ==> r == x
    ensures (x - r) % TWO_32 == 0
  {
    x % TWO_32
  }

  /** Conversion to `int`: two's-complement wrap-around modulo 2^32, which is
      what the compilers libwebp targets do for an out-of-range value. */
  function ToInt32(x: int): (r: Int32)
    ensures -TWO_31 <= x < TWO_31 ==> r == x
    ensures (x - r) % TWO_32 == 0
  {
    var m := x % TWO_32;
    if m < TWO_31 then m else m - TWO_32
  }

  /** `(a + b - 1) / b` in C, for a positive `a`, is the ceiling of `a / b`:
      the least `q` with `q * b >= a`. */
  lemma CeilDivIsLeast(a: int, b: int)
    requires a > 0 && b > 0
    ensures CDiv(a + b - 1, b) >= 1
    ensures CDiv(a + b - 1, b) * b >= a
    ensures (CDiv(a + b - 1, b) - 1) * b < a
  {
    var q := CDiv(a + b - 1, b);
    assert q * b <= a + b - 1 < q * b + b;
  }

  /** For `1 - 2 * b < a <= 0` the same expression is 0: nothing more is
      needed, and `a + b - 1` is too close to zero for truncation to give a
      negative quotient. */
  lemma CeilDivOfNonPositive(a: int, b: int)
    requires b > 0 && 1 - 2 * b < a <= 0
    ensures CDiv(a + b - 1, b) == 0
  {
    var q := CDiv(a + b - 1, b);
    assert -b < a + b - 1 < b;
    if q >= 1 {
      MulMonotone(1, q, b);
    } else if q <= -1 {
      MulMonotone(q, -1, b);
    }
  }

  /** Below `-b`, C's truncation and the floor disagree: the expression is
      larger by one than Dafny's `/` gives whenever `a + b - 1` is negative
      and not a multiple of `b`. */
  lemma CDivDiffersFromFloor()
    ensures CDiv(-6 + 3 - 1, 3) == -1
    ensures (-6 + 3 - 1) / 3 == -2
  {
  }

  /** Uniqueness of the quotient: the `q` with `q * b <= a < q * b + b`. */
  lemma DivIsUnique(a: int, b: int, q: int)
    requires b > 0 && q * b <= a < q * b + b
    ensures a / b == q
  {
    var r := a / b;
    assert r * b <= a < r * b + b;
    MulMonotone(r + 1, q, b);
    MulMonotone(q + 1, r, b);
  }

  /** Distributivity, as a fact the solver can use without searching. */
  lemma MulAdd(x: int, y: int, b: int)
    ensures (x + y) * b == x * b + y * b
  {
  }

  lemma MulMonotone(x: int, y: int, b: int)
    requires b >= 0
    ensures x <= y ==> x * b <= y * b
  {
    if x <= y {
      assert y * b == x * b + (y - x) * b;
    }
  }
}
