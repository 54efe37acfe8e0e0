/** Integer helpers the GPU kernels use for channel grouping and alignment:
    ceiling division and rounding up to a multiple. Both are applied to
    non-negative tensor extents, where C++'s truncating `/` and Dafny's
    Euclidean `/` agree. */
module GpuUtil {

  /** `IntegralDivideRoundUp(n, d)`: the number of groups of `d` needed to hold `n` items. */
  function IntegralDivideRoundUp(n: nat, d: int): (q: nat)
    requires d > 0
  {
    (n + d - 1) / d
  }

  /** `AlignByN(n, N)`: `n` rounded up to the next multiple of `N`. */
  function AlignByN(n: nat, N: int): (r: nat)
    requires N > 0
  {
    IntegralDivideRoundUp(n, N) * N
  }

  /** Division and remainder are determined by any decomposition `a == q * b + r` with `0 <= r < b`. */
  lemma DivModUnique(a: int, b: int, q: int, r: int)
    requires b > 0 && 0 <= r < b && a == q * b + r
    ensures a / b == q && a % b == r
  {
    var q', r' := a / b, a % b;
    assert a == q' * b + r';
    assert (q - q') * b == r' - r;
    if q > q' {
      assert (q - q') * b >= b by { MulAtLeast(q - q', b); }
      assert false;
    } else if q < q' {
      assert (q' - q) * b >= b by { MulAtLeast(q' - q, b); }
      assert false;
    }
  }

  /** A positive multiple of `b` is at least `b`. */
  lemma MulAtLeast(k: int, b: int)
    requires k >= 1 && b > 0
    ensures k * b >= b
  {
  }

  /** The rounded-up quotient is the least `q` with `q * d >= n`: enough groups, and one fewer would not do. */
  lemma DivideRoundUpIsCeiling(n: nat, d: int)
    requires d > 0
    ensures IntegralDivideRoundUp(n, d) * d >= n
    ensures (IntegralDivideRoundUp(n, d) - 1) * d < n
  {
  }

  /** Exact division needs no rounding: `d` groups of `q` are exactly `q` groups. */
  lemma DivideRoundUpOfMultiple(q: nat, d: int)
    requires d > 0
    ensures IntegralDivideRoundUp(q * d, d) == q
  {
    assert q * d >= 0 by { MulNonNegative(q, d); }
    DivModUnique(q * d + d - 1, d, q, d - 1);
  }

  lemma MulNonNegative(a: nat, b: int)
    requires b > 0
    ensures a * b >= 0
  {
  }

  /** Adding one block of `d` keeps the remainder. */
  lemma ModAddBlock(x: nat, d: int)
    requires d > 0
    ensures (x + d) % d == x % d
  {
    DivModUnique(x + d, d, x / d + 1, x % d);
  }

  /** Reference definition of rounding up to a multiple of `N`: one block of `N` for every
      started block of `n`. */
  function RoundUpToMultiple(n: nat, N: int): (r: nat)
    requires N > 0
    decreases n
    ensures r % N == 0
    ensures n <= r < n + N
  {
    if n == 0 then 0
    else if n <= N then
      DivModUnique(N, N, 1, 0);
      N
    else
      var rest := RoundUpToMultiple(n - N, N);
      ModAddBlock(rest, N);
      rest + N
  }

  /** `AlignByN` agrees with the block-by-block reference definition on every input. */
  lemma {:induction false} AlignByNMatchesRoundUp(n: nat, N: int)
    requires N > 0
    ensures AlignByN(n, N) == RoundUpToMultiple(n, N)
    decreases n
  {
    if n == 0 {
      DivModUnique(N - 1, N, 0, N - 1);
    } else if n <= N {
      DivModUnique(n + N - 1, N, 1, n - 1);
    } else {
      AlignByNMatchesRoundUp(n - N, N);
      var q := (n - 1) / N;
      DivModUnique(n - 1, N, q, (n - 1) % N);
      DivModUnique(n + N - 1, N, q + 1, (n - 1) % N);
      assert IntegralDivideRoundUp(n - N, N) == q;
      assert (q + 1) * N == q * N + N;
    }
  }

  /** `AlignByN(n, N)` is a multiple of `N`, at least `n`, and less than `n + N`. */
  lemma AlignByNBounds(n: nat, N: int)
    requires N > 0
    ensures AlignByN(n, N) % N == 0
    ensures n <= AlignByN(n, N) < n + N
  {
    AlignByNMatchesRoundUp(n, N);
  }

  /** Aligning leaves `n` alone exactly when `n` is already a multiple of `N`. */
  lemma AlignByNFixesMultiples(n: nat, N: int)
    requires N > 0
    ensures AlignByN(n, N) == n <==> n % N == 0
  {
    AlignByNBounds(n, N);
    if n % N == 0 {
      var q := n / N;
      assert n == q * N;
      assert q >= 0;
      DivideRoundUpOfMultiple(q, N);
    }
  }

  /** Aligning an already aligned value changes nothing. */
  lemma AlignByNIdempotent(n: nat, N: int)
    requires N > 0
    ensures AlignByN(AlignByN(n, N), N) == AlignByN(n, N)
  {
    AlignByNBounds(n, N);
    AlignByNFixesMultiples(AlignByN(n, N), N);
  }
}
