/** Fixed-width machine integers, as ranges of mathematical ones. */
module Machine {
  const TWO_31 := 0x8000_0000
  const TWO_63 := 0x8000_0000_0000_0000
  const TWO_64 := 0x1_0000_0000_0000_0000

  /** Two's complement wrap-around into [-half, half). */
  function Wrap(n: int, half: int): (r: int)
    requires half > 0
    ensures -half <= r < half
  {
    (n + half) % (2 * half) - half
  }

  function ToInt32(n: int): int {
    Wrap(n, TWO_31)
  }

  function ToInt64(n: int): int {
    Wrap(n, TWO_63)
  }

  function ToSize(n: int): (r: nat)
    ensures r < TWO_64
  {
    n % TWO_64
  }

  lemma ModOnce(n: int, m: nat)
    requires m > 0
    ensures (n - m) % m == n % m
  {
    var q, r := n / m, n % m;
    assert n == q * m + r;
    assert n - m == (q - 1) * m + r;
    ModUnique(n - m, q - 1, r, m);
  }

  lemma MulMonotone(a: int, b: int, c: int)
    requires a <= b && c >= 0
    ensures a * c <= b * c
  {
  }

  lemma SmallMultiple(k: int, m: int)
    requires m > 0 && -m < k * m < m
    ensures k == 0
  {
    if k >= 1 {
      MulMonotone(1, k, m);
    } else if k <= -1 {
      MulMonotone(k, -1, m);
    }
  }

  lemma ModUnique(n: int, q: int, r: int, m: nat)
    requires m > 0 && n == q * m + r && 0 <= r < m
    ensures n % m == r
  {
    var p, s := n / m, n % m;
    assert (p - q) * m == p * m - q * m == r - s;
    SmallMultiple(p - q, m);
  }

  lemma {:induction false} ModShift(n: int, q: int, m: nat)
    requires m > 0
    ensures (n - q * m) % m == n % m
    decreases if q < 0 then -q else q
  {
    if q > 0 {
      ModShift(n, q - 1, m);
      assert n - q * m == (n - (q - 1) * m) - m;
      ModOnce(n - (q - 1) * m, m);
    } else if q < 0 {
      ModShift(n, q + 1, m);
      assert n - (q + 1) * m == (n - q * m) - m;
      ModOnce(n - q * m, m);
    }
  }

  lemma WrapFits(n: int, half: int)
    requires half > 0 && -half <= n < half
    ensures Wrap(n, half) == n
  {
    ModUnique(n + half, 0, n + half, 2 * half);
  }

  /** Wrapping at every addition is the same as wrapping once at the end. */
  lemma WrapAdds(a: int, b: int, half: int)
    requires half > 0
    ensures Wrap(Wrap(a, half) + b, half) == Wrap(a + b, half)
  {
    var m := 2 * half;
    var q := (a + half) / m;
    assert (a + half) % m == (a + half) - q * m;
    ModShift(a + b + half, q, m);
  }
}
