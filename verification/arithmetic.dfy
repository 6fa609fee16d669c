/** Facts about Euclidean division used by the clock arithmetic of the
    countdown and by the rotation index of the background video. */
module Arithmetic {

  lemma {:induction false} ProductAtLeast(d: nat, n: nat)
    requires d >= 1
    ensures d * n >= n
  {
    if d > 1 {
      ProductAtLeast(d - 1, n);
      assert d * n == (d - 1) * n + n;
    }
  }

  /** `k / n` and `k % n` when `k == q * n + r` with `0 <= r < n`. */
  lemma DivMod(k: int, n: int, q: int, r: int)
    requires n > 0 && 0 <= r < n && k == q * n + r
    ensures k / n == q && k % n == r
  {
    var q', r' := k / n, k % n;
    assert k == q' * n + r';
    assert (q - q') * n == q * n - q' * n;
    if q > q' {
      ProductAtLeast(q - q', n);
    } else if q < q' {
      ProductAtLeast(q' - q, n);
    }
  }
}
