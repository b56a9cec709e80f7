/** Division by a positive number, rounding down. */
module Division {
  lemma Multiple(k: int, d: int)
    requires k > 0
    ensures d >= 1 ==> k * d >= k
    ensures d <= -1 ==> k * d <= -k
  {}

  /** A quotient and a remainder determine the division. */
  lemma QuotientIs(n: int, k: int, q: int, r: int)
    requires 0 <= r < k && n == k * q + r
    ensures n / k == q && n % k == r
  {
    var d := n / k - q;
    assert k * d == r - n % k;
    Multiple(k, d);
  }

  lemma NextQuotient(n: int, k: int)
    requires k > 0
    ensures n / k == (n - 1) / k + (if n % k == 0 then 1 else 0)
  {
    var q, r := (n - 1) / k, (n - 1) % k;
    assert n == k * q + r + 1;
    if r + 1 == k {
      assert n == k * (q + 1) + 0;
      QuotientIs(n, k, q + 1, 0);
    } else {
      QuotientIs(n, k, q, r + 1);
    }
  }
}
