/** Division by a divisor that is not a constant. */
module Remainders {

  /** Remainders step by one and wrap at the divisor. */
  lemma NextRemainder(k: nat, n: nat)
    requires n > 0
    ensures k % n < n
    ensures (k + 1) % n == if k % n + 1 == n then 0 else k % n + 1
  {
    var q, r := k / n, k % n;
    assert k == n * q + r;
    if r + 1 == n {
      assert k + 1 == n * (q + 1);
      RemainderUnique(k + 1, n, q + 1, 0);
    } else {
      RemainderUnique(k + 1, n, q, r + 1);
    }
  }

  lemma RemainderUnique(k: nat, n: nat, q: nat, r: nat)
    requires n > 0 && r < n && k == n * q + r
    ensures k % n == r && k / n == q
  {
    var q', r' := k / n, k % n;
    var gap := q - q';
    assert n * gap == r' - r by {
      assert k == n * q' + r';
    }
    MultipleAtLeast(n, gap);
  }

  lemma MultipleAtLeast(n: nat, m: int)
    ensures m >= 1 ==> n * m >= n
    ensures m <= -1 ==> n * m + n <= 0
  {
    assert n * m == n + n * (m - 1);
    assert n * m + n == n * (m + 1);
  }
}
