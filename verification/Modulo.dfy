/** The two facts about remainders that a wrapping cursor needs. */
module Modulo {
  lemma NoRoom(n: int, d: int)
    requires n > 0 && -n < d * n < n
    ensures d == 0
  {
  }

  lemma Unique(n: int, q: int, r: int)
    requires n > 0 && 0 <= r < n
    ensures (q * n + r) % n == r && (q * n + r) / n == q
  {
    var x := q * n + r;
    var d := x / n - q;
    assert d * n == (x / n) * n - q * n;
    assert d * n == r - x % n;
    NoRoom(n, d);
  }

  lemma Bound(k: nat, n: nat)
    requires n > 0
    ensures k % n < n
  {
  }

  /** A cursor that follows k modulo n wraps exactly as its next value does. */
  lemma Successor(k: nat, n: nat)
    requires n > 0
    ensures (k + 1) % n == if k % n + 1 >= n then 0 else k % n + 1
  {
    var q, r := k / n, k % n;
    assert k == q * n + r;
    if r + 1 >= n {
      assert k + 1 == (q + 1) * n + 0;
      Unique(n, q + 1, 0);
    } else {
      assert k + 1 == q * n + (r + 1);
      Unique(n, q, r + 1);
    }
  }
}
