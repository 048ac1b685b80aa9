/** Facts about products and quotients that the solver needs spelled out. */
module Arithmetic {

  lemma Monotone(b: nat, x: nat, y: nat)
    requires x <= y
    ensures b * x <= b * y
  {
    assert b * (y - x) >= 0;
  }

  lemma QuotientIsUnique(a: nat, b: nat, k: nat, r: nat)
    requires b > 0 && r < b && a == b * k + r
    ensures a / b == k && a % b == r
  {
    var k2 := a / b;
    if k > k2 {
      Monotone(b, k2 + 1, k);
    } else if k < k2 {
      Monotone(b, k + 1, k2);
    }
  }

  lemma OneMore(p: nat, b: nat)
    requires p > 0
    ensures p * b == b + (p - 1) * b
  {
  }

  /** Taking one divisor off takes one off the quotient. */
  lemma QuotientStep(n: nat, b: nat)
    requires n >= b > 0
    ensures n / b == (n - b) / b + 1 && n % b == (n - b) % b
  {
    var m := n - b;
    var k := m / b;
    OneMore(k + 1, b);
    QuotientIsUnique(n, b, k + 1, m % b);
  }

  lemma QuotientsKeepOrder(i: nat, n: nat, b: nat)
    requires i <= n && b > 0
    ensures i / b <= n / b && i == i / b * b + i % b
  {
    if i / b > n / b {
      Monotone(b, n / b + 1, i / b);
    }
  }
}
