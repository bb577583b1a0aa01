/** Multiplication, division and remainder where the solver needs help. */
module Arithmetic {

  lemma MulMonotone(k: int, x: int, y: int)
    requires k >= 0 && x <= y
    ensures k * x <= k * y
  {
  }

  lemma DivBounds(a: int, b: int)
    requires b > 0
    ensures b * (a / b) <= a < b * (a / b) + b
  {
  }

  lemma DivUnique(a: int, b: int, q: int)
    requires b > 0 && b * q <= a < b * q + b
    ensures a / b == q
  {
    var d := a / b;
    assert b * d <= a < b * d + b;
    if d < q {
      MulMonotone(b, d + 1, q);
    } else if q < d {
      MulMonotone(b, q + 1, d);
    }
  }

  lemma DivMonotone(a: int, b: int, d: int)
    requires d > 0 && a <= b
    ensures a / d <= b / d
  {
    DivBounds(a, d);
    DivBounds(b, d);
    if a / d > b / d {
      MulMonotone(d, b / d + 1, a / d);
    }
  }

  lemma ModUnique(a: nat, n: nat, d: nat, r: nat)
    requires n > 0 && a == n * d + r && r < n
    ensures a % n == r
  {
    DivUnique(a, n, d);
  }

  lemma ModStep(a: nat, n: nat)
    requires n > 0
    ensures (a % n + 1) % n == (a + 1) % n
  {
    var d := a / n;
    assert a == n * d + a % n;
    if a % n + 1 < n {
      ModUnique(a + 1, n, d, a % n + 1);
    } else {
      ModUnique(a + 1, n, d + 1, 0);
    }
  }

  /** Two counts less than a lap apart share a slot only when they are equal. */
  lemma SameSlot(a: nat, b: nat, n: nat)
    requires n > 0 && a <= b < a + n && a % n == b % n
    ensures a == b
  {
    assert a == n * (a / n) + a % n && b == n * (b / n) + b % n;
    var d := b / n - a / n;
    assert b - a == n * d;
    if d >= 1 {
      MulMonotone(n, 1, d);
    }
  }
}
