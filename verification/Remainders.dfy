/** Division with remainder by a variable modulus, step by step. */
module Remainders {
  lemma Product(m: int, k: int)
    requires m > 0
    ensures k >= 1 ==> m * k >= m
    ensures k >= 2 ==> m * k >= 2 * m
    ensures k <= -1 ==> m * k <= -m
  {
  }

  /** Equal remainders: the numbers differ by a multiple of the modulus. */
  lemma SameRemainder(a: int, b: int, m: int) returns (k: int)
    requires m > 0 && a % m == b % m
    ensures b - a == m * k
  {
    k := b / m - a / m;
    assert a == m * (a / m) + a % m && b == m * (b / m) + b % m;
    Distribute(m, b / m, a / m);
  }

  lemma Distribute(m: int, x: int, y: int)
    ensures m * (x - y) == m * x - m * y
  {
  }

  /** So less than a modulus apart they are equal, and less than two they are equal or one modulus apart. */
  lemma CloseRemainders(a: int, b: int, m: int)
    requires m > 0 && a % m == b % m && a <= b < a + 2 * m
    ensures b == a || b == a + m
  {
    var k := SameRemainder(a, b, m);
    Product(m, k);
  }

  lemma Divided(a: int, m: int)
    requires m > 0
    ensures a == m * (a / m) + a % m && 0 <= a % m < m
  {
  }

  lemma QuotientBelow(a: int, m: int, limit: int)
    requires m > 0 && 0 <= a < m * limit
    ensures 0 <= a / m < limit
  {
    Divided(a, m);
    Distribute(m, limit, a / m);
    Product(m, limit - a / m);
    Product(m, a / m);
  }

  lemma QuotientsGrow(a: int, b: int, m: int)
    requires m > 0 && a <= b
    ensures a / m <= b / m
  {
    Divided(a, m);
    Divided(b, m);
    Distribute(m, b / m, a / m);
    Product(m, b / m - a / m);
  }

  /** A number is a quotient and a remainder in one way. */
  lemma Unique(a: int, m: int, q: int, r: int)
    requires m > 0 && a == m * q + r && 0 <= r < m
    ensures a / m == q && a % m == r
  {
    Divided(a, m);
    Distribute(m, a / m, q);
    Product(m, a / m - q);
  }
}
