/** Facts about Euclidean division on non-negative integers that the window
    and stride arithmetic of the animator rests on. Python's `//` agrees with
    Dafny's `/` here because every dividend is non-negative and every divisor
    positive. */
module Arith {

  /** A positive multiple of a positive number is at least that number. */
  lemma MulAtLeast(d: int, b: int)
    requires d >= 1 && b >= 1
    ensures d * b >= b
  {
    assert d * b == (d - 1) * b + b;
  }

  /** Division is determined by any quotient/remainder pair. */
  lemma DivUnique(a: int, b: int, q: int, r: int)
    requires b > 0 && 0 <= r < b && a == q * b + r
    ensures a / b == q && a % b == r
  {
    var q0, r0 := a / b, a % b;
    var d := q - q0;
    assert d * b == r0 - r by {
      assert q * b - q0 * b == d * b;
    }
    if d >= 1 {
      MulAtLeast(d, b);
    } else if d <= -1 {
      MulAtLeast(-d, b);
    }
    assert d == 0;
  }

  /** Removing one divisor's worth from the dividend lowers the quotient by one. */
  lemma DivSubOne(a: int, b: int)
    requires b > 0 && a >= b
    ensures (a - b) / b == a / b - 1
  {
    var q, r := (a - b) / b, (a - b) % b;
    assert a == (q + 1) * b + r;
    DivUnique(a, b, q + 1, r);
  }

  /** Window k of size b lies inside a sequence of length n when k < n / b. */
  lemma WindowFits(n: nat, b: nat, k: nat)
    requires b >= 1 && k < n / b
    ensures k * b + b <= n
  {
    var q := n / b;
    assert n == q * b + n % b;
    assert q * b == (q - k - 1) * b + (k + 1) * b;
    assert (q - k - 1) * b >= 0;
  }

  /** Dividing twice is dividing by the product. */
  lemma DivDiv(a: nat, b: int, c: int)
    requires b >= 1 && c >= 1
    ensures a / b / c == a / (b * c)
  {
    var q1, r1 := a / b, a % b;
    var q2, r2 := q1 / c, q1 % c;
    MulRemBound(r2, c, b);
    RegroupQuotient(a, b, c, q1, r1, q2, r2);
    DivUnique(a, b * c, q2, r2 * b + r1);
  }

  lemma MulRemBound(r2: int, c: int, b: int)
    requires 0 <= r2 < c && b >= 1
    ensures 0 <= r2 * b <= c * b - b
  {
    assert (c - 1 - r2) * b >= 0;
    assert (c - 1 - r2) * b == c * b - b - r2 * b;
  }

  lemma RegroupQuotient(a: int, b: int, c: int, q1: int, r1: int, q2: int, r2: int)
    requires a == q1 * b + r1 && q1 == q2 * c + r2
    ensures a == q2 * (b * c) + (r2 * b + r1)
  {
    assert q1 * b == (q2 * c + r2) * b;
    assert (q2 * c + r2) * b == q2 * c * b + r2 * b;
    assert q2 * c * b == q2 * (b * c);
  }
}
