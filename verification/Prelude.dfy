/** Definitions shared by the models. */
module Prelude {

  datatype Option<+T> = None | Some(value: T)

  function Min(a: int, b: int): int {
    if a <= b then a else b
  }

  function Max(a: int, b: int): int {
    if a >= b then a else b
  }

  function Pow2(k: nat): (p: nat)
    ensures p >= 1
  {
    if k == 0 then 1 else 2 * Pow2(k - 1)
  }

  lemma {:induction false} Pow2Sum(a: nat, b: nat)
    ensures Pow2(a + b) == Pow2(a) * Pow2(b)
  {
    if b > 0 {
      Pow2Sum(a, b - 1);
    }
  }

  lemma {:induction false} Pow2Monotone(a: nat, b: nat)
    requires a <= b
    ensures Pow2(a) <= Pow2(b)
  {
    if a < b {
      Pow2Monotone(a, b - 1);
    }
  }

  // Integer division facts.

  lemma QuotientBound(a: int, d: int)
    requires a >= 0 && d >= 1
    ensures (a / d) * d <= a < (a / d) * d + d
  {
  }

  lemma MulMonotone(x: int, y: int, d: int)
    requires x <= y && d >= 0
    ensures x * d <= y * d
  {
  }

  lemma QuotientUnique(a: int, d: int, q: int)
    requires d >= 1 && q * d <= a < q * d + d
    ensures a / d == q
  {
    var other := a / d;
    assert other * d <= a < other * d + d;
    if other < q {
      MulMonotone(other + 1, q, d);
      Distributes(other, 1, d);
    } else if q < other {
      MulMonotone(q + 1, other, d);
      Distributes(q, 1, d);
    }
  }

  lemma QuotientExact(k: nat, d: int)
    requires d >= 1
    ensures (k * d) / d == k
  {
    QuotientUnique(k * d, d, k);
  }

  lemma QuotientMonotone(a: int, b: int, d: int)
    requires 0 <= a <= b && d >= 1
    ensures 0 <= a / d <= b / d
  {
    QuotientBound(a, d);
    QuotientBound(b, d);
    if b / d < a / d {
      MulMonotone(b / d + 1, a / d, d);
      Distributes(b / d, 1, d);
    }
  }

  lemma QuotientShift(a: int, d: int, k: int)
    requires d >= 1
    ensures (a - k * d) / d == a / d - k
  {
    var q := a / d;
    assert a == q * d + a % d;
    assert a - k * d == (q - k) * d + a % d by {
      Distributes(q, -k, d);
    }
    QuotientUnique(a - k * d, d, q - k);
  }

  lemma Distributes(a: int, b: int, d: int)
    ensures (a + b) * d == a * d + b * d
  {
  }

  lemma MulAssociates(a: int, b: int, c: int)
    ensures a * (b * c) == (a * b) * c
  {
  }
}
