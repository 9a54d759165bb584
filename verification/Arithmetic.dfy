/** Multiples and remainders of unbounded integers. */
module Arithmetic {
  lemma Grows(p: int, q: int, a: int)
    requires 0 < a && p <= q
    ensures p * a <= q * a
  {
    assert (q - p) * a >= 0;
  }

  lemma MultipleBelow(m: int, value: int, a: int)
    requires 0 < a && m % a == 0 && m <= value
    ensures m <= value - value % a
  {
    var p, q := m / a, value / a;
    if p <= q {
      Grows(p, q, a);
    } else {
      Grows(q + 1, p, a);
    }
  }

  lemma RoundedDown(value: int, a: int)
    requires 0 < a && 0 < value
    ensures (value - value % a) % a == 0
    ensures value - value % a > 0 <==> a <= value
  {
    var q := value / a;
    assert value == q * a + value % a;
    QuotientIsUnique(value - value % a, a, q);
    if value < a {
      QuotientIsUnique(value, a, 0);
    }
  }

  lemma QuotientIsUnique(x: int, a: int, q: int)
    requires 0 < a && q * a <= x < q * a + a
    ensures x / a == q && x % a == x - q * a
  {
    var p := x / a;
    if p < q {
      Grows(p + 1, q, a);
    } else {
      Grows(q, p, a);
      if q < p {
        Grows(q + 1, p, a);
      }
    }
  }

  lemma RoundingIsUnique(value: int, a: int, r: int)
    requires 0 < a && r % a == 0 && r <= value < r + a
    ensures value - value % a == r
  {
    QuotientIsUnique(value, a, r / a);
  }
}
