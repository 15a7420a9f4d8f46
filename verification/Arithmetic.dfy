/** Products and quotients by a positive slot length. */
module Arithmetic {

  lemma SumTimes(x: int, y: int, z: int)
    ensures (x + y) * z == x * z + y * z
  {
  }

  lemma TimesMonotone(x: int, y: int, delta: int)
    requires x <= y && delta > 0
    ensures x * delta <= y * delta
  {
  }

  /** Strictly fewer slots are at least one slot shorter. */
  lemma TimesStrict(x: int, y: int, delta: int)
    requires x < y && delta > 0
    ensures x * delta + delta <= y * delta
  {
    TimesMonotone(x + 1, y, delta);
    SumTimes(x, 1, delta);
  }

  lemma Quotient(x: int, delta: int)
    requires delta > 0
    ensures (x / delta) * delta <= x < (x / delta) * delta + delta
    ensures x % delta == 0 <==> x == (x / delta) * delta
  {
  }

  lemma DivUnique(x: int, delta: int, q: int)
    requires delta > 0 && q * delta <= x < q * delta + delta
    ensures x / delta == q
  {
    var d := x / delta;
    Quotient(x, delta);
    if d < q {
      TimesStrict(d, q, delta);
    } else if d > q {
      TimesStrict(q, d, delta);
    }
  }

  lemma OneSlotFewer(x: int, delta: int)
    requires delta > 0
    ensures x / delta == (x - delta) / delta + 1
    ensures 0 <= x < delta ==> x / delta == 0
  {
    Quotient(x - delta, delta);
    SumTimes((x - delta) / delta, 1, delta);
    DivUnique(x, delta, (x - delta) / delta + 1);
    if 0 <= x < delta {
      DivUnique(x, delta, 0);
    }
  }

  /** `m` slots reach at least `span` only if `m` is at least its quotient, and exactly only then. */
  lemma QuotientBelow(m: int, span: int, delta: int)
    requires delta > 0 && m * delta >= span
    ensures m * delta == span ==> span / delta == m
    ensures m * delta > span ==> span / delta < m
  {
    if m * delta == span {
      DivUnique(span, delta, m);
    } else {
      Quotient(span, delta);
      if span / delta >= m {
        TimesMonotone(m, span / delta, delta);
      }
    }
  }

  /** Fewer than `n` strides leave at least one more, so `n` is at most the rounded-up quotient. */
  lemma AtMostCeiling(n: int, range: int, stride: int)
    requires stride > 0 && (n - 1) * stride < range
    ensures n <= (range + stride - 1) / stride
  {
    var q := (range + stride - 1) / stride;
    Quotient(range + stride - 1, stride);
    if q < n {
      TimesStrict(q, n, stride);
      SumTimes(n - 1, 1, stride);
    }
  }
}
