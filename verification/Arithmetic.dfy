/** Facts about multiplication and rounded division that the solver does not find unaided. */
module Arithmetic {

  lemma MultiplyMonotone(x: nat, y: nat, c: nat)
    requires x <= y
    ensures x * c <= y * c
  {
  }

  /** A positive factor can be cancelled from both sides of an inequality. */
  lemma CancelFactor(a: nat, b: nat, c: nat)
    requires c > 0 && a * c <= b * c
    ensures a <= b
  {
    if a > b {
      MultiplyMonotone(b + 1, a, c);
    }
  }

  /** `Math.ceil(n / d)` for n >= 0 and d > 0: the least whole number of d-sized units that covers n. */
  function CeilDiv(n: nat, d: nat): (r: nat)
    requires d > 0
    ensures n <= r * d
    ensures r > 0 ==> (r - 1) * d < n
  {
    (n + d - 1) / d
  }

  /** Rounding up a whole number of units gives that number. */
  lemma CeilDivExact(k: nat, d: nat)
    requires d > 0
    ensures CeilDiv(k * d, d) == k
  {
    var r := CeilDiv(k * d, d);
    CancelFactor(k, r, d);
    if r > k {
      MultiplyMonotone(k, r - 1, d);
    }
  }

  /** A whole number of units plus a part of one unit rounds up to one unit more. */
  lemma CeilDivPartial(k: nat, extra: nat, d: nat)
    requires 0 < extra < d
    ensures CeilDiv(k * d + extra, d) == k + 1
  {
    var r := CeilDiv(k * d + extra, d);
    assert (k + 1) * d == k * d + d;
    if r < k + 1 {
      MultiplyMonotone(r, k, d);
    } else if r > k + 1 {
      MultiplyMonotone(k + 1, r - 1, d);
    }
  }
}
