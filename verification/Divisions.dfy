/** Division with remainder: the quotient and the remainder are determined by their equation. */
module Divisions {

  lemma {:induction false} Multiples(d: nat, p: nat, q: nat)
    requires p < q
    ensures d * p + d <= d * q
    decreases q
  {
    assert d * q == d * (q - 1) + d;
    if p < q - 1 {
      Multiples(d, p, q - 1);
    }
  }

  lemma Unique(v: nat, d: nat, q: nat, r: nat)
    requires d > 0 && v == d * q + r && r < d
    ensures v / d == q && v % d == r
  {
    var p := v / d;
    assert v == d * p + v % d;
    if p < q {
      Multiples(d, p, q);
    } else if p > q {
      Multiples(d, q, p);
    }
  }
}
