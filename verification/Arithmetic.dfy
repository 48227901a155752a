/** Products and rounded-up quotients, where a bound needs them. */
module Arithmetic {
  lemma MulMonotone(a: nat, b: nat, c: nat)
    ensures a <= b ==> a * c <= b * c && c * a <= c * b
  {
    if a <= b { assert (b - a) * c >= 0; }
  }

  function CeilDiv(n: nat, m: nat): nat
    requires m > 0
  { (n + m - 1) / m }

  lemma AtMostCeil(times: nat, n: nat, m: nat)
    requires m > 0 && (times > 0 ==> (times - 1) * m < n)
    ensures times <= CeilDiv(n, m)
  {
    var q := CeilDiv(n, m);
    MulMonotone(q + 1, times, m);
    assert n + m - 1 < (q + 1) * m;
    if times > 0 { assert (times - 1) * m == times * m - m; }
  }
}
