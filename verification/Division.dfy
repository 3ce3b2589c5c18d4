/** Quotient and remainder are unique. */
module Division {
  lemma OnlyZero(x: int, m: nat)
    ensures x >= 1 ==> x * m >= m
    ensures x <= -1 ==> x * m <= 0 - m
  {
    if x >= 1 { assert (x - 1) * m >= 0; }
    if x <= -1 { assert (-x - 1) * m >= 0; }
  }

  lemma DivModOf(k: nat, i: nat, m: nat)
    requires i < m
    ensures (k * m + i) / m == k && (k * m + i) % m == i
  {
    var d, e := (k * m + i) / m, (k * m + i) % m;
    assert (d - k) * m == d * m - k * m;
    OnlyZero(d - k, m);
  }

  lemma DivTwice(v: nat, m: nat)
    requires m > 0
    ensures v / 16 / m == v / (16 * m)
  {
    var q, r := v / (16 * m), v % (16 * m);
    var p := q * m;
    assert v == 16 * p + r by { assert q * (16 * m) == 16 * p; }
    assert v / 16 == p + r / 16;
    DivModOf(q, r / 16, m);
  }
}
