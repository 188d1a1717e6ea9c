/** Facts about quotients and powers that several components rest on. */
module Arithmetic {
  lemma Distribute(a: int, b: int, I: int)
    ensures (a - b) * I == a * I - b * I
  {
  }

  lemma AtLeastOnce(n: int, I: int)
    requires I > 0
    ensures n >= 1 ==> n * I >= I
    ensures n <= 0 ==> n * I <= 0
  {
    if n >= 1 { Distribute(n, 1, I); }
  }

  lemma DivisionIsUnique(x: int, I: int, q: int, r: int)
    requires I > 0 && x == q * I + r && 0 <= r < I
    ensures x / I == q && x % I == r
  {
    var d, m := x / I, x % I;
    assert x == d * I + m;
    Distribute(d, q, I);
    if d > q { AtLeastOnce(d - q, I); }
    if d < q {
      Distribute(q, d, I);
      AtLeastOnce(q - d, I);
    }
  }

  function Power(base: nat, e: nat): nat { if e == 0 then 1 else base * Power(base, e - 1) }

  lemma {:induction false} PowerIsPositive(base: nat, e: nat)
    requires base >= 1
    ensures Power(base, e) >= 1
  {
    if e > 0 { PowerIsPositive(base, e - 1); }
  }

  lemma {:induction false} PowersGrow(base: nat, m: nat, n: nat)
    requires base >= 1 && m <= n
    ensures 1 <= Power(base, m) <= Power(base, n)
  {
    PowerIsPositive(base, m);
    if m < n { PowersGrow(base, m, n - 1); }
  }

  lemma {:induction false} PowersMultiply(base: nat, m: nat, n: nat)
    ensures Power(base, m + n) == Power(base, m) * Power(base, n)
  {
    if m > 0 {
      PowersMultiply(base, m - 1, n);
      Associate(base, Power(base, m - 1), Power(base, n));
    }
  }

  lemma Associate(a: int, b: int, c: int)
    ensures a * (b * c) == (a * b) * c
  {}
}
