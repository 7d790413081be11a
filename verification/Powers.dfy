/** Powers of two, and the few facts about products and remainders that the solver is not left to find. */
module Powers {

  function Pow2(n: nat): (r: nat)
    ensures r > 0
  {
    if n == 0 then 1 else 2 * Pow2(n - 1)
  }

  lemma {:induction false} Pow2Add(a: nat, b: nat)
    ensures Pow2(a + b) == Pow2(a) * Pow2(b)
    decreases a
  {
    if a > 0 {
      Pow2Add(a - 1, b);
      assert Pow2(a + b) == 2 * Pow2(a - 1 + b);
    }
  }

  lemma {:induction false} PowMono(a: nat, b: nat)
    requires a <= b
    ensures Pow2(a) <= Pow2(b)
    decreases b
  {
    if a < b {
      PowMono(a, b - 1);
    }
  }

  lemma Seven()
    ensures Pow2(7) == 128
  {
    assert Pow2(3) == 8 && Pow2(7) == 16 * Pow2(3);
  }

  lemma Distribute(p: nat, m: nat, q: nat, s: nat)
    ensures (p * m + q) * s == m * (p * s) + q * s
  {
  }

  lemma DivMod(x: nat, p: nat)
    requires p > 0
    ensures x == p * (x / p) + x % p && x % p < p && x / p >= 0
  {
  }

  lemma NextProduct(d: nat, q: nat, p: nat)
    ensures (d + q + 1) * p == d * p + q * p + p
  {
  }

  lemma NextMultiple(m: nat, q: nat, p: nat)
    ensures m > q ==> m * p >= q * p + p
  {
    if m > q {
      NextProduct(m - q - 1, q, p);
    }
  }

  lemma SameMultiple(m: nat, q: nat, p: nat, r: nat, t: nat)
    requires r < p && t < p && r + m * p == p * q + t
    ensures r == t
  {
    NextMultiple(m, q, p);
    NextMultiple(q, m, p);
  }

  /** Remainders are unique. */
  lemma ModUnique(x: nat, r: nat, m: nat, p: nat)
    requires p > 0 && r < p && x == r + m * p
    ensures x % p == r
  {
    DivMod(x, p);
    SameMultiple(m, x / p, p, r, x % p);
  }
}
