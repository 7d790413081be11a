/** Bitwise operations on natural numbers, and what masks of adjacent bits do. */
module Bits {
  import opened Powers

  function BitOr(x: nat, y: nat): nat
    decreases x + y
  {
    if x == 0 && y == 0 then 0
    else (if x % 2 == 1 || y % 2 == 1 then 1 else 0) + 2 * BitOr(x / 2, y / 2)
  }

  function BitAnd(x: nat, y: nat): nat {
    if x == 0 then 0 else (if x % 2 == 1 && y % 2 == 1 then 1 else 0) + 2 * BitAnd(x / 2, y / 2)
  }

  lemma {:induction false} OrZero(y: nat)
    ensures BitOr(0, y) == y
    decreases y
  {
    if y > 0 {
      OrZero(y / 2);
    }
  }

  lemma {:induction false} OrSwapped(x: nat, y: nat)
    ensures BitOr(x, y) == BitOr(y, x)
    decreases x + y
  {
    if x != 0 || y != 0 {
      OrSwapped(x / 2, y / 2);
    }
  }

  /** Bits that do not overlap are added. */
  lemma {:induction false} OrDisjoint(x: nat, q: nat, s: nat)
    requires x < Pow2(s)
    ensures BitOr(x, q * Pow2(s)) == x + q * Pow2(s)
    decreases s
  {
    if s == 0 {
      OrZero(q);
    } else {
      var y, h := q * Pow2(s), q * Pow2(s - 1);
      assert y == 2 * h;
      OrDisjoint(x / 2, q, s - 1);
      if x == 0 && y == 0 {
      } else {
        assert y / 2 == h && y % 2 == 0;
      }
    }
  }

  lemma {:induction false} AndZero(x: nat)
    ensures BitAnd(x, 0) == 0
  {
    if x != 0 {
      AndZero(x / 2);
    }
  }

  /** The remainder by an even number, bit by bit. */
  lemma Halved(x: nat, p: nat)
    requires p > 0
    ensures x % (2 * p) == x % 2 + 2 * (x / 2 % p)
  {
    var h, m := x / 2, x / 2 / p;
    DivMod(h, p);
    assert m * (2 * p) == 2 * (p * m);
    ModUnique(x, x % 2 + 2 * (h % p), m, 2 * p);
  }

  /** A mask of the k lowest bits is the remainder. */
  lemma {:induction false} AndLow(x: nat, k: nat)
    ensures BitAnd(x, Pow2(k) - 1) == x % Pow2(k)
    decreases k
  {
    if k == 0 {
      AndZero(x);
    } else {
      var p := Pow2(k - 1);
      AndLow(x / 2, k - 1);
      Halved(x, p);
      assert (Pow2(k) - 1) % 2 == 1 && (Pow2(k) - 1) / 2 == p - 1;
    }
  }

  lemma AndEven(x: nat, y: nat)
    ensures BitAnd(x, 2 * y) == 2 * BitAnd(x / 2, y)
  {
    assert 2 * y / 2 == y && 2 * y % 2 == 0;
  }

  /** A mask that starts at bit k sees what is above the k lowest bits. */
  lemma {:induction false} AndHigh(r: nat, q: nat, m: nat, k: nat)
    requires r < Pow2(k)
    ensures BitAnd(r + q * Pow2(k), m * Pow2(k)) == BitAnd(q, m) * Pow2(k)
    decreases k
  {
    hide BitAnd;
    if k > 0 {
      var p := Pow2(k - 1);
      assert Pow2(k) == 2 * p;
      hide Pow2;
      AndHigh(r / 2, q, m, k - 1);
      Doubled(m, p);
      Doubled(q, p);
      AndEven(r + 2 * (q * p), m * p);
      assert (r + 2 * (q * p)) / 2 == r / 2 + q * p;
      Doubled(BitAnd(q, m), p);
    }
  }

  lemma Doubled(b: nat, p: nat)
    ensures 2 * (b * p) == b * (2 * p)
  {
  }
}
