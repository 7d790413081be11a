/** The shift-and-or forms of the rotations, on words given bit by bit. */
module Rotations {
  import opened Values
  import opened Powers
  import opened Bits

  /** Bit 0 first. */
  type Word = seq<bool>

  /** The two widths of the source. */
  predicate Width(w: nat) { w == 32 || w == 64 }

  /** The shifts of LLVM, for counts below the width; others are undefined. */
  function Shl(x: Word, n: nat): (r: Word)
    requires n < |x|
  {
    seq(|x|, i requires 0 <= i < |x| => i >= n && x[i - n])
  }

  function LShr(x: Word, n: nat): (r: Word)
    requires n < |x|
  {
    seq(|x|, i requires 0 <= i < |x| => i + n < |x| && x[i + n])
  }

  function Or(x: Word, y: Word): (r: Word)
    requires |x| == |y|
  {
    seq(|x|, i requires 0 <= i < |x| => x[i] || y[i])
  }

  /** A count masked with the width less one. */
  function Masked(w: nat, c: nat): (r: nat)
    requires Width(w)
    ensures r == c % w
  {
    Sizes();
    AndLow(c, if w == 32 then 5 else 6);
    BitAnd(c, w - 1)
  }

  lemma Sizes()
    ensures Pow2(5) == 32 && Pow2(6) == 64
  {
    assert Pow2(3) == 8;
  }

  /** The width less a count, as a word of that width. */
  function Complement(w: nat, c: nat): nat
    requires Width(w)
  {
    (w - c) % Modulus(if w == 32 then I32 else I64)
  }

  /** emit_rotl and emit_rotr. */
  function Rotl(x: Word, c: nat): Word
    requires Width(|x|)
  {
    Or(Shl(x, Masked(|x|, c)), LShr(x, Masked(|x|, Complement(|x|, c))))
  }

  function Rotr(x: Word, c: nat): Word
    requires Width(|x|)
  {
    Or(Shl(x, Masked(|x|, Complement(|x|, c))), LShr(x, Masked(|x|, c)))
  }

  // ----- counts -----

  /** Numbers that differ by a multiple of the width agree modulo the width. */
  lemma Congruent(x: int, y: int, k: int, w: nat)
    requires Width(w) && x == y + k * w
    ensures x % w == y % w
  {
    if w == 32 {
      assert x == y + 32 * k;
    } else {
      assert x == y + 64 * k;
    }
  }

  lemma Quot(x: int, w: nat) returns (k: int)
    requires Width(w)
    ensures x == x % w + k * w && 0 <= x % w < w
  {
    k := x / w;
  }

  /** Wrapping at the word size loses nothing modulo the width. */
  lemma Wrapped(x: int, w: nat)
    requires Width(w)
    ensures x % Modulus(if w == 32 then I32 else I64) % w == x % w
  {
    var m := Modulus(if w == 32 then I32 else I64);
    var q := x / m;
    var y := x % m;
    assert x == y + q * m;
    if w == 32 {
      Congruent(y, x, -q * 0x800_0000, w);
    } else {
      Congruent(y, x, -q * 0x400_0000_0000_0000, w);
    }
  }

  lemma ComplementMasked(w: nat, c: nat)
    requires Width(w)
    ensures Masked(w, Complement(w, c)) == if c % w == 0 then 0 else w - c % w
  {
    Wrapped(w - c, w);
    var k := Quot(c, w);
    var t := if c % w == 0 then 0 else w - c % w;
    Congruent(w - c, t, if c % w == 0 then 1 - k else -k, w);
    Small(t, w);
  }

  lemma Small(t: nat, w: nat)
    requires Width(w) && t < w
    ensures t % w == t
  {
  }

  lemma Back(w: nat, c: nat, i: nat)
    requires Width(w) && i < w
    ensures (i - c) % w == if i >= c % w then i - c % w else i - c % w + w
    ensures (i + c) % w == if i + c % w < w then i + c % w else i + c % w - w
  {
    var k := Quot(c, w);
    var t := if i >= c % w then i - c % w else i - c % w + w;
    Congruent(i - c, t, if i >= c % w then -k else -k - 1, w);
    Small(t, w);
    var u := if i + c % w < w then i + c % w else i + c % w - w;
    Congruent(i + c, u, if i + c % w < w then k else k + 1, w);
    Small(u, w);
  }

  // ----- laws -----

  /** irotl and irotr of section 4.3.2, for every count: bit i of the result is the bit c places below it, or above
      it, going round. */
  lemma RotlBit(x: Word, c: nat, i: nat)
    requires Width(|x|) && i < |x|
    ensures |Rotl(x, c)| == |x| && Rotl(x, c)[i] == x[(i - c) % |x|]
  {
    ComplementMasked(|x|, c);
    Back(|x|, c, i);
    hide Complement;
  }

  lemma RotrBit(x: Word, c: nat, i: nat)
    requires Width(|x|) && i < |x|
    ensures |Rotr(x, c)| == |x| && Rotr(x, c)[i] == x[(i + c) % |x|]
  {
    ComplementMasked(|x|, c);
    Back(|x|, c, i);
    hide Complement;
  }

  lemma BackTwice(w: nat, a: nat, b: nat, i: nat)
    requires Width(w)
    ensures 0 <= (i - b) % w < w
    ensures ((i - b) % w - a) % w == (i - (a + b) % Modulus(if w == 32 then I32 else I64)) % w
  {
    var m := Modulus(if w == 32 then I32 else I64);
    var k := Quot(i - b, w);
    Congruent((i - b) % w - a, i - (a + b), -k, w);
    var s := (a + b) % m;
    Wrapped(a + b, w);
    var k1 := Quot(s, w);
    var k2 := Quot(a + b, w);
    Factor(i, k1, k2, s, a + b, w);
  }

  lemma Factor(i: int, k1: int, k2: int, s: int, t: int, w: nat)
    requires Width(w) && s - t == k1 * w - k2 * w
    ensures (i - s) % w == (i - t) % w
  {
    Distributed(k1, k2, w);
    Congruent(i - s, i - t, k2 - k1, w);
  }

  lemma Distributed(k1: int, k2: int, w: nat)
    ensures k1 * w - k2 * w == -((k2 - k1) * w)
  {
  }

  /** Rotating twice is rotating by the sum, also when the sum wraps. */
  lemma RotlAdd(x: Word, a: nat, b: nat)
    requires Width(|x|)
    ensures |Rotl(x, a)| == |x|
    ensures Rotl(Rotl(x, a), b) == Rotl(x, (a + b) % Modulus(if |x| == 32 then I32 else I64))
  {
    hide Rotl;
    var w, s := |x|, (a + b) % Modulus(if |x| == 32 then I32 else I64);
    RotlBit(x, a, 0);
    RotlBit(x, s, 0);
    RotlBit(Rotl(x, a), b, 0);
    forall i | 0 <= i < w
      ensures Rotl(Rotl(x, a), b)[i] == Rotl(x, s)[i]
    {
      BackTwice(w, a, b, i);
      RotlBit(Rotl(x, a), b, i);
      RotlBit(x, a, (i - b) % w);
      RotlBit(x, s, i);
    }
  }

  lemma ThereAndBack(w: nat, c: nat, i: nat)
    requires Width(w) && i < w
    ensures 0 <= (i + c) % w < w && 0 <= (i - c) % w < w
    ensures ((i + c) % w - c) % w == i && ((i - c) % w + c) % w == i
  {
    var k := Quot(i + c, w);
    Congruent((i + c) % w - c, i, -k, w);
    var l := Quot(i - c, w);
    Congruent((i - c) % w + c, i, -l, w);
    Small(i, w);
  }

  /** A rotation to the right undoes one to the left by the same count, and the other way round. */
  lemma RotateBack(x: Word, c: nat)
    requires Width(|x|)
    ensures |Rotl(x, c)| == |x| == |Rotr(x, c)|
    ensures Rotr(Rotl(x, c), c) == x && Rotl(Rotr(x, c), c) == x
  {
    hide Rotl, Rotr;
    var w := |x|;
    RotlBit(x, c, 0);
    RotrBit(x, c, 0);
    RotrBit(Rotl(x, c), c, 0);
    RotlBit(Rotr(x, c), c, 0);
    forall i | 0 <= i < w
      ensures Rotr(Rotl(x, c), c)[i] == x[i] && Rotl(Rotr(x, c), c)[i] == x[i]
    {
      ThereAndBack(w, c, i);
      RotrBit(Rotl(x, c), c, i);
      RotlBit(x, c, (i + c) % w);
      RotlBit(Rotr(x, c), c, i);
      RotrBit(x, c, (i - c) % w);
    }
  }
}
