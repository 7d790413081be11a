/** The variable-length integers of section 5.2.2 of the WebAssembly Core Specification 1.0, and the
    two loops that decode them at the cursor. */
module Leb {
  import opened Powers
  import opened Bits

  type Byte = b: int | 0 <= b < 256

  /** Seven bits a byte, the lowest first. */
  function Payload(bs: seq<Byte>): nat {
    if bs == [] then 0 else bs[0] % 128 + 128 * Payload(bs[1..])
  }

  lemma {:induction false} PayloadBelow(bs: seq<Byte>)
    ensures Payload(bs) < Pow2(7 * |bs|)
  {
    if bs != [] {
      PayloadBelow(bs[1..]);
      Pow2Add(7, 7 * |bs[1..]|);
      assert Pow2(7) == 128;
    }
  }

  lemma {:induction false} PayloadSnoc(bs: seq<Byte>, b: Byte)
    ensures Payload(bs + [b]) == Payload(bs) + b % 128 * Pow2(7 * |bs|)
  {
    if bs == [] {
      assert bs + [b] == [b];
      assert [b][1..] == [];
    } else {
      assert (bs + [b])[1..] == bs[1..] + [b];
      PayloadSnoc(bs[1..], b);
      Pow2Add(7, 7 * |bs[1..]|);
      assert Pow2(7) == 128;
      var x, p := b % 128, Pow2(7 * |bs[1..]|);
      assert 128 * (x * p) == x * (128 * p);
    }
  }

  // ----- bitwise or -----

  lemma ShiftMod(low: nat, s: nat, n: nat) returns (m: nat)
    requires s <= n
    ensures low * Pow2(s) == low % Pow2(n - s) * Pow2(s) + m * Pow2(n)
  {
    hide Pow2;
    var p := Pow2(n - s);
    m := low / p;
    Pow2Add(n - s, s);
    DivMod(low, p);
    Distribute(p, m, low % p, Pow2(s));
  }

  lemma MulBelow(q: nat, p: nat, r: nat, s: nat)
    requires q < p && r < s
    ensures r + q * s < p * s
  {
    assert (q + 1) * s <= p * s;
  }

  /** One round of the decoders: or in seven shifted bits, keeping the width. */
  lemma OrShifted(r: nat, low: nat, s: nat, n: nat)
    requires r < Pow2(s) && s <= n
    ensures BitOr(r, low * Pow2(s) % Pow2(n)) == (r + low * Pow2(s)) % Pow2(n)
  {
    hide Pow2, BitOr;
    var m := ShiftMod(low, s, n);
    var q := low % Pow2(n - s);
    Pow2Add(n - s, s);
    MulBelow(q, Pow2(n - s), r, Pow2(s));
    ModUnique(low * Pow2(s), q * Pow2(s), m, Pow2(n));
    ModUnique(r + low * Pow2(s), r + q * Pow2(s), m, Pow2(n));
    OrDisjoint(r, q, s);
  }

  // ----- decoding -----

  /** An integer of k bytes stands at position i: only its last byte is below 128. */
  ghost predicate Ends(code: seq<Byte>, i: nat, k: nat) {
    && k > 0 && i + k <= |code| && code[i + k - 1] < 128
    && forall j :: i <= j < i + k - 1 ==> code[j] >= 128
  }

  /** The two's complement reading of a bit pattern. */
  function ToSigned(bits: nat, n: nat): int {
    if 2 * bits < Pow2(n) then bits else bits - Pow2(n)
  }

  predicate SignBit(bs: seq<Byte>) { bs != [] && bs[|bs| - 1] % 128 >= 64 }

  /** The value of a signed encoding of n bits: short encodings carry their own sign. */
  function SignedValue(bs: seq<Byte>, n: nat): int {
    var w := 7 * |bs|;
    if w < n then (if SignBit(bs) then Payload(bs) - Pow2(w) else Payload(bs))
    else ToSigned(Payload(bs) % Pow2(n), n)
  }

  /** The source extends the sign with an int shifted left by the width of the encoding: that is defined
      below 31 bits only. */
  predicate SignLost(bs: seq<Byte>, n: nat) { 31 <= 7 * |bs| < n && SignBit(bs) }

  class Reader {
    const code: seq<Byte>
    var cur: nat

    constructor (code: seq<Byte>, start: nat)
      ensures this.code == code && cur == start
    {
      this.code, cur := code, start;
    }

    /** The loop both decoders run: k bytes, the result kept to n bits. A k with a shift of n or more
        would be undefined in the source. */
    method Groups(n: nat, ghost k: nat) returns (r: nat, shift: nat, last: Byte)
      requires Ends(code, cur, k) && 7 * (k - 1) < n
      modifies this`cur
      ensures cur == old(cur) + k && last == code[cur - 1] && shift == 7 * k
      ensures r == Payload(code[old(cur)..cur]) % Pow2(n)
    {
      hide Pow2, BitOr, Payload;
      ghost var start := cur;
      r, shift, last := 0, 0, 0;
      var more := true;
      NoBytes(n);
      assert code[start..cur] == [];
      while more
        invariant start <= cur <= start + k && shift == 7 * (cur - start) && (more <==> cur < start + k)
        invariant Ends(code, start, k)
        invariant cur > start ==> last == code[cur - 1]
        invariant r == Payload(code[start..cur]) % Pow2(n)
        decreases start + k - cur
      {
        ghost var done := code[start..cur];
        last := code[cur];
        cur := cur + 1;
        assert code[start..cur] == done + [last];
        OneGroup(done, last, n);
        r := BitOr(r, last % 128 * Pow2(shift) % Pow2(n));
        shift := shift + 7;
        more := last >= 128;
      }
    }

    method ParseUleb128(n: nat, ghost k: nat) returns (r: nat)
      requires Ends(code, cur, k) && 7 * (k - 1) < n
      modifies this`cur
      ensures cur == old(cur) + k && r == Payload(code[old(cur)..cur]) % Pow2(n)
    {
      var shift, last;
      r, shift, last := Groups(n, k);
    }

    /** defined is false where the source shifts an int too far. */
    method ParseSleb128(n: nat, ghost k: nat) returns (defined: bool, v: int)
      requires Ends(code, cur, k) && 7 * (k - 1) < n
      modifies this`cur
      ensures cur == old(cur) + k
      ensures defined == !SignLost(code[old(cur)..cur], n)
      ensures defined ==> v == SignedValue(code[old(cur)..cur], n)
    {
      ghost var start := cur;
      var bits, shift, last := Groups(n, k);
      ghost var bs := code[start..cur];
      defined := true;
      if shift < n && last % 128 >= 64 {
        defined := shift < 31;
        SignExtension(bs, n);
        bits := BitOr(bits, Pow2(n) - Pow2(shift));
      } else if shift < n {
        SmallPayload(bs, n);
      }
      v := ToSigned(bits, n);
    }
  }

  lemma NoBytes(n: nat)
    ensures Payload([]) % Pow2(n) == 0
  {
    hide Pow2;
    ModUnique(0, 0, 0, Pow2(n));
  }

  /** What one round adds, while the earlier rounds lost nothing. */
  lemma OneGroup(done: seq<Byte>, b: Byte, n: nat)
    requires 7 * |done| < n
    ensures BitOr(Payload(done) % Pow2(n), b % 128 * Pow2(7 * |done|) % Pow2(n)) == Payload(done + [b]) % Pow2(n)
  {
    hide Pow2, BitOr, Payload;
    PayloadBelow(done);
    PowMono(7 * |done|, n);
    PayloadSnoc(done, b);
    ModUnique(Payload(done), Payload(done), 0, Pow2(n));
    OrShifted(Payload(done), b % 128, 7 * |done|, n);
  }

  lemma OneLess(x: nat, p: nat)
    ensures (x - 1) * p == x * p - p
  {
  }

  /** Filling the bits above the encoding subtracts its width. */
  lemma SignExtension(bs: seq<Byte>, n: nat)
    requires 7 * |bs| < n && bs != [] && SignBit(bs)
    ensures Pow2(n) >= Pow2(7 * |bs|)
    ensures ToSigned(BitOr(Payload(bs) % Pow2(n), Pow2(n) - Pow2(7 * |bs|)), n) == Payload(bs) - Pow2(7 * |bs|)
  {
    hide BitOr, Payload;
    var w := 7 * |bs|;
    PayloadBelow(bs);
    PowMono(w, n);
    ModUnique(Payload(bs), Payload(bs), 0, Pow2(n));
    Pow2Add(n - w, w);
    var q := Pow2(n - w) - 1;
    OneLess(Pow2(n - w), Pow2(w));
    OrDisjoint(Payload(bs), q, w);
    PowMono(w, n - 1);
    TopPayload(bs);
  }

  /** With its sign bit set an encoding is in the upper half of its range, and otherwise in the lower. */
  lemma TopPayload(bs: seq<Byte>)
    requires bs != []
    ensures SignBit(bs) <==> 2 * Payload(bs) >= Pow2(7 * |bs|)
  {
    hide Pow2, Payload;
    var front, b := bs[..|bs| - 1], bs[|bs| - 1];
    assert bs == front + [b];
    PayloadSnoc(front, b);
    PayloadBelow(front);
    Pow2Add(7, 7 * |front|);
    Seven();
    TopDigit(b % 128, Pow2(7 * |front|), Payload(front));
  }

  lemma TopDigit(t: nat, p: nat, low: nat)
    requires t < 128 && low < p
    ensures t >= 64 <==> 2 * (low + t * p) >= 128 * p
  {
    if t >= 64 {
      assert t * p >= 64 * p;
    } else {
      assert t * p <= 63 * p;
    }
  }

  lemma SmallPayload(bs: seq<Byte>, n: nat)
    requires 7 * |bs| < n && bs != [] && !SignBit(bs)
    ensures ToSigned(Payload(bs) % Pow2(n), n) == Payload(bs)
  {
    hide Payload;
    PayloadBelow(bs);
    PowMono(7 * |bs|, n);
    TopPayload(bs);
    ModUnique(Payload(bs), Payload(bs), 0, Pow2(n));
  }

  // ----- encoding -----

  /** v in k groups of seven bits, low group first: the encodings of section 5.2.2, padded to k bytes. For a
      negative v the division rounds down, which keeps the sign in the last group. */
  function Encode(v: int, k: nat): (bs: seq<Byte>)
    requires k > 0
    ensures |bs| == k
    decreases k
  {
    if k == 1 then [v % 128] else [128 + v % 128] + Encode(v / 128, k - 1)
  }

  lemma {:induction false} EncodeEnds(v: int, k: nat)
    requires k > 0
    ensures Ends(Encode(v, k), 0, k)
    decreases k
  {
    if k > 1 {
      EncodeEnds(v / 128, k - 1);
      forall j | 0 < j < k - 1
        ensures Encode(v, k)[j] >= 128
      {
        assert Encode(v, k)[j] == Encode(v / 128, k - 1)[j - 1];
      }
      assert Encode(v, k)[k - 1] == Encode(v / 128, k - 1)[k - 2];
    }
  }

  /** The payload of an encoding is its value, up to a multiple of its width. */
  lemma {:induction false} EncodePayload(v: int, k: nat) returns (m: int)
    requires k > 0
    ensures v == Payload(Encode(v, k)) + m * Pow2(7 * k)
    decreases k
  {
    Seven();
    if k == 1 {
      m := v / 128;
      assert Encode(v, 1)[1..] == [];
    } else {
      m := EncodePayload(v / 128, k - 1);
      assert Encode(v, k)[1..] == Encode(v / 128, k - 1);
      Pow2Add(7, 7 * (k - 1));
      var p := Pow2(7 * (k - 1));
      assert 128 * (m * p) == m * (128 * p);
    }
  }

  /** A signed or unsigned value in the range of k groups is the payload, less the width when it is negative. */
  lemma EncodedValue(v: int, k: nat)
    requires k > 0 && 0 <= v + Pow2(7 * k) && v < Pow2(7 * k)
    ensures Payload(Encode(v, k)) == if v < 0 then v + Pow2(7 * k) else v
  {
    hide Pow2, Encode, Payload;
    var m := EncodePayload(v, k);
    PayloadBelow(Encode(v, k));
    var p, x := Pow2(7 * k), Payload(Encode(v, k));
    Quotient(m, p, x, v);
  }

  lemma Quotient(m: int, p: nat, x: nat, v: int)
    requires x < p && v == x + m * p && 0 <= v + p && v < p
    ensures m == if v < 0 then -1 else 0
  {
    if m >= 1 {
      NextMultiple(m, 0, p);
    } else if m <= -2 {
      NextMultiple(-m, 1, p);
    }
  }

  /** The bytes of an encoding, wherever they stand. */
  ghost predicate StandsIn(code: seq<Byte>, i: nat, v: int, k: nat) {
    k > 0 && i + k <= |code| && code[i..i + k] == Encode(v, k)
  }

  lemma StandsEnds(code: seq<Byte>, i: nat, v: int, k: nat)
    requires StandsIn(code, i, v, k)
    ensures Ends(code, i, k)
  {
    hide Encode;
    EncodeEnds(v, k);
    forall j | i <= j < i + k
      ensures code[j] == Encode(v, k)[j - i]
    {
      assert code[j] == code[i..i + k][j - i];
    }
  }

  /** Unsigned round trip: every encoding of k bytes, minimal or padded, wherever it stands, is what the decoder
      reads there, and it stops right after it. */
  lemma UnsignedRoundTrip(code: seq<Byte>, i: nat, n: nat, v: nat, k: nat)
    requires StandsIn(code, i, v, k) && v < Pow2(n) && v < Pow2(7 * k)
    ensures Ends(code, i, k) && Payload(code[i..i + k]) % Pow2(n) == v
  {
    hide Pow2, Encode, Payload;
    StandsEnds(code, i, v, k);
    EncodedValue(v, k);
    ModUnique(v, v, 0, Pow2(n));
  }

  /** A signed value fits in k groups, and in n bits. */
  predicate Fits(v: int, k: nat, n: nat) {
    k > 0 && n > 0 && 7 * (k - 1) < n
    && 0 <= v + Pow2(7 * k - 1) && v < Pow2(7 * k - 1) && 0 <= v + Pow2(n - 1) && v < Pow2(n - 1)
  }

  /** What the signed decoder makes of an encoding of v. */
  lemma SignedDecoded(v: int, k: nat, n: nat)
    requires Fits(v, k, n)
    ensures SignedValue(Encode(v, k), n) == v
    ensures SignBit(Encode(v, k)) <==> v < 0
  {
    var bs, p := Encode(v, k), Pow2(7 * k);
    assert p == 2 * Pow2(7 * k - 1) && Pow2(n) == 2 * Pow2(n - 1);
    hide Pow2, Encode, Payload;
    EncodedValue(v, k);
    TopPayload(bs);
    if 7 * k >= n {
      var q := if v < 0 then v + Pow2(n) else v;
      if v >= 0 {
        ModUnique(Payload(bs), q, 0, Pow2(n));
      } else {
        Pow2Add(7 * k - n, n);
        var e := Pow2(7 * k - n);
        assert v + e * Pow2(n) == q + (e - 1) * Pow2(n);
        ModUnique(Payload(bs), q, e - 1, Pow2(n));
      }
    }
  }

  /** Signed round trip: the source reads back an encoding exactly when its sign extension is defined, which is
      for every value that is not negative, every encoding of at most four bytes, and every encoding at least
      as wide as the type. For i32 that is always. */
  lemma SignedRoundTrip(code: seq<Byte>, i: nat, n: nat, v: int, k: nat)
    requires StandsIn(code, i, v, k) && Fits(v, k, n)
    ensures Ends(code, i, k)
    ensures !SignLost(code[i..i + k], n) <==> v >= 0 || k <= 4 || 7 * k >= n
    ensures n <= 32 ==> !SignLost(code[i..i + k], n)
    ensures SignedValue(code[i..i + k], n) == v
  {
    hide Pow2, Encode, Payload;
    StandsEnds(code, i, v, k);
    SignedDecoded(v, k, n);
  }

  /** What the groups mean: the seven low bits of byte k stand at bit 7k of the value read. */
  lemma {:induction false} PayloadGroup(bs: seq<Byte>, k: nat) returns (low: nat, high: nat)
    requires k < |bs|
    ensures low < Pow2(7 * k) && Payload(bs) == low + (bs[k] % 128) * Pow2(7 * k) + high * Pow2(7 * (k + 1))
    decreases k
  {
    Seven();
    if k == 0 {
      low, high := 0, Payload(bs[1..]);
    } else {
      var l, h := PayloadGroup(bs[1..], k - 1);
      low, high := bs[0] % 128 + 128 * l, h;
      assert bs[1..][k - 1] == bs[k];
      Up(k - 1, bs[k] % 128);
      Up(k, h);
      Room(bs[0] % 128, l, k - 1);
    }
  }

  /** And of the value written: byte k holds the seven bits from bit 7k, also of a negative value, and all bytes but the
      last are marked. */
  lemma {:induction false} EncodeGroup(v: int, n: nat, k: nat) returns (low: nat, high: int)
    requires k < n
    ensures low < Pow2(7 * k) && v == low + (Encode(v, n)[k] % 128) * Pow2(7 * k) + high * Pow2(7 * (k + 1))
    ensures Encode(v, n)[k] >= 128 <==> k < n - 1
    decreases k
  {
    Seven();
    if k == 0 {
      low, high := 0, v / 128;
    } else {
      var l, h := EncodeGroup(v / 128, n - 1, k - 1);
      low, high := v % 128 + 128 * l, h;
      assert Encode(v, n)[k] == Encode(v / 128, n - 1)[k - 1];
      Up(k - 1, Encode(v, n)[k] % 128);
      Up(k, h);
      Room(v % 128, l, k - 1);
    }
  }

  lemma Up(k: nat, x: int)
    ensures 128 * (x * Pow2(7 * k)) == x * Pow2(7 * (k + 1))
  {
    Seven();
    Pow2Add(7, 7 * k);
    hide Pow2;
    var p := Pow2(7 * k);
    assert 128 * (x * p) == x * (128 * p);
  }

  lemma Room(b: nat, l: nat, k: nat)
    requires b < 128 && l < Pow2(7 * k)
    ensures b + 128 * l < Pow2(7 * (k + 1))
  {
    Seven();
    Pow2Add(7, 7 * k);
    hide Pow2;
  }

  /** At most one integer stands at a position: the cursor has no choice. */
  lemma OneLength(code: seq<Byte>, i: nat, k: nat, k': nat)
    requires Ends(code, i, k) && Ends(code, i, k')
    ensures k == k'
  {
  }

  /** Reading what was written: an encoding of v, minimal or padded up to the width, and whatever follows it. */
  method ReadBack(r: Reader, n: nat, ghost v: nat, ghost k: nat) returns (x: nat)
    requires StandsIn(r.code, r.cur, v, k) && v < Pow2(n) && v < Pow2(7 * k) && 7 * (k - 1) < n
    modifies r
    ensures x == v && r.cur == old(r.cur) + k
  {
    UnsignedRoundTrip(r.code, r.cur, n, v, k);
    x := r.ParseUleb128(n, k);
  }

  method ReadBackSigned(r: Reader, n: nat, ghost v: int, ghost k: nat) returns (defined: bool, x: int)
    requires StandsIn(r.code, r.cur, v, k) && Fits(v, k, n)
    modifies r
    ensures r.cur == old(r.cur) + k
    ensures defined == (v >= 0 || k <= 4 || 7 * k >= n) && (n <= 32 ==> defined)
    ensures defined ==> x == v
  {
    SignedRoundTrip(r.code, r.cur, n, v, k);
    defined, x := r.ParseSleb128(n, k);
  }
}
