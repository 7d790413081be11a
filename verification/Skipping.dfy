/** Immediate bytes: what the decoder of live code consumes after each opcode, and what the loop that skips dead
    code consumes. */
module Skipping {
  import opened Values
  import opened Leb
  import opened Powers

  /** The position after the integer that stands at i, if it ends within the code and its shifts stay below n. */
  function LebEnd(code: seq<Byte>, i: nat, n: nat): (r: Option<nat>)
    ensures r.Some? ==> i < r.value <= |code|
  {
    LebFrom(code, i, i, n)
  }

  function LebFrom(code: seq<Byte>, start: nat, i: nat, n: nat): (r: Option<nat>)
    requires start <= i
    ensures r.Some? ==> i < r.value <= |code|
    decreases |code| - i
  {
    if i >= |code| || 7 * (i - start) >= n then None
    else if code[i] < 128 then Some(i + 1)
    else LebFrom(code, start, i + 1, n)
  }

  function Bytes(code: seq<Byte>, i: nat, n: nat): Option<nat> {
    if i + n <= |code| then Some(i + n) else None
  }

  function TwoLebs(code: seq<Byte>, i: nat, n: nat, m: nat): Option<nat> {
    var j :- LebEnd(code, i, n);
    LebEnd(code, j, m)
  }

  function ManyLebs(code: seq<Byte>, i: nat, count: nat): Option<nat>
    decreases count
  {
    if count == 0 then Some(i)
    else
      var j :- LebEnd(code, i, 32);
      ManyLebs(code, j, count - 1)
  }

  /** A target count, that many targets, and the default. */
  function TableEnd(code: seq<Byte>, i: nat): Option<nat> {
    var j :- LebEnd(code, i, 32);
    ManyLebs(code, j, Payload(code[i..j]) % Pow2(32) + 1)
  }

  const BLOCK: int := 0x02
  const LOOP: int := 0x03
  const IF: int := 0x04
  const ELSE: int := 0x05
  const END: int := 0x0b
  const BR: int := 0x0c
  const BR_IF: int := 0x0d
  const BR_TABLE: int := 0x0e
  const CALL: int := 0x10
  const CALL_INDIRECT: int := 0x11
  const GET_LOCAL: int := 0x20
  const SET_GLOBAL: int := 0x24
  const LOAD_I32: int := 0x28
  const LOAD_I64: int := 0x29
  const LOAD_F64: int := 0x2b
  const LOAD8_SI64: int := 0x30
  const LOAD32_UI64: int := 0x35
  const STORE_I64: int := 0x37
  const STORE_F64: int := 0x39
  const STORE8_I64: int := 0x3c
  const STORE32_I64: int := 0x3e
  const MEMORY_SIZE: int := 0x3f
  const MEMORY_GROW: int := 0x40
  const CONST_I32: int := 0x41
  const CONST_I64: int := 0x42
  const CONST_F32: int := 0x43
  const CONST_F64: int := 0x44
  const PREFIX_NUMERIC: int := 0xfc

  /** Where the live decoder goes on after the opcode before i. */
  function LiveEnd(op: Byte, code: seq<Byte>, i: nat): Option<nat> {
    if op == BLOCK || op == LOOP || op == IF || op == PREFIX_NUMERIC then Bytes(code, i, 1)
    else if op == BR || op == BR_IF || op == CALL || GET_LOCAL <= op <= SET_GLOBAL || op == CONST_I32 then
      LebEnd(code, i, 32)
    else if op == CONST_I64 then LebEnd(code, i, 64)
    else if op == CONST_F32 then Bytes(code, i, 4)
    else if op == CONST_F64 then Bytes(code, i, 8)
    else if LOAD_I32 <= op <= STORE32_I64 || op == CALL_INDIRECT then TwoLebs(code, i, 32, 32)
    else if op == MEMORY_SIZE || op == MEMORY_GROW then LebEnd(code, i, 32)
    else if op == BR_TABLE then TableEnd(code, i)
    else Some(i)
  }

  /** Loads and stores of 64-bit values, whose offset the skip loop reads with 64 bits. */
  predicate Wide(op: Byte) {
    op == LOAD_I64 || op == LOAD_F64 || LOAD8_SI64 <= op <= LOAD32_UI64 || op == STORE_I64 || op == STORE_F64
    || STORE8_I64 <= op <= STORE32_I64
  }

  /** Where the skip loop goes on: it takes the reserved byte of memory_size, memory_grow and call_indirect
      as one byte. */
  function DeadEnd(op: Byte, code: seq<Byte>, i: nat): Option<nat> {
    if op == BLOCK || op == LOOP || op == IF then Bytes(code, i, 1)
    else if op == MEMORY_SIZE || op == MEMORY_GROW then Bytes(code, i, 1)
    else if op == BR || op == CONST_I32 || GET_LOCAL <= op <= SET_GLOBAL || op == CALL || op == BR_IF then
      LebEnd(code, i, 32)
    else if op == CONST_I64 then LebEnd(code, i, 64)
    else if op == CONST_F32 then Bytes(code, i, 4)
    else if op == CONST_F64 then Bytes(code, i, 8)
    else if op == CALL_INDIRECT then var j :- LebEnd(code, i, 32); Bytes(code, j, 1)
    else if LOAD_I32 <= op <= STORE32_I64 then TwoLebs(code, i, 32, if Wide(op) then 64 else 32)
    else if op == BR_TABLE then TableEnd(code, i)
    else if op == PREFIX_NUMERIC then Bytes(code, i, 1)
    else Some(i)
  }

  lemma {:induction false} WiderLeb(code: seq<Byte>, start: nat, i: nat, n: nat, m: nat)
    requires start <= i && LebFrom(code, start, i, n).Some? && n <= m
    ensures LebFrom(code, start, i, m) == LebFrom(code, start, i, n)
    decreases |code| - i
  {
    if code[i] >= 128 {
      WiderLeb(code, start, i + 1, n, m);
    }
  }

  /** The reserved byte of an opcode that has one is a single byte. */
  predicate ReservedOk(op: Byte, code: seq<Byte>, i: nat) {
    && ((op == MEMORY_SIZE || op == MEMORY_GROW) && i < |code| ==> code[i] < 128)
    && (op == CALL_INDIRECT && LebEnd(code, i, 32).Some? && LebEnd(code, i, 32).value < |code| ==>
          code[LebEnd(code, i, 32).value] < 128)
  }

  /** For every opcode the skip loop consumes what the live decoder does, if and only if the reserved byte,
      where there is one, is below 128. */
  lemma SameImmediates(op: Byte, code: seq<Byte>, i: nat)
    requires LiveEnd(op, code, i).Some?
    ensures DeadEnd(op, code, i) == LiveEnd(op, code, i) <==> ReservedOk(op, code, i)
  {
    if Wide(op) {
      var j := LebEnd(code, i, 32).value;
      WiderLeb(code, j, j, 32, 64);
    }
  }

  // ----- whole stretches of code -----

  /** n instructions from i, as live code and as dead code. */
  function LiveWalk(code: seq<Byte>, i: nat, n: nat): Option<nat>
    decreases n
  {
    if n == 0 then Some(i)
    else if i >= |code| then None
    else
      var j :- LiveEnd(code[i], code, i + 1);
      LiveWalk(code, j, n - 1)
  }

  function DeadWalk(code: seq<Byte>, i: nat, n: nat): Option<nat>
    decreases n
  {
    if n == 0 then Some(i)
    else if i >= |code| then None
    else
      var j :- DeadEnd(code[i], code, i + 1);
      DeadWalk(code, j, n - 1)
  }

  ghost predicate AllReservedOk(code: seq<Byte>, i: nat, n: nat) {
    forall k :: 0 <= k < n && LiveWalk(code, i, k).Some? && LiveWalk(code, i, k).value < |code| ==>
      ReservedOk(code[LiveWalk(code, i, k).value], code, LiveWalk(code, i, k).value + 1)
  }

  /** However long the dead stretch, the skip loop arrives at every instruction the live decoder would arrive at. */
  lemma {:induction false} SkipArrives(code: seq<Byte>, i: nat, n: nat)
    requires LiveWalk(code, i, n).Some? && AllReservedOk(code, i, n)
    ensures DeadWalk(code, i, n) == LiveWalk(code, i, n)
    decreases n
  {
    if n > 0 {
      var op := code[i];
      var j := LiveEnd(op, code, i + 1).value;
      assert LiveWalk(code, i, 0) == Some(i);
      SameImmediates(op, code, i + 1);
      forall k | 0 <= k < n - 1
        ensures LiveWalk(code, j, k) == LiveWalk(code, i, k + 1)
      {
      }
      SkipArrives(code, j, n - 1);
    }
  }

  // ----- the loop -----

  lemma {:induction false} LebEnds(code: seq<Byte>, start: nat, i: nat, n: nat)
    requires start <= i && LebFrom(code, start, i, n).Some? && forall j :: start <= j < i && j < |code| ==> code[j] >= 128
    ensures var k := LebFrom(code, start, i, n).value - start; Ends(code, start, k) && 7 * (k - 1) < n
    decreases |code| - i
  {
    if code[i] >= 128 {
      LebEnds(code, start, i + 1, n);
    }
  }

  method SkipLeb(r: Reader, n: nat) returns (v: nat)
    requires LebEnd(r.code, r.cur, n).Some?
    modifies r
    ensures r.cur == LebEnd(r.code, old(r.cur), n).value
    ensures v == Payload(r.code[old(r.cur)..r.cur]) % Pow2(n)
  {
    LebEnds(r.code, r.cur, r.cur, n);
    v := r.ParseUleb128(n, LebEnd(r.code, r.cur, n).value - r.cur);
  }

  /** The immediates of one opcode in dead code. */
  method SkipImmediates(r: Reader, op: Byte)
    requires DeadEnd(op, r.code, r.cur).Some?
    modifies r
    ensures r.cur == DeadEnd(op, r.code, old(r.cur)).value
  {
    hide Payload, Pow2, LebEnd;
    var v;
    if op == BLOCK || op == LOOP || op == IF || op == MEMORY_SIZE || op == MEMORY_GROW || op == PREFIX_NUMERIC {
      r.cur := r.cur + 1;
    } else if op == BR || op == CONST_I32 || GET_LOCAL <= op <= SET_GLOBAL || op == CALL || op == BR_IF {
      v := SkipLeb(r, 32);
    } else if op == CONST_I64 {
      v := SkipLeb(r, 64);
    } else if op == CONST_F32 {
      r.cur := r.cur + 4;
    } else if op == CONST_F64 {
      r.cur := r.cur + 8;
    } else if op == CALL_INDIRECT {
      v := SkipLeb(r, 32);
      r.cur := r.cur + 1;
    } else if LOAD_I32 <= op <= STORE32_I64 {
      v := SkipLeb(r, 32);
      v := SkipLeb(r, if Wide(op) then 64 else 32);
    } else if op == BR_TABLE {
      var count := SkipLeb(r, 32);
      ghost var goal := ManyLebs(r.code, r.cur, count + 1);
      var i := 0;
      while i < count
        invariant 0 <= i <= count && goal.Some? && ManyLebs(r.code, r.cur, count + 1 - i) == goal
      {
        v := SkipLeb(r, 32);
        i := i + 1;
      }
      v := SkipLeb(r, 32);
    }
  }

  // ----- from where a frame dies to its own else or end -----

  /** How far an opcode nests. */
  function Nests(op: Byte): int { if op == BLOCK || op == LOOP || op == IF then 1 else if op == END then -1 else 0 }

  /** The nesting after n instructions from i, as the live decoder reads them. */
  function Nesting(code: seq<Byte>, i: nat, n: nat): int
    requires LiveWalk(code, i, n).Some?
    decreases n
  {
    if n == 0 then 0 else Nests(code[i]) + Nesting(code, LiveEnd(code[i], code, i + 1).value, n - 1)
  }

  /** After n instructions comes an else or an end that belongs to the frame of the first. */
  predicate OwnEnd(code: seq<Byte>, i: nat, n: nat) {
    && LiveWalk(code, i, n).Some? && LiveWalk(code, i, n).value < |code| && Nesting(code, i, n) == 0
    && (code[LiveWalk(code, i, n).value] == ELSE || code[LiveWalk(code, i, n).value] == END)
  }

  lemma {:induction false} WalkSplit(code: seq<Byte>, i: nat, k: nat, n: nat)
    requires k <= n && LiveWalk(code, i, n).Some?
    ensures LiveWalk(code, i, k).Some? && LiveWalk(code, i, n) == LiveWalk(code, LiveWalk(code, i, k).value, n - k)
    ensures Nesting(code, i, n) == Nesting(code, i, k) + Nesting(code, LiveWalk(code, i, k).value, n - k)
    decreases k
  {
    hide LiveEnd;
    if k > 0 {
      WalkSplit(code, LiveEnd(code[i], code, i + 1).value, k - 1, n - 1);
    }
  }

  /** One more instruction. */
  lemma WalkNext(code: seq<Byte>, i: nat, k: nat, n: nat)
    requires k < n && LiveWalk(code, i, n).Some?
    ensures LiveWalk(code, i, k).Some? && LiveWalk(code, i, k + 1).Some?
    ensures var p := LiveWalk(code, i, k).value;
            && p < |code| && LiveEnd(code[p], code, p + 1) == LiveWalk(code, i, k + 1)
            && Nesting(code, i, k + 1) == Nesting(code, i, k) + Nests(code[p])
  {
    hide LiveEnd;
    WalkSplit(code, i, k + 1, n);
    WalkSplit(code, i, k, k + 1);
    var p := LiveWalk(code, i, k).value;
    assert LiveWalk(code, p, 1) == LiveWalk(code, LiveEnd(code[p], code, p + 1).value, 0);
    assert Nesting(code, p, 1) == Nests(code[p]) + Nesting(code, LiveEnd(code[p], code, p + 1).value, 0);
  }

  /** The loop over the bytes of a dead frame: it stops right after the opcode of the first else or end that belongs to
      the frame, wherever the live decoder would find that. */
  method SkipDead(r: Reader, ghost n: nat) returns (op: Byte)
    requires OwnEnd(r.code, r.cur, n) && AllReservedOk(r.code, r.cur, n)
    requires forall k :: 0 <= k < n ==> !OwnEnd(r.code, r.cur, k)
    modifies r
    ensures r.cur == LiveWalk(r.code, old(r.cur), n).value + 1 && op == r.code[r.cur - 1]
    ensures op == ELSE || op == END
  {
    hide LiveEnd, DeadEnd, ReservedOk;
    ghost var start, done := r.cur, 0;
    WalkSplit(r.code, start, 0, n);
    if n > 0 { WalkNext(r.code, start, 0, n); }
    var depth := 0;
    op := r.code[r.cur];
    r.cur := r.cur + 1;
    while depth != 0 || (op != ELSE && op != END)
      invariant 0 <= done <= n && 0 < r.cur <= |r.code| && op == r.code[r.cur - 1]
      invariant LiveWalk(r.code, start, done) == Some(r.cur - 1) && depth == Nesting(r.code, start, done) >= 0
      decreases n - done
    {
      assert done < n;
      WalkNext(r.code, start, done, n);
      SameImmediates(op, r.code, r.cur);
      if op == BLOCK || op == LOOP || op == IF {
        depth := depth + 1;
      } else if op == END {
        depth := depth - 1;
      }
      SkipImmediates(r, op);
      done := done + 1;
      if done < n { WalkNext(r.code, start, done, n); }
      op := r.code[r.cur];
      r.cur := r.cur + 1;
    }
    assert OwnEnd(r.code, start, done);
  }
}
