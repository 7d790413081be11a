/** The bytes of function bodies (section 5.4 of the WebAssembly Core Specification 1.0), and the proof that the loop over
    the bytes of dead code stops right after the body it is in. */
module Encoding {
  import opened Values
  import opened Powers
  import opened Wasm
  import opened TranslatorSpec
  import opened Invariant
  import opened Structure
  import opened Leb
  import opened Skipping

  /** All instructions without a nested body, by the shape of their immediates. */
  datatype Instr =
    | Bare(op: Byte)
    | Index(op: Byte, n: nat)
    | Table(ns: seq<nat>, d: nat)
    | Indirect(n: nat)
    | Memory(op: Byte, align: nat, offset: nat)
    | Size(op: Byte)
    | ConstI32(v: int)
    | ConstI64(v: int)
    | ConstF32(raw: seq<Byte>)
    | ConstF64(raw: seq<Byte>)
    | Saturating(sub: Byte)

  predicate IsInstr(i: Instr) {
    match i
    case Bare(op) => op == 0x00 || op == 0x01 || op == 0x0f || op == 0x1a || op == 0x1b || 0x45 <= op <= 0xc4
    case Index(op, _) => op == 0x0c || op == 0x0d || op == 0x10 || 0x20 <= op <= 0x24
    case Memory(op, _, _) => 0x28 <= op <= 0x3e
    case Size(op) => op == 0x3f || op == 0x40
    case _ => true
  }

  datatype Body =
    | Nil
    | Ins(i: Instr, next: Body)
    | Nest(op: Byte, bt: Byte, body: Body, next: Body)
    | Cond(bt: Byte, thn: Body, next: Body)
    | CondElse(bt: Byte, thn: Body, els: Body, next: Body)

  predicate IsBody(b: Body) {
    match b
    case Nil => true
    case Ins(i, next) => IsInstr(i) && IsBody(next)
    case Nest(op, _, body, next) => (op == 0x02 || op == 0x03) && IsBody(body) && IsBody(next)
    case Cond(_, thn, next) => IsBody(thn) && IsBody(next)
    case CondElse(_, thn, els, next) => IsBody(thn) && IsBody(els) && IsBody(next)
  }

  /** The pieces a body is written in: instructions, the opening of a nested body with its type, else and end. */
  datatype Piece = Whole(i: Instr) | Open(op: Byte, bt: Byte) | Mark(op: Byte)

  function Pieces(b: Body): seq<Piece> {
    match b
    case Nil => []
    case Ins(i, next) => [Whole(i)] + Pieces(next)
    case Nest(op, bt, body, next) => [Open(op, bt)] + Pieces(body) + [Mark(0x0b)] + Pieces(next)
    case Cond(bt, thn, next) => [Open(0x04, bt)] + Pieces(thn) + [Mark(0x0b)] + Pieces(next)
    case CondElse(bt, thn, els, next) =>
      [Open(0x04, bt)] + (Pieces(thn) + ([Mark(0x05)] + (Pieces(els) + ([Mark(0x0b)] + Pieces(next)))))
  }

  // ----- bytes -----

  /** An index or a count from i to k, minimal or padded. */
  ghost predicate LebAt(code: seq<Byte>, i: nat, n: nat, k: nat) {
    i < k && 7 * (k - i - 1) < 32 && StandsIn(code, i, n, k - i) && n < Pow2(32) && n < Pow2(7 * (k - i))
  }

  ghost predicate LebsAt(code: seq<Byte>, i: nat, ns: seq<nat>, k: nat)
    decreases |ns|
  {
    if ns == [] then i == k else exists j :: i < j <= k && LebAt(code, i, ns[0], j) && LebsAt(code, j, ns[1..], k)
  }

  ghost predicate SlebAt(code: seq<Byte>, i: nat, v: int, n: nat, k: nat) {
    i < k && StandsIn(code, i, v, k - i) && Fits(v, k - i, n)
  }

  /** An instruction from its opcode at i to k. The reserved bytes are zero. */
  ghost predicate InstrAt(code: seq<Byte>, i: nat, ins: Instr, k: nat)
    requires i < k <= |code|
  {
    match ins
    case Bare(op) => code[i] == op && k == i + 1
    case Index(op, n) => code[i] == op && LebAt(code, i + 1, n, k)
    case Table(ns, d) => code[i] == 0x0e && exists j :: i + 1 < j <= k && LebAt(code, i + 1, |ns|, j) && LebsAt(code, j, ns + [d], k)
    case Indirect(n) => code[i] == 0x11 && LebAt(code, i + 1, n, k - 1) && code[k - 1] == 0
    case Memory(op, align, offset) => code[i] == op && LebsAt(code, i + 1, [align, offset], k)
    case Size(op) => code[i] == op && k == i + 2 && code[i + 1] == 0
    case ConstI32(v) => code[i] == 0x41 && SlebAt(code, i + 1, v, 32, k)
    case ConstI64(v) => code[i] == 0x42 && SlebAt(code, i + 1, v, 64, k)
    case ConstF32(raw) => code[i] == 0x43 && |raw| == 4 && k == i + 5 && code[i + 1..k] == raw
    case ConstF64(raw) => code[i] == 0x44 && |raw| == 8 && k == i + 9 && code[i + 1..k] == raw
    case Saturating(sub) => code[i] == 0xfc && k == i + 2 && code[i + 1] == sub
  }

  ghost predicate PieceAt(code: seq<Byte>, i: nat, p: Piece, k: nat) {
    i < k <= |code| &&
    match p
    case Whole(ins) => InstrAt(code, i, ins, k)
    case Open(op, bt) => k == i + 2 && code[i] == op && code[i + 1] == bt
    case Mark(op) => k == i + 1 && code[i] == op
  }

  ghost predicate PiecesAt(code: seq<Byte>, i: nat, ps: seq<Piece>, k: nat)
    decreases |ps|
  {
    if ps == [] then i == k else exists j :: i < j <= k && PieceAt(code, i, ps[0], j) && PiecesAt(code, j, ps[1..], k)
  }

  // ----- one piece -----

  lemma {:induction false} EndsLeb(code: seq<Byte>, start: nat, i: nat, k: nat, n: nat)
    requires Leb.Ends(code, start, k) && start <= i < start + k && 7 * (k - 1) < n
    ensures LebFrom(code, start, i, n) == Some(start + k)
    decreases start + k - i
  {
    if i < start + k - 1 {
      EndsLeb(code, start, i + 1, k, n);
    }
  }

  lemma LebRead(code: seq<Byte>, i: nat, n: nat, k: nat)
    requires LebAt(code, i, n, k)
    ensures LebEnd(code, i, 32) == Some(k) && Payload(code[i..k]) % Pow2(32) == n
  {
    hide Pow2, Payload;
    UnsignedRoundTrip(code, i, 32, n, k - i);
    EndsLeb(code, i, i, k - i, 32);
  }

  lemma SlebRead(code: seq<Byte>, i: nat, v: int, n: nat, k: nat)
    requires SlebAt(code, i, v, n, k)
    ensures LebEnd(code, i, n) == Some(k)
  {
    hide Pow2, Payload;
    StandsEnds(code, i, v, k - i);
    EndsLeb(code, i, i, k - i, n);
  }

  lemma {:induction false} LebsRead(code: seq<Byte>, i: nat, ns: seq<nat>, k: nat)
    requires LebsAt(code, i, ns, k)
    ensures ManyLebs(code, i, |ns|) == Some(k)
    decreases |ns|
  {
    hide LebAt, LebEnd;
    if ns != [] {
      var j :| i < j <= k && LebAt(code, i, ns[0], j) && LebsAt(code, j, ns[1..], k);
      LebRead(code, i, ns[0], j);
      LebsRead(code, j, ns[1..], k);
    }
  }

  lemma TwoRead(code: seq<Byte>, i: nat, a: nat, b: nat, k: nat)
    requires LebsAt(code, i, [a, b], k)
    ensures TwoLebs(code, i, 32, 32) == Some(k)
  {
    hide LebAt, LebEnd;
    var j :| i < j <= k && LebAt(code, i, a, j) && LebsAt(code, j, [a, b][1..], k);
    assert [a, b][1..] == [b];
    var j' :| j < j' <= k && LebAt(code, j, b, j') && LebsAt(code, j', [b][1..], k);
    assert j' == k;
    LebRead(code, i, a, j);
    LebRead(code, j, b, k);
  }

  lemma TableRead(code: seq<Byte>, i: nat, ns: seq<nat>, d: nat, j: nat, k: nat)
    requires LebAt(code, i, |ns|, j) && LebsAt(code, j, ns + [d], k)
    ensures TableEnd(code, i) == Some(k)
  {
    hide LebAt, LebsAt, LebEnd, ManyLebs, Payload, Pow2;
    LebRead(code, i, |ns|, j);
    LebsRead(code, j, ns + [d], k);
  }

  lemma ZeroRead(code: seq<Byte>, i: nat)
    requires i < |code| && code[i] == 0
    ensures LebEnd(code, i, 32) == Some(i + 1)
  {
  }

  /** What the live decoder reads after each opcode; only three have a reserved byte, and none of these nests. */
  lemma BareRead(op: Byte, code: seq<Byte>, i: nat)
    requires IsInstr(Bare(op))
    ensures LiveEnd(op, code, i) == Some(i) && ReservedOk(op, code, i) && Flat(op)
  {
    hide LebEnd, TableEnd, TwoLebs;
  }

  lemma IndexRead(op: Byte, code: seq<Byte>, i: nat)
    requires IsInstr(Index(op, 0))
    ensures LiveEnd(op, code, i) == LebEnd(code, i, 32) && ReservedOk(op, code, i) && Flat(op)
  {
    hide LebEnd, TableEnd, TwoLebs;
  }

  lemma MemoryRead(op: Byte, code: seq<Byte>, i: nat)
    requires IsInstr(Memory(op, 0, 0))
    ensures LiveEnd(op, code, i) == TwoLebs(code, i, 32, 32) && ReservedOk(op, code, i) && Flat(op)
  {
    hide LebEnd, TableEnd, TwoLebs;
  }

  lemma SizeRead(op: Byte, code: seq<Byte>, i: nat)
    requires IsInstr(Size(op)) && i < |code| && code[i] == 0
    ensures LiveEnd(op, code, i) == Some(i + 1) && ReservedOk(op, code, i) && Flat(op)
  {
    hide LebEnd, TableEnd, TwoLebs;
    ZeroRead(code, i);
  }

  predicate Flat(op: Byte) { Nests(op) == 0 && op != 0x05 && op != 0x0b }

  /** An instruction ends where the live decoder goes on, and its reserved byte is one byte. */
  lemma InstrRead(code: seq<Byte>, i: nat, ins: Instr, k: nat)
    requires i < k <= |code| && IsInstr(ins) && InstrAt(code, i, ins, k)
    ensures LiveEnd(code[i], code, i + 1) == Some(k) && ReservedOk(code[i], code, i + 1) && Flat(code[i])
  {
    hide LebAt, LebsAt, SlebAt, LebEnd, TableEnd, TwoLebs;
    if ins.Bare? || ins.Index? || ins.Memory? || ins.Size? {
      hide LiveEnd, ReservedOk, Flat;
      match ins
      case Bare(op) => BareRead(op, code, i + 1);
      case Size(op) => SizeRead(op, code, i + 1);
      case Index(op, n) =>
        IndexRead(op, code, i + 1);
        LebRead(code, i + 1, n, k);
      case Memory(op, align, offset) =>
        MemoryRead(op, code, i + 1);
        TwoRead(code, i + 1, align, offset, k);
    } else {
      OtherRead(code, i, ins, k);
    }
  }

  lemma OtherRead(code: seq<Byte>, i: nat, ins: Instr, k: nat)
    requires i < k <= |code| && IsInstr(ins) && InstrAt(code, i, ins, k)
    requires !ins.Bare? && !ins.Index? && !ins.Memory? && !ins.Size?
    ensures LiveEnd(code[i], code, i + 1) == Some(k) && ReservedOk(code[i], code, i + 1) && Flat(code[i])
  {
    hide LebAt, LebsAt, SlebAt, LebEnd, TableEnd, TwoLebs, IsInstr;
    match ins
    case Table(ns, d) =>
      var j :| i + 1 < j <= k && LebAt(code, i + 1, |ns|, j) && LebsAt(code, j, ns + [d], k);
      TableRead(code, i + 1, ns, d, j, k);
    case Indirect(n) => IndirectRead(code, i, n, k);
    case ConstI32(v) => SlebRead(code, i + 1, v, 32, k);
    case ConstI64(v) => SlebRead(code, i + 1, v, 64, k);
    case ConstF32(_) =>
    case ConstF64(_) =>
    case Saturating(_) =>
  }

  lemma IndirectRead(code: seq<Byte>, i: nat, n: nat, k: nat)
    requires i < k <= |code| && code[i] == 0x11 && LebAt(code, i + 1, n, k - 1) && code[k - 1] == 0
    ensures LiveEnd(code[i], code, i + 1) == Some(k) && ReservedOk(code[i], code, i + 1) && Flat(code[i])
  {
    hide LebAt, LebEnd, TableEnd, TwoLebs;
    LebRead(code, i + 1, n, k - 1);
    ZeroRead(code, k - 1);
    BothRead(code, i + 1, k - 1, k);
  }

  lemma BothRead(code: seq<Byte>, i: nat, j: nat, k: nat)
    requires LebEnd(code, i, 32) == Some(j) && LebEnd(code, j, 32) == Some(k)
    ensures TwoLebs(code, i, 32, 32) == Some(k)
  {
  }

  predicate IsPiece(p: Piece) {
    match p
    case Whole(i) => IsInstr(i)
    case Open(op, _) => op == 0x02 || op == 0x03 || op == 0x04
    case Mark(op) => op == 0x05 || op == 0x0b
  }

  function PieceNests(p: Piece): int { if p.Open? then 1 else if p == Mark(0x0b) then -1 else 0 }

  lemma PieceRead(code: seq<Byte>, i: nat, p: Piece, k: nat)
    requires IsPiece(p) && PieceAt(code, i, p, k)
    ensures LiveEnd(code[i], code, i + 1) == Some(k) && ReservedOk(code[i], code, i + 1)
    ensures Nests(code[i]) == PieceNests(p) && (code[i] == ELSE || code[i] == END <==> p.Mark?)
  {
    hide InstrAt;
    if p.Whole? { InstrRead(code, i, p.i, k); }
  }

  // ----- bodies -----

  function Depth(ps: seq<Piece>): int { if ps == [] then 0 else PieceNests(ps[0]) + Depth(ps[1..]) }

  /** How many pieces come before the first else or end that closes more than is opened, from a given depth. */
  function Inside(ps: seq<Piece>, d: int): nat {
    if ps == [] || (d == 0 && ps[0].Mark?) then 0 else 1 + Inside(ps[1..], d + PieceNests(ps[0]))
  }

  predicate ArePieces(ps: seq<Piece>) { forall k :: 0 <= k < |ps| ==> IsPiece(ps[k]) }

  lemma Cons(p: Piece, ps: seq<Piece>, d: int)
    requires d != 0 || !p.Mark?
    ensures Inside([p] + ps, d) == 1 + Inside(ps, d + PieceNests(p)) && Depth([p] + ps) == PieceNests(p) + Depth(ps)
  {
    assert ([p] + ps)[1..] == ps;
  }

  /** A body closes all it opens, and nothing else. */
  lemma {:induction false} BodyInside(b: Body, rest: seq<Piece>, d: nat)
    requires IsBody(b)
    ensures Inside(Pieces(b) + rest, d) == |Pieces(b)| + Inside(rest, d) && Depth(Pieces(b) + rest) == Depth(rest)
    decreases b, 1
  {
    hide Inside, Depth;
    match b
    case Nil => assert Pieces(b) + rest == rest;
    case Ins(i, next) =>
      assert Pieces(b) + rest == [Whole(i)] + (Pieces(next) + rest);
      Cons(Whole(i), Pieces(next) + rest, d);
      BodyInside(next, rest, d);
    case Nest(op, bt, body, next) => NestInside(b, Open(op, bt), body, next, rest, d);
    case Cond(bt, thn, next) => NestInside(b, Open(0x04, bt), thn, next, rest, d);
    case CondElse(bt, thn, els, next) => ElseInside(b, bt, thn, els, next, rest, d);
  }

  lemma {:induction false} ElseInside(b: Body, bt: Byte, thn: Body, els: Body, next: Body, rest: seq<Piece>, d: nat)
    requires b == CondElse(bt, thn, els, next) && IsBody(thn) && IsBody(els) && IsBody(next)
    ensures Inside(Pieces(b) + rest, d) == |Pieces(b)| + Inside(rest, d) && Depth(Pieces(b) + rest) == Depth(rest)
    decreases b, 0
  {
    hide Inside, Depth, IsBody;
    ElseShape(b, bt, thn, els, next, rest);
    hide Pieces;
    var tail := Pieces(els) + ([Mark(0x0b)] + (Pieces(next) + rest));
    Cons(Open(0x04, bt), Pieces(thn) + ([Mark(0x05)] + tail), d);
    BodyInside(thn, [Mark(0x05)] + tail, d + 1);
    Cons(Mark(0x05), tail, d + 1);
    BodyInside(els, [Mark(0x0b)] + (Pieces(next) + rest), d + 1);
    Cons(Mark(0x0b), Pieces(next) + rest, d + 1);
    BodyInside(next, rest, d);
  }

  lemma ElseShape(b: Body, bt: Byte, thn: Body, els: Body, next: Body, rest: seq<Piece>)
    requires b == CondElse(bt, thn, els, next)
    ensures |Pieces(b)| == 3 + |Pieces(thn)| + |Pieces(els)| + |Pieces(next)|
    ensures Pieces(b) + rest ==
            [Open(0x04, bt)] + (Pieces(thn) + ([Mark(0x05)] + (Pieces(els) + ([Mark(0x0b)] + (Pieces(next) + rest)))))
  {
    hide Pieces;
    ElsePieces(b, bt, thn, els, next);
    Regrouped(Open(0x04, bt), Pieces(thn), Mark(0x05), Pieces(els), [Mark(0x0b)] + Pieces(next), rest);
    Group([Mark(0x0b)], Pieces(next), rest);
  }

  lemma ElsePieces(b: Body, bt: Byte, thn: Body, els: Body, next: Body)
    requires b == CondElse(bt, thn, els, next)
    ensures Pieces(b) == [Open(0x04, bt)] + (Pieces(thn) + ([Mark(0x05)] + (Pieces(els) + ([Mark(0x0b)] + Pieces(next)))))
  {
  }

  lemma Regrouped(o: Piece, t: seq<Piece>, m: Piece, l: seq<Piece>, n: seq<Piece>, rest: seq<Piece>)
    ensures [o] + (t + ([m] + (l + n))) + rest == [o] + (t + ([m] + (l + (n + rest))))
  {
    calc {
      [o] + (t + ([m] + (l + n))) + rest;
    ==  { Group([o], t + ([m] + (l + n)), rest); }
      [o] + (t + ([m] + (l + n)) + rest);
    ==  { Group(t, [m] + (l + n), rest); }
      [o] + (t + ([m] + (l + n) + rest));
    ==  { Group([m], l + n, rest); }
      [o] + (t + ([m] + (l + n + rest)));
    ==  { Group(l, n, rest); }
      [o] + (t + ([m] + (l + (n + rest))));
    }
  }

  lemma Group(a: seq<Piece>, b: seq<Piece>, c: seq<Piece>)
    ensures a + b + c == a + (b + c)
  {
  }

  /** All pieces of a body are pieces. */
  lemma {:induction false} BodyPieces(b: Body)
    requires IsBody(b)
    ensures ArePieces(Pieces(b))
    decreases b
  {
    hide ArePieces, IsInstr;
    NoPieces();
    match b
    case Nil =>
    case Ins(i, next) =>
      BodyPieces(next);
      MorePieces(Whole(i), Pieces(next));
    case Nest(op, bt, body, next) =>
      BodyPieces(body);
      BodyPieces(next);
      NestPieces(Open(op, bt), Pieces(body), Pieces(next));
    case Cond(bt, thn, next) =>
      BodyPieces(thn);
      BodyPieces(next);
      NestPieces(Open(0x04, bt), Pieces(thn), Pieces(next));
    case CondElse(bt, thn, els, next) =>
      BodyPieces(thn);
      BodyPieces(els);
      BodyPieces(next);
      MorePieces(Mark(0x0b), Pieces(next));
      JoinPieces(Pieces(els), [Mark(0x0b)] + Pieces(next));
      MorePieces(Mark(0x05), Pieces(els) + ([Mark(0x0b)] + Pieces(next)));
      JoinPieces(Pieces(thn), [Mark(0x05)] + (Pieces(els) + ([Mark(0x0b)] + Pieces(next))));
      MorePieces(Open(0x04, bt), Pieces(thn) + ([Mark(0x05)] + (Pieces(els) + ([Mark(0x0b)] + Pieces(next)))));
  }

  lemma NoPieces()
    ensures ArePieces([])
  {
  }

  lemma MorePieces(p: Piece, ps: seq<Piece>)
    requires IsPiece(p) && ArePieces(ps)
    ensures ArePieces([p] + ps)
  {
  }

  lemma JoinPieces(ps: seq<Piece>, qs: seq<Piece>)
    requires ArePieces(ps) && ArePieces(qs)
    ensures ArePieces(ps + qs)
  {
  }

  lemma NestPieces(p: Piece, body: seq<Piece>, next: seq<Piece>)
    requires IsPiece(p) && ArePieces(body) && ArePieces(next)
    ensures ArePieces([p] + body + [Mark(0x0b)] + next)
  {
  }

  lemma {:induction false} NestInside(b: Body, open: Piece, body: Body, next: Body, rest: seq<Piece>, d: nat)
    requires IsBody(body) && IsBody(next) && body < b && next < b && open.Open? && IsPiece(open)
    requires Pieces(b) == [open] + Pieces(body) + [Mark(0x0b)] + Pieces(next)
    ensures Inside(Pieces(b) + rest, d) == |Pieces(b)| + Inside(rest, d) && Depth(Pieces(b) + rest) == Depth(rest)
    decreases b, 0
  {
    hide Inside, Depth, Pieces;
    assert Pieces(b) + rest == [open] + (Pieces(body) + ([Mark(0x0b)] + (Pieces(next) + rest)));
    Cons(open, Pieces(body) + ([Mark(0x0b)] + (Pieces(next) + rest)), d);
    BodyInside(body, [Mark(0x0b)] + (Pieces(next) + rest), d + 1);
    Cons(Mark(0x0b), Pieces(next) + rest, d + 1);
    BodyInside(next, rest, d);
  }

  /** At the k-th instruction of a walk stands an else or end, at a nesting that closes d. */
  predicate Closes(code: seq<Byte>, i: nat, d: int, k: nat) {
    && LiveWalk(code, i, k).Some? && LiveWalk(code, i, k).value < |code| && d + Nesting(code, i, k) == 0
    && (code[LiveWalk(code, i, k).value] == ELSE || code[LiveWalk(code, i, k).value] == END)
  }

  /** The walk of the decoder over pieces that stand in the code. */
  lemma {:induction false} PiecesRead(code: seq<Byte>, i: nat, ps: seq<Piece>, j: nat, d: int)
    requires ArePieces(ps) && PiecesAt(code, i, ps, j)
    ensures LiveWalk(code, i, |ps|) == Some(j) && Nesting(code, i, |ps|) == Depth(ps)
    ensures forall k :: 0 <= k < Inside(ps, d) && k < |ps| ==> !Closes(code, i, d, k)
    ensures AllReservedOk(code, i, |ps|)
    decreases |ps|
  {
    hide PieceAt, LiveEnd, ReservedOk;
    if ps != [] {
      var n :| i < n <= j && PieceAt(code, i, ps[0], n) && PiecesAt(code, n, ps[1..], j);
      PieceRead(code, i, ps[0], n);
      PieceStarts(code, i, ps[0], n);
      var d' := d + PieceNests(ps[0]);
      PiecesRead(code, n, ps[1..], j, d');
      forall k | 0 < k <= |ps|
        ensures LiveWalk(code, i, k) == LiveWalk(code, n, k - 1)
        ensures LiveWalk(code, i, k).Some? ==> Nesting(code, i, k) == PieceNests(ps[0]) + Nesting(code, n, k - 1)
      {
      }
      forall k | 0 <= k < Inside(ps, d) && k < |ps|
        ensures !Closes(code, i, d, k)
      {
        if k > 0 { assert Closes(code, n, d', k - 1) <==> Closes(code, i, d, k); }
      }
    }
  }

  lemma PieceStarts(code: seq<Byte>, i: nat, p: Piece, k: nat)
    requires PieceAt(code, i, p, k)
    ensures i < |code|
  {
  }

  /** From the first byte of a body up to an else or an end: this is the first that does not belong to the body. */
  lemma BodyEnds(code: seq<Byte>, i: nat, b: Body, j: nat)
    requires IsBody(b) && PiecesAt(code, i, Pieces(b), j) && j < |code| && (code[j] == 0x05 || code[j] == 0x0b)
    ensures LiveWalk(code, i, |Pieces(b)|) == Some(j) && OwnEnd(code, i, |Pieces(b)|)
    ensures AllReservedOk(code, i, |Pieces(b)|) && forall k :: 0 <= k < |Pieces(b)| ==> !OwnEnd(code, i, k)
  {
    hide LiveWalk, Nesting, PiecesAt, Pieces, AllReservedOk;
    BodyInside(b, [], 0);
    BodyPieces(b);
    assert Pieces(b) + [] == Pieces(b);
    PiecesRead(code, i, Pieces(b), j, 0);
    forall k | 0 <= k < |Pieces(b)|
      ensures !OwnEnd(code, i, k)
    {
      assert !Closes(code, i, 0, k);
    }
  }

  /** Dead code is skipped to where its frame goes on: from the first byte of any body, whatever its instructions, the loop
      stops right after the else or the end that follows the body. */
  method SkipBody(r: Reader, ghost b: Body, ghost j: nat) returns (op: Byte)
    requires IsBody(b) && PiecesAt(r.code, r.cur, Pieces(b), j)
    requires j < |r.code| && (r.code[j] == 0x05 || r.code[j] == 0x0b)
    modifies r
    ensures r.cur == j + 1 && op == r.code[j]
  {
    BodyEnds(r.code, r.cur, b, j);
    op := SkipDead(r, |Pieces(b)|);
  }

  // ----- the structured code of the translator -----

  function LittleEndian(bits: nat, n: nat): seq<Byte> {
    if n == 0 then [] else [bits % 256] + LittleEndian(bits / 256, n - 1)
  }

  /** Types as they follow block, loop and if. */
  function TypeByte(bt: BlockType): Byte {
    if bt.None? then 0x40
    else match bt.value case I32 => 0x7f case I64 => 0x7e case F32 => 0x7d case F64 => 0x7c
  }

  function RelOpcode(r: Pred): Byte {
    match r
    case Eq => 0x46
    case Ne => 0x47
    case Slt => 0x48
    case Ult => 0x49
    case Sgt => 0x4a
    case Ugt => 0x4b
    case Sle => 0x4c
    case Ule => 0x4d
    case Sge => 0x4e
    case Uge => 0x4f
  }

  function ArithOpcode(o: BinOp): Byte {
    match o
    case Add => 0x6a
    case Sub => 0x6b
    case Mul => 0x6c
    case DivS => 0x6d
    case DivU => 0x6e
    case RemS => 0x6f
    case RemU => 0x70
  }

  function NumOpcode(op: NumOp): Byte {
    match op
    case Eqz(t) => if t == I32 then 0x45 else 0x50
    case Rel(t, r) => if t == I32 then RelOpcode(r) else RelOpcode(r) + 11
    case Arith(t, o) => if t == I32 then ArithOpcode(o) else ArithOpcode(o) + 18
  }

  function InstrOf(i: Simple): Instr {
    match i
    case IUnreachable => Bare(0x00)
    case INop => Bare(0x01)
    case IReturn => Bare(0x0f)
    case IDrop => Bare(0x1a)
    case ISelect => Bare(0x1b)
    case IConst(v) =>
      (match v.ty
       case I32 => ConstI32(Signed(v))
       case I64 => ConstI64(Signed(v))
       case F32 => ConstF32(LittleEndian(v.bits, 4))
       case F64 => ConstF64(LittleEndian(v.bits, 8)))
    case IGetLocal(x) => Index(0x20, x)
    case ISetLocal(x) => Index(0x21, x)
    case ITeeLocal(x) => Index(0x22, x)
    case INum(op) => Bare(NumOpcode(op))
    case IBr(n) => Index(0x0c, n)
    case IBrIf(n) => Index(0x0d, n)
    case IBrTable(ns, d) => Table(ns, d)
  }

  function PieceOf(t: Tok): Piece {
    match t
    case TPlain(i) => Whole(InstrOf(i))
    case TBlock(bt) => Open(0x02, TypeByte(bt))
    case TLoop(bt) => Open(0x03, TypeByte(bt))
    case TIf(bt) => Open(0x04, TypeByte(bt))
    case TElse => Mark(0x05)
    case TEnd => Mark(0x0b)
  }

  /** How the tokens of the translator are written. */
  function Spelled(ts: seq<Tok>): seq<Piece> { if ts == [] then [] else [PieceOf(ts[0])] + Spelled(ts[1..]) }

  function BodyOf(c: Code): Body {
    match c
    case Done => Nil
    case Plain(i, next) => Ins(InstrOf(i), BodyOf(next))
    case Block(bt, body, next) => Nest(0x02, TypeByte(bt), BodyOf(body), BodyOf(next))
    case Loop(bt, body, next) => Nest(0x03, TypeByte(bt), BodyOf(body), BodyOf(next))
    case IfElse(bt, thn, els, next) => CondElse(TypeByte(bt), BodyOf(thn), BodyOf(els), BodyOf(next))
    case IfOnly(bt, thn, next) => Cond(TypeByte(bt), BodyOf(thn), BodyOf(next))
  }

  lemma {:induction false} SpelledBoth(a: seq<Tok>, b: seq<Tok>)
    ensures Spelled(a + b) == Spelled(a) + Spelled(b)
    decreases |a|
  {
    if a == [] {
      assert a + b == b;
    } else {
      assert (a + b)[1..] == a[1..] + b;
      SpelledBoth(a[1..], b);
    }
  }

  lemma SpelledOne(t: Tok)
    ensures Spelled([t]) == [PieceOf(t)]
  {
  }

  lemma NestSpelled(t: Tok, body: seq<Tok>, next: seq<Tok>)
    ensures Spelled([t] + body + [TEnd] + next) == [PieceOf(t)] + Spelled(body) + [Mark(0x0b)] + Spelled(next)
  {
    hide PieceOf;
    SpelledOne(t);
    SpelledOne(TEnd);
    EndPiece();
    SpelledBoth([t] + body + [TEnd], next);
    SpelledBoth([t] + body, [TEnd]);
    SpelledBoth([t], body);
  }

  lemma EndPiece()
    ensures PieceOf(TEnd) == Mark(0x0b) && PieceOf(TElse) == Mark(0x05)
  {
  }

  /** The tokens of structured code are written as the pieces of a body. */
  lemma {:induction false} CodeSpelled(c: Code)
    ensures Spelled(Flatten(c)) == Pieces(BodyOf(c)) && IsBody(BodyOf(c))
  {
    hide Spelled, InstrOf;
    match c
    case Done => assert Spelled([]) == [] by { SpelledNone(); }
    case Plain(i, next) =>
      CodeSpelled(next);
      SpelledOne(TPlain(i));
      SpelledBoth([TPlain(i)], Flatten(next));
      InstrOfIs(i);
    case Block(bt, body, next) =>
      CodeSpelled(body);
      CodeSpelled(next);
      NestSpelled(TBlock(bt), Flatten(body), Flatten(next));
    case Loop(bt, body, next) =>
      CodeSpelled(body);
      CodeSpelled(next);
      NestSpelled(TLoop(bt), Flatten(body), Flatten(next));
    case IfOnly(bt, thn, next) =>
      CodeSpelled(thn);
      CodeSpelled(next);
      NestSpelled(TIf(bt), Flatten(thn), Flatten(next));
    case IfElse(bt, thn, els, next) =>
      CodeSpelled(thn);
      CodeSpelled(els);
      CodeSpelled(next);
      ElseSpelled(TIf(bt), Flatten(thn), Flatten(els), Flatten(next));
  }

  lemma SpelledNone()
    ensures Spelled([]) == []
  {
  }

  lemma InstrOfIs(i: Simple)
    ensures IsInstr(InstrOf(i))
  {
  }

  lemma ElseSpelled(t: Tok, thn: seq<Tok>, els: seq<Tok>, next: seq<Tok>)
    ensures Spelled([t] + thn + [TElse] + els + [TEnd] + next) ==
            [PieceOf(t)] + (Spelled(thn) + ([Mark(0x05)] + (Spelled(els) + ([Mark(0x0b)] + Spelled(next)))))
  {
    hide PieceOf;
    RightFirst(t, thn, els, next);
    SpelledOne(t);
    SpelledOne(TElse);
    SpelledOne(TEnd);
    EndPiece();
    SpelledBoth([t], thn + ([TElse] + (els + ([TEnd] + next))));
    SpelledBoth(thn, [TElse] + (els + ([TEnd] + next)));
    SpelledBoth([TElse], els + ([TEnd] + next));
    SpelledBoth(els, [TEnd] + next);
    SpelledBoth([TEnd], next);
  }

  lemma RightFirst(t: Tok, thn: seq<Tok>, els: seq<Tok>, next: seq<Tok>)
    ensures [t] + thn + [TElse] + els + [TEnd] + next == [t] + (thn + ([TElse] + (els + ([TEnd] + next))))
  {
  }

  /** Tokens and bytes together: a dead body leaves the translator's whole state as it was, and of its bytes the loop
      reads exactly these, up to the opcode that the frame goes on with. */
  method SkipCode(r: Reader, ghost c: Code, ghost j: nat, ghost lt: seq<WTy>, ghost s: TState) returns (op: Byte)
    requires Inv(s) && !Live(s) && PiecesAt(r.code, r.cur, Spelled(Flatten(c)), j)
    requires j < |r.code| && (r.code[j] == 0x05 || r.code[j] == 0x0b)
    modifies r
    ensures Trans(lt, s, c) == Some(s)
    ensures r.cur == j + 1 && op == r.code[j]
  {
    hide Inv, Live, Trans, PiecesAt, Spelled, Flatten, Pieces;
    DeadBodySkipped(lt, s, c);
    CodeSpelled(c);
    op := SkipBody(r, BodyOf(c), j);
  }
}
