/** The part of LLVM that the translator drives: a function is a list of basic blocks, a block has
    at most one phi with its incoming list and a sequence of instructions, and an insertion point
    appends. Terminators are ordinary instructions, so a graph can be malformed. */
module Cfg {
  import opened Values

  type Label = nat

  datatype Opd = Const(v: Val) | Reg(id: nat, rty: Ty) | Param(i: nat, pty: Ty)

  function TypeOf(o: Opd): Ty {
    match o
    case Const(v) => v.ty
    case Reg(_, t) => t
    case Param(_, t) => t
  }

  datatype Inst =
    | Load(dst: nat, x: nat)
    | Store(x: nat, v: Opd)
    | Bin(dst: nat, op: LOp, a: Opd, b: Opd)
    | ZExt(dst: nat, a: Opd)
    | Select(dst: nat, c: Opd, a: Opd, b: Opd)
    | CallThrow
    | Br(t: Label)
    | CondBr(c: Opd, t: Label, f: Label)
    | Switch(c: Opd, cases: seq<Label>, dflt: Label)
    | Ret(r: Option<Opd>)
    | Unreachable

  predicate IsTerm(i: Inst) {
    i.Br? || i.CondBr? || i.Switch? || i.Ret? || i.Unreachable?
  }

  /** The outgoing edges of an instruction, one element per edge. */
  function Succs(i: Inst): seq<Label> {
    match i
    case Br(t) => [t]
    case CondBr(_, t, f) => [t, f]
    case Switch(_, cases, d) => [d] + cases
    case _ => []
  }

  datatype Incoming = In(v: Opd, from: Label)

  /** sig is the type the block's phi was created with, None for a block without one; phi is the
      register of the phi while it exists. */
  datatype Blk = Blk(sig: BlockType, phi: Option<nat>, incoming: seq<Incoming>, insts: seq<Inst>)

  type Graph = seq<Blk>

  predicate Closed(b: Blk) { |b.insts| > 0 && IsTerm(b.insts[|b.insts| - 1]) }

  // ----- execution -----

  datatype Prog = Prog(blocks: Graph, args: seq<Val>)

  type Env = map<nat, Val>

  datatype CState =
    | Running(b: Label, i: nat, env: Env, mem: Env)
    | Returned(v: Option<Val>, rmem: Env)
    | Trapped(tmem: Env)
    | Stuck

  function Eval(o: Opd, env: Env, args: seq<Val>): Option<Val> {
    match o
    case Const(v) => Some(v)
    case Reg(id, _) => if id in env then Some(env[id]) else None
    case Param(i, _) => if i < |args| then Some(args[i]) else None
  }

  /** The incoming value for a predecessor: the first entry naming it. */
  function Lookup(inc: seq<Incoming>, from: Label): Option<Opd> {
    if inc == [] then None
    else if inc[0].from == from then Some(inc[0].v)
    else Lookup(inc[1..], from)
  }

  function Enter(p: Prog, from: Label, to: Label, env: Env, mem: Env): CState {
    if to >= |p.blocks| then Stuck
    else
      match p.blocks[to].phi
      case None => Running(to, 0, env, mem)
      case Some(id) =>
        match Lookup(p.blocks[to].incoming, from)
        case None => Stuck
        case Some(o) =>
          match Eval(o, env, p.args)
          case None => Stuck
          case Some(v) => Running(to, 0, env[id := v], mem)
  }

  function Advance(p: Prog, cs: CState): CState {
    if !cs.Running? || cs.b >= |p.blocks| || cs.i >= |p.blocks[cs.b].insts| then (if cs.Running? then Stuck else cs)
    else
      var Running(b, i, env, mem) := cs;
      match p.blocks[b].insts[i]
      case Load(dst, x) => if x in mem then Running(b, i + 1, env[dst := mem[x]], mem) else Stuck
      case Store(x, o) =>
        (match Eval(o, env, p.args)
         case None => Stuck
         case Some(v) => Running(b, i + 1, env, mem[x := v]))
      case Bin(dst, op, a0, b0) =>
        (var va, vb := Eval(a0, env, p.args), Eval(b0, env, p.args);
         if va.None? || vb.None? then Stuck
         else
           match LBin(op, va.value, vb.value)
           case None => Stuck
           case Some(v) => Running(b, i + 1, env[dst := v], mem))
      case ZExt(dst, a0) =>
        (match Eval(a0, env, p.args)
         case None => Stuck
         case Some(v) => if v.ty == I1 then Running(b, i + 1, env[dst := Val(I32, v.bits)], mem) else Stuck)
      case Select(dst, c, a0, b0) =>
        (var vc, va, vb := Eval(c, env, p.args), Eval(a0, env, p.args), Eval(b0, env, p.args);
         if vc.None? || va.None? || vb.None? || vc.value.ty != I1 then Stuck
         else Running(b, i + 1, env[dst := if vc.value.bits == 1 then va.value else vb.value], mem))
      case CallThrow => Trapped(mem)
      case Br(t) => Enter(p, b, t, env, mem)
      case CondBr(c, t, f) =>
        (match Eval(c, env, p.args)
         case None => Stuck
         case Some(v) => if v.ty == I1 then Enter(p, b, if v.bits == 1 then t else f, env, mem) else Stuck)
      case Switch(c, cases, d) =>
        (match Eval(c, env, p.args)
         case None => Stuck
         case Some(v) =>
           if v.ty == I32 then Enter(p, b, if v.bits < |cases| then cases[v.bits] else d, env, mem)
           else Stuck)
      case Ret(r) =>
        (match r
         case None => Returned(None, mem)
         case Some(o) =>
           match Eval(o, env, p.args)
           case None => Stuck
           case Some(v) => Returned(Some(v), mem))
      case Unreachable => Stuck
  }

  function RunN(p: Prog, cs: CState, n: nat): CState
    decreases n
  {
    if n == 0 then cs else RunN(p, Advance(p, cs), n - 1)
  }

  lemma {:induction false} RunSplit(p: Prog, cs: CState, n: nat, m: nat)
    ensures RunN(p, cs, n + m) == RunN(p, RunN(p, cs, n), m)
    decreases n
  {
    if n != 0 {
      RunSplit(p, Advance(p, cs), n - 1, m);
    }
  }

  /** One more step at the end of a run. */
  lemma {:induction false} RunNext(p: Prog, cs: CState, n: nat)
    ensures RunN(p, cs, n + 1) == Advance(p, RunN(p, cs, n))
    decreases n
  {
    RunSplit(p, cs, n, 1);
    assert RunN(p, RunN(p, cs, n), 1) == RunN(p, Advance(p, RunN(p, cs, n)), 0);
  }

  lemma RunZero(p: Prog, cs: CState)
    ensures RunN(p, cs, 0) == cs
  {
  }

  lemma {:induction false} HaltedStays(p: Prog, cs: CState, n: nat)
    requires !cs.Running?
    ensures RunN(p, cs, n) == cs
    decreases n
  {
    if n != 0 {
      HaltedStays(p, cs, n - 1);
    }
  }

  // ----- growth -----

  /** What later emission can do to a block: append instructions while no terminator stands at the
      end, append incoming pairs, and erase a phi that never got one. */
  predicate BlkGrows(b: Blk, b': Blk) {
    && b'.sig == b.sig
    && (b'.phi == b.phi || (b'.phi == None && b.incoming == []))
    && b.incoming <= b'.incoming
    && b.insts <= b'.insts
    && (Closed(b) ==> b'.insts == b.insts)
  }

  ghost predicate Grows(g: Graph, g': Graph) {
    && |g| <= |g'|
    && forall b :: 0 <= b < |g| ==> BlkGrows(g[b], g'[b])
  }

  lemma GrowsSelf(g: Graph)
    ensures Grows(g, g)
  {
  }

  lemma GrowsTrans(g: Graph, g': Graph, g'': Graph)
    requires Grows(g, g') && Grows(g', g'')
    ensures Grows(g, g'')
  {
    forall b | 0 <= b < |g|
      ensures BlkGrows(g[b], g''[b])
    {
      assert BlkGrows(g[b], g'[b]);
      assert BlkGrows(g'[b], g''[b]);
    }
  }

  lemma {:induction false} LookupGrows(inc: seq<Incoming>, inc': seq<Incoming>, from: Label)
    requires inc <= inc' && Lookup(inc, from).Some?
    ensures Lookup(inc', from) == Lookup(inc, from)
  {
    if inc[0].from != from {
      LookupGrows(inc[1..], inc'[1..], from);
    }
  }
}
