/** Leaving a block: the edge taken, the phi it feeds, and the state on the other side. */
module Edges {
  import opened Values
  import opened Cfg
  import opened Wasm
  import opened TranslatorSpec
  import opened Invariant
  import opened Steps
  import opened Structure
  import opened Acceptance
  import opened Simulation
  import opened NumericSim
  import opened Lines

  // ----- where an outcome leaves the machine -----

  /** The machine is at the start of a block: the operands ops have the values vs, the cells the values
      lo, and the block's phi, if its signature asks for one, the last value of bst. */
  ghost predicate Arrived(p: Prog, lt: seq<WTy>, block: Label, sig: BlockType, ops: seq<Opd>,
                          cs: CState, vs: seq<Val>, bst: seq<Val>, lo: seq<Val>) {
    && cs.Running? && cs.b == block < |p.blocks| && cs.i == 0
    && AllHold(p, ops, vs, cs.env) && Cells(lt, lo) && cs.mem == MemOf(lo)
    && (sig.Some? ==>
          && bst != [] && Last(bst).ty == sig.value
          && p.blocks[block].phi.Some? && p.blocks[block].phi.value in cs.env
          && cs.env[p.blocks[block].phi.value] == Last(bst))
  }

  /** Arrived at block, with the operands of s below h intact. */
  ghost predicate Lands(p: Prog, lt: seq<WTy>, s: TState, block: Label, sig: BlockType, h: nat,
                        cs: CState, vs: seq<Val>, bst: seq<Val>, lo: seq<Val>) {
    h <= |s.stack| && h <= |vs| && Arrived(p, lt, block, sig, s.stack[..h], cs, vs[..h], bst, lo)
  }

  // ----- edges -----

  /** A predecessor that was still open has no pair yet, so the pair it adds is the one found. */
  lemma {:induction false} LookupFresh(g: Graph, inc: seq<Incoming>, inc': seq<Incoming>, v: Opd, from: Label)
    requires forall k :: 0 <= k < |inc| ==> FromClosed(g, inc[k])
    requires from < |g| && !Closed(g[from]) && inc <= inc' && |inc| < |inc'|
    requires forall k :: |inc| <= k < |inc'| ==> inc'[k] == In(v, from)
    ensures Lookup(inc', from) == Some(v)
    decreases |inc|
  {
    if inc == [] {
      assert inc'[0] == In(v, from);
    } else {
      assert FromClosed(g, inc[0]);
      LookupFresh(g, inc[1..], inc'[1..], v, from);
    }
  }

  /** Over an edge that hands over v, the phi takes v's value. */
  lemma EnterPhi(p: Prog, g: Graph, n: nat, g': Graph, from: Label, t: Label, v: Opd, env: Env, mem: Env, val: Val)
    requires GraphOk(g, n) && from < |g| && !Closed(g[from]) && t < |g| && |g| <= |g'|
    requires g[t].phi.Some? && Received(g[t], g'[t], v, from) && |g[t].incoming| < |g'[t].incoming|
    requires Grows(g', p.blocks) && Eval(v, env, p.args) == Some(val)
    ensures t < |p.blocks| && p.blocks[t].phi == g[t].phi
    ensures Enter(p, from, t, env, mem) == Running(t, 0, env[g[t].phi.value := val], mem)
  {
    assert BlkGrows(g'[t], p.blocks[t]) && BlkOk(g, n, g[t]);
    LookupFresh(g, g[t].incoming, g'[t].incoming, v, from);
    LookupGrows(g'[t].incoming, p.blocks[t].incoming, from);
  }

  /** A block a branch can lead to while the operands below h stay: its phi is younger than they are. */
  ghost predicate EdgeOk(s: TState, t: Label, sig: BlockType, h: nat) {
    && h <= |s.stack| && t < |s.blocks| && s.blocks[t].sig == sig
    && (sig.Some? ==>
          && PhiTarget(s, t) && s.blocks[t].phi.Some?
          && forall k :: 0 <= k < h ==> RegBelow(s.stack[k], s.blocks[t].phi.value))
  }

  /** Every label and every end block is such a block, for the operands outside its frame. */
  lemma FrameEdge(s: TState, j: nat)
    requires Core(s) && j < |s.cf|
    ensures j < |s.labels| && EdgeOk(s, s.labels[j].block, s.labels[j].sig, s.cf[j].outerStack)
    ensures EdgeOk(s, s.cf[j].end, s.cf[j].sig, s.cf[j].outerStack)
  {
    assert LabelOk(s.blocks, s.cf[j], s.labels[j]) && PendingOk(s.blocks, s.cf[j]);
    assert FrameOk(s.cf[j], j, |s.stack|);
  }

  /** A terminator that leads to t, with the result v handed over to all targets: the machine lands in t. */
  lemma EdgeSim(p: Prog, lt: seq<WTy>, s: TState, cs: CState, vs: seq<Val>, lo: seq<Val>, bst: seq<Val>,
                ts: seq<Label>, v: Option<Opd>, term: Inst, t: Label, sig: BlockType, h: nat)
    requires s.cur < |s.blocks| && Core(s) && CurOpen(s) && Agrees(p, lt, s, cs, vs, lo) && IsTerm(term)
    requires forall k :: 0 <= k < |ts| ==> ts[k] < |s.blocks| && (v.Some? ==> PhiTarget(s, ts[k]))
    requires t in ts && EdgeOk(s, t, sig, h) && (sig.Some? <==> v.Some?)
    requires sig.Some? ==> bst != [] && Last(bst).ty == sig.value && Holds(p, v.value, Last(bst), cs.env)
    requires Grows(Leave(s, ts, v, term).blocks, p.blocks)
    requires Advance(p, cs) == Enter(p, s.cur, t, cs.env, cs.mem)
    ensures Lands(p, lt, s, t, sig, h, Advance(p, cs), vs, bst, lo)
  {
    hide Advance, Enter;
    var g' := Leave(s, ts, v, term).blocks;
    if v.None? {
      assert BlkOk(s.blocks, s.next, s.blocks[t]);
      TargetPlain(s, term, t);
      EnterPlain(p, g', s.cur, t, cs.env, cs.mem);
    } else {
      HandOverTarget(s, ts, v.value, term, t);
      PhiTargetOk(s, t);
      EnterPhi(p, s.blocks, s.next, g', s.cur, t, v.value, cs.env, cs.mem, Last(bst));
      var phi := s.blocks[t].phi.value;
      forall k | 0 <= k < h
        ensures Holds(p, s.stack[..h][k], vs[..h][k], cs.env[phi := Last(bst)])
      {
        assert Holds(p, s.stack[k], vs[k], cs.env);
      }
    }
  }

  lemma TargetPlain(s: TState, term: Inst, t: Label)
    requires s.cur < |s.blocks| && t < |s.blocks|
    ensures Emit(s, term).blocks[t].phi == s.blocks[t].phi
  {
  }

  lemma HandOverTarget(s: TState, ts: seq<Label>, v: Opd, term: Inst, t: Label)
    requires s.cur < |s.blocks| && Core(s) && CurOpen(s) && IsTerm(term) && t in ts
    requires forall k :: 0 <= k < |ts| ==> ts[k] < |s.blocks| && PhiTarget(s, ts[k])
    ensures t < |s.blocks| && t != s.cur
    ensures var g' := HandOver(s, ts, v, term).blocks;
            Received(s.blocks[t], g'[t], v, s.cur) && |s.blocks[t].incoming| < |g'[t].incoming|
  {
    PhiTargetOk(s, t);
    HandOverBlock(s, ts, v, term, t);
    AddAllBlock(s.blocks, ts, v, s.cur, t);
  }

  /** The operands below h and the frames they lie outside of. */
  lemma LandsFrom(p: Prog, lt: seq<WTy>, s: TState, s': TState, block: Label, sig: BlockType, h: nat,
                  cs: CState, vs: seq<Val>, vs': seq<Val>, bst: seq<Val>, lo: seq<Val>)
    requires Lands(p, lt, s, block, sig, h, cs, vs, bst, lo)
    requires h <= |s'.stack| && s'.stack[..h] == s.stack[..h] && h <= |vs'| && vs'[..h] == vs[..h]
    ensures Lands(p, lt, s', block, sig, h, cs, vs', bst, lo)
  {
  }

  /** An unconditional jump. */
  lemma JumpSim(p: Prog, lt: seq<WTy>, s: TState, cs: CState, vs: seq<Val>, lo: seq<Val>, l: BlockEntry, h: nat)
    requires s.cur < |s.blocks| && Ready(s) && Agrees(p, lt, s, cs, vs, lo) && h <= Top(s).outerStack
    requires EdgeOk(s, l.block, l.sig, h) && JumpTo(s, l).Some? && Grows(JumpTo(s, l).value.blocks, p.blocks)
    ensures Lands(p, lt, s, l.block, l.sig, h, RunN(p, cs, 1), vs, vs, lo)
  {
    hide Ready, Grows, Advance, RunN, Leave, AllHold, Cells, Core, CurOpen, Lands;
    OneStep(p, cs);
    ReadyBuilds(s);
    AgreesFacts(p, lt, s, cs, vs, lo);
    if l.sig.None? {
      LeaveJump(p, s, cs, [l.block], None, l.block);
      EdgeSim(p, lt, s, cs, vs, lo, vs, [l.block], None, Br(l.block), l.block, l.sig, h);
    } else {
      var s1 := Drop(s);
      DropReady(s);
      ReadyBuilds(s1);
      PopRel(p, lt, s, cs, vs, lo);
      LeaveJump(p, s1, cs, [l.block], Some(TopOpd(s)), l.block);
      EdgeSim(p, lt, s1, cs, Front(vs), lo, vs, [l.block], Some(TopOpd(s)), Br(l.block), l.block, l.sig, h);
      LandsFrom(p, lt, s1, s, l.block, l.sig, h, RunN(p, cs, 1), Front(vs), vs, vs, lo);
    }
  }

  lemma LeaveJump(p: Prog, s: TState, cs: CState, ts: seq<Label>, v: Option<Opd>, t: Label)
    requires s.cur < |s.blocks| && Core(s) && CurOpen(s) && StandsAt(s, cs)
    requires forall k :: 0 <= k < |ts| ==> ts[k] < |s.blocks| && (v.Some? ==> PhiTarget(s, ts[k]))
    requires Grows(Leave(s, ts, v, Br(t)).blocks, p.blocks)
    ensures Advance(p, cs) == Enter(p, s.cur, t, cs.env, cs.mem)
  {
    hide Core, CurOpen;
    LeaveTerm(p, s, ts, v, Br(t));
  }

  /** The terminator stands in the final graph. */
  lemma LeaveTerm(p: Prog, s: TState, ts: seq<Label>, v: Option<Opd>, term: Inst)
    requires s.cur < |s.blocks| && Core(s) && CurOpen(s) && IsTerm(term)
    requires forall k :: 0 <= k < |ts| ==> ts[k] < |s.blocks| && (v.Some? ==> PhiTarget(s, ts[k]))
    requires Grows(Leave(s, ts, v, term).blocks, p.blocks)
    ensures s.cur < |p.blocks| && |s.blocks[s.cur].insts| < |p.blocks[s.cur].insts|
    ensures p.blocks[s.cur].insts[|s.blocks[s.cur].insts|] == term
  {
    var b := Leave(s, ts, v, term).blocks[s.cur];
    if v.Some? {
      HandOverBlock(s, ts, v.value, term, s.cur);
    }
    assert BlkGrows(b, p.blocks[s.cur]);
    assert b.insts == p.blocks[s.cur].insts[..|b.insts|];
  }

  // ----- conditional branches -----

  /** Emission that leaves the operands alone. */
  lemma MovedAgrees(p: Prog, lt: seq<WTy>, s: TState, cs: CState, s': TState, cs': CState, vs: seq<Val>, lo: seq<Val>)
    requires Agrees(p, lt, s, cs, vs, lo) && AllBelow(s.stack, s.next)
    requires Moved(p, s, cs, s', cs') && s'.stack == s.stack
    ensures Agrees(p, lt, s', cs', vs, lo)
  {
    HoldLater(p, s.stack, vs, cs.env, cs'.env, s.next);
  }

  lemma BrIfTestSim(p: Prog, lt: seq<WTy>, s: TState, cs: CState, vs: seq<Val>, lo: seq<Val>, c: Opd, vc: Val)
    requires s.cur < |s.blocks| && Ready(s) && Agrees(p, lt, s, cs, vs, lo)
    requires Holds(p, c, vc, cs.env) && vc.ty == I32 && Grows(BrIfTest(s, c).blocks, p.blocks)
    ensures Agrees(p, lt, BrIfTest(s, c), Advance(p, cs), vs, lo)
    ensures Holds(p, Reg(s.next, I1), FromBool(vc.bits != 0), Advance(p, cs).env)
  {
    var s1 := NewBlock(s, None);
    ReadyRegs(s);
    assert EmitBin(s1, LCmp(Ne), c, Const(Zero(I32))) == BrIfTest(s, c);
    hide EmitBin, BrIfTest, Advance, Grows, Ready, Cells;
    TestSim(p, s1, cs, c, vc);
    MovedAgrees(p, lt, s1, cs, BrIfTest(s, c), Advance(p, cs), vs, lo);
  }

  /** A conditional branch to t or to an empty block f. */
  lemma CondEdge(p: Prog, lt: seq<WTy>, s: TState, cs: CState, vs: seq<Val>, lo: seq<Val>, c: Opd, ok: bool,
                 v: Option<Opd>, t: Label, sig: BlockType, h: nat, f: Label)
    requires s.cur < |s.blocks| && Core(s) && CurOpen(s) && Agrees(p, lt, s, cs, vs, lo)
    requires EdgeOk(s, t, sig, h) && (sig.Some? <==> v.Some?) && Holds(p, c, FromBool(ok), cs.env)
    requires sig.Some? ==> vs != [] && Last(vs).ty == sig.value && Holds(p, v.value, Last(vs), cs.env)
    requires f < |s.blocks| && f != s.cur && f != t && s.blocks[f] == Blk(None, None, [], [])
    requires Grows(Leave(s, [t], v, CondBr(c, t, f)).blocks, p.blocks)
    ensures ok ==> Lands(p, lt, s, t, sig, h, Advance(p, cs), vs, vs, lo)
    ensures !ok ==> Agrees(p, lt, At(Leave(s, [t], v, CondBr(c, t, f)), f), Advance(p, cs), vs, lo)
  {
    assert Advance(p, cs) == Enter(p, s.cur, if ok then t else f, cs.env, cs.mem) by {
      hide Core, CurOpen, AllHold, Cells, Leave, Enter;
      LeaveTerm(p, s, [t], v, CondBr(c, t, f));
    }
    hide Advance, Enter, Core, CurOpen, Grows, Leave;
    if ok {
      EdgeSim(p, lt, s, cs, vs, lo, vs, [t], v, CondBr(c, t, f), t, sig, h);
    } else {
      LeaveCore(s, [t], v, CondBr(c, t, f));
      EnterPlain(p, Leave(s, [t], v, CondBr(c, t, f)).blocks, s.cur, f, cs.env, cs.mem);
    }
  }

  /** br_if: to the label when the condition is not zero, else on in the fresh block. */
  lemma BrIfSim(p: Prog, lt: seq<WTy>, s: TState, cs: CState, vs: seq<Val>, lo: seq<Val>, n: nat)
    requires InRange(s) && Ready(s) && Agrees(p, lt, s, cs, vs, lo) && StepBrIf(s, n).Some?
    requires Grows(StepBrIf(s, n).value.blocks, p.blocks)
    ensures vs != [] && n < |s.labels| == |s.cf|
    ensures var j, cs', vs' := |s.labels| - 1 - n, RunN(p, cs, 2), Front(vs);
            && (Last(vs).bits != 0 ==>
                  Lands(p, lt, s, s.labels[j].block, s.labels[j].sig, s.cf[j].outerStack, cs', vs, vs', lo))
            && (Last(vs).bits == 0 ==> Agrees(p, lt, StepBrIf(s, n).value, cs', vs', lo))
  {
    hide Ready, Grows, Advance, RunN, Leave, AllHold, Cells, Core, CurOpen, Lands, BrIfTest, EdgeOk, Builds, PhiTarget, Frames;
    var s1, c, j := Drop(s), TopOpd(s), |s.labels| - 1 - n;
    DropReady(s);
    PopRel(p, lt, s, cs, vs, lo);
    BrIfBlocks(s1, c, n);
    var s2, l, h, vs1 := BrIfTest(s1, c), s1.labels[j], s.cf[j].outerStack, Front(vs);
    var v := if l.sig.Some? then Some(TopOpd(s1)) else None;
    var cond := CondBr(Reg(s1.next, I1), l.block, |s1.blocks|);
    if l.sig.Some? { PopRel(p, lt, s1, cs, vs1, lo); }
    LeaveBack(s2, [l.block], v, cond, p.blocks);
    BrIfTestSim(p, lt, s1, cs, vs1, lo, c, Last(vs));
    var cs1 := Advance(p, cs);
    OneStep(p, cs);
    RunNext(p, cs, 1);
    if l.sig.Some? { LastHolds(p, lt, s2, cs1, vs1, lo); }
    CondEdge(p, lt, s2, cs1, vs1, lo, Reg(s1.next, I1), Last(vs).bits != 0, v, l.block, l.sig, h, |s1.blocks|);
    AgreesFacts(p, lt, s, cs, vs, lo);
    if Last(vs).bits != 0 {
      LandsFrom(p, lt, s2, s, l.block, l.sig, h, RunN(p, cs, 2), vs1, vs, vs1, lo);
    }
  }

  lemma LastHolds(p: Prog, lt: seq<WTy>, s: TState, cs: CState, vs: seq<Val>, lo: seq<Val>)
    requires Agrees(p, lt, s, cs, vs, lo) && s.stack != []
    ensures vs != [] && Holds(p, Last(s.stack), Last(vs), cs.env)
  {
  }

  /** What br_if has built before its branch. */
  lemma BrIfBlocks(s: TState, c: Opd, n: nat)
    requires Ready(s) && n < |s.labels|
    ensures s.cur < |s.blocks| && |s.labels| == |s.cf|
    ensures var s2, j := BrIfTest(s, c), |s.labels| - 1 - n;
            && s2.cur < |s2.blocks| && Core(s2) && CurOpen(s2) && s2.stack == s.stack
            && EdgeOk(s2, s.labels[j].block, s.labels[j].sig, s.cf[j].outerStack)
            && s.labels[j].block < |s.blocks| < |s2.blocks| && |s.blocks| != s2.cur
            && s2.blocks[|s.blocks|] == Blk(None, None, [], [])
  {
    ReadyBuilds(s);
    LabelPerFrame(s);
    BrIfTestBuilds(s, c);
    FrameEdge(BrIfTest(s, c), |s.labels| - 1 - n);
    LabelTarget(s, |s.labels| - 1 - n);
  }

  lemma LeaveBack(s: TState, ts: seq<Label>, v: Option<Opd>, term: Inst, g: Graph)
    requires s.cur < |s.blocks| && Core(s) && CurOpen(s) && IsTerm(term)
    requires forall k :: 0 <= k < |ts| ==> ts[k] < |s.blocks| && (v.Some? ==> PhiTarget(s, ts[k]))
    requires Grows(Leave(s, ts, v, term).blocks, g)
    ensures Grows(s.blocks, g)
  {
    hide Core, CurOpen, Grows, Leave, PhiTarget;
    LeaveCore(s, ts, v, term);
    GrowsTrans(s.blocks, Leave(s, ts, v, term).blocks, g);
  }

  // ----- br_table -----

  lemma SwitchStep(p: Prog, s: TState, cs: CState, ts: seq<Label>, v: Option<Opd>, c: Opd, vc: Val, cases: seq<Label>, dflt: Label)
    requires s.cur < |s.blocks| && Core(s) && CurOpen(s) && StandsAt(s, cs)
    requires forall k :: 0 <= k < |ts| ==> ts[k] < |s.blocks| && (v.Some? ==> PhiTarget(s, ts[k]))
    requires Grows(Leave(s, ts, v, Switch(c, cases, dflt)).blocks, p.blocks) && Holds(p, c, vc, cs.env) && vc.ty == I32
    ensures Advance(p, cs) == Enter(p, s.cur, if vc.bits < |cases| then cases[vc.bits] else dflt, cs.env, cs.mem)
  {
    hide Core, CurOpen, Leave, Enter;
    LeaveTerm(p, s, ts, v, Switch(c, cases, dflt));
  }

  /** The jump of br_table from s, whose operand v, if any, every target receives. */
  lemma SwitchSim(p: Prog, lt: seq<WTy>, s: TState, cs: CState, vs: seq<Val>, lo: seq<Val>, bst: seq<Val>,
                  ns: seq<nat>, d: nat, sig: BlockType, v: Option<Opd>, c: Opd, vc: Val)
    requires Ready(s) && Agrees(p, lt, s, cs, vs, lo) && SameSig(s, ns, sig) && SameSig(s, [d], sig)
    requires (sig.Some? <==> v.Some?) && Holds(p, c, vc, cs.env) && vc.ty == I32
    requires sig.Some? ==> bst != [] && Last(bst).ty == sig.value && Holds(p, v.value, Last(bst), cs.env)
    requires |s.labels| == |s.cf| && d < |s.labels| && forall k :: 0 <= k < |ns| ==> ns[k] < |s.labels|
    requires var ts, l := Targets(s, ns), s.labels[|s.labels| - 1 - d].block;
             && s.cur < |s.blocks| && l < |s.blocks| && (forall k :: 0 <= k < |ts| ==> ts[k] < |s.blocks|)
             && Grows(Leave(s, [l] + ts, v, Switch(c, ts, l)).blocks, p.blocks)
    ensures var m := if vc.bits < |ns| then ns[vc.bits] else d;
            var j := |s.labels| - 1 - m;
            && s.labels[j].sig == sig
            && Lands(p, lt, s, s.labels[j].block, sig, s.cf[j].outerStack, Advance(p, cs), vs, bst, lo)
  {
    hide Ready, Grows, Leave, AllHold, Cells, Core, CurOpen, Lands, EdgeOk, PhiTarget, Advance, Enter;
    var ts, l := Targets(s, ns), s.labels[|s.labels| - 1 - d].block;
    var m := if vc.bits < |ns| then ns[vc.bits] else d;
    var j := |s.labels| - 1 - m;
    ReadyBuilds(s);
    TableTargets(s, ns, sig);
    TableTargets(s, [d], sig);
    assert Targets(s, [d])[0] == l;
    assert s.labels[j].sig == sig by {
      assert m < |s.labels| && (m in ns || m == d);
      assert BranchDepth(s, m) == Some(s.labels[j]);
      assert [d][0] == d;
    }
    FrameEdge(s, j);
    SwitchStep(p, s, cs, [l] + ts, v, c, vc, ts, l);
    var t := s.labels[j].block;
    assert t in [l] + ts by {
      if vc.bits < |ns| { assert ts[vc.bits] == t; assert ([l] + ts)[vc.bits + 1] == t; } else { assert ([l] + ts)[0] == t; }
    }
    EdgeSim(p, lt, s, cs, vs, lo, bst, [l] + ts, v, Switch(c, ts, l), t, sig, s.cf[j].outerStack);
  }

  lemma BrTableSim(p: Prog, lt: seq<WTy>, s: TState, cs: CState, vs: seq<Val>, lo: seq<Val>, ns: seq<nat>, d: nat)
    requires InRange(s) && Ready(s) && Agrees(p, lt, s, cs, vs, lo) && StepBrTable(s, ns, d).Some?
    requires Grows(StepBrTable(s, ns, d).value.blocks, p.blocks)
    ensures vs != [] && |s.labels| == |s.cf|
    ensures var m := if Last(vs).bits < |ns| then ns[Last(vs).bits] else d;
            var j := |s.labels| - 1 - m;
            && m < |s.labels|
            && Lands(p, lt, s, s.labels[j].block, s.labels[j].sig, s.cf[j].outerStack, RunN(p, cs, 1), vs, Front(vs), lo)
  {
    hide Ready, Grows, Leave, AllHold, Cells, Core, CurOpen, Lands, Advance, RunN, Targets, SameSig, BranchDepth, StepBrTable, InRange;
    ReadyFacts(s);
    BrTableShape(s, ns, d);
    var s1 := Drop(s);
    DropReady(s);
    ReadyBuilds(s1);
    LabelPerFrame(s1);
    PopRel(p, lt, s, cs, vs, lo);
    TableLabels(s1, ns, d);
    var vs1, vc, l := Front(vs), Last(vs), BranchDepth(s1, d).value;
    var m := if vc.bits < |ns| then ns[vc.bits] else d;
    var j := |s.labels| - 1 - m;
    AgreesFacts(p, lt, s, cs, vs, lo);
    OneStep(p, cs);
    ReadyFacts(s1);
    FloorsBelow(s1);
    if l.sig.None? {
      SwitchSim(p, lt, s1, cs, vs1, lo, vs1, ns, d, l.sig, None, TopOpd(s), vc);
      LandsFrom(p, lt, s1, s, s.labels[j].block, l.sig, s.cf[j].outerStack, RunN(p, cs, 1), vs1, vs, vs1, lo);
    } else {
      DropReady(s1);
      PopRel(p, lt, s1, cs, vs1, lo);
      SwitchSim(p, lt, Drop(s1), cs, Front(vs1), lo, vs1, ns, d, l.sig, Some(TopOpd(s1)), TopOpd(s), vc);
      LandsFrom(p, lt, Drop(s1), s, s.labels[j].block, l.sig, s.cf[j].outerStack, RunN(p, cs, 1), Front(vs1), vs, vs1, lo);
    }
  }

  lemma TableLabels(s: TState, ns: seq<nat>, d: nat)
    requires BranchDepth(s, d).Some? && SameSig(s, ns, BranchDepth(s, d).value.sig)
    ensures d < |s.labels| && BranchDepth(s, d).value == s.labels[|s.labels| - 1 - d]
    ensures forall k :: 0 <= k < |ns| ==> ns[k] < |s.labels|
    ensures SameSig(s, [d], BranchDepth(s, d).value.sig)
    ensures forall s': TState :: s'.labels == s.labels ==>
              SameSig(s', [d], BranchDepth(s, d).value.sig) && SameSig(s', ns, BranchDepth(s, d).value.sig)
              && ((forall k :: 0 <= k < |ns| ==> ns[k] < |s'.labels|) ==> Targets(s', ns) == Targets(s, ns))
  {
    forall k | 0 <= k < |ns|
      ensures ns[k] < |s.labels|
    {
      assert BranchDepth(s, ns[k]).Some?;
    }
  }
}
