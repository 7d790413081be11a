/** Every token keeps the graph in SSA form: single terminators, phi pairs that agree with the edges, single
    definitions, and availability of every operand on the stack. */
module SsaTokens {
  import opened Values
  import opened Cfg
  import opened Wasm
  import opened TranslatorSpec
  import opened Invariant
  import opened Steps
  import opened Ssa
  import opened SsaSteps
  import opened SsaBranches

  ghost predicate Reads(os: seq<Opd>, regs: set<nat>) {
    forall k :: 0 <= k < |os| ==> RegsOf(os[k]) <= regs
  }

  /** The blocks a frame was opened with share one set of available registers, which holds the operands
      outside the frame and what the frames around it have. */
  ghost predicate Scopes(s: TState, av: seq<set<nat>>) {
    && |s.labels| == |s.cf|
    && (forall i :: 0 <= i < |s.cf| ==>
          && s.cf[i].end < |av| && s.labels[i].block < |av| && av[s.labels[i].block] == av[s.cf[i].end]
          && (s.cf[i].els.Some? ==> s.cf[i].els.value < |av| && av[s.cf[i].els.value] == av[s.cf[i].end]))
    && (forall i, j :: 0 <= i < j < |s.cf| ==> av[s.cf[i].end] <= av[s.cf[j].end])
    && (forall i :: 0 <= i < |s.cf| ==>
          s.cf[i].outerStack <= |s.stack| && Reads(s.stack[..s.cf[i].outerStack], av[s.cf[i].end]))
  }

  /** What is available at the insertion point covers the operands and all frames. */
  ghost predicate Covered(s: TState, av: seq<set<nat>>, now: set<nat>) {
    Reads(s.stack, now) && (|s.cf| > 0 ==> Top(s).end < |av| && av[Top(s).end] <= now)
  }

  /** The graph is in SSA form up to the blocks of todo, which are still to be filled, and the operands are available
      where the insertion point stands, which in dead code is a closed block. */
  ghost predicate Partial(s: TState, av: seq<set<nat>>, todo: set<Label>, broken: set<Label>) {
    && s.cur < |s.blocks| == |av| && FENTRY < |av| && av[FENTRY] == {}
    && Form(s.blocks, s.next, av, broken) && Accounted(s, todo) && Scopes(s, av)
    && Reads(s.stack, Out(s.blocks, av, s.cur))
    && (Live(s) ==> Covered(s, av, Out(s.blocks, av, s.cur)))
  }

  ghost predicate InSsa(s: TState, av: seq<set<nat>>, broken: set<Label>) { Partial(s, av, {}, broken) }

  lemma SsaDrop(s: TState, av: seq<set<nat>>, broken: set<Label>)
    requires InSsa(s, av, broken) && CanPop(s) && Live(s)
    requires forall i :: 0 <= i < |s.cf| ==> s.cf[i].outerStack <= Top(s).outerStack
    ensures InSsa(Drop(s), av, broken) && RegsOf(TopOpd(s)) <= Out(s.blocks, av, s.cur)
  {
    hide Form, Out, Pending, Closed;
    forall i | 0 <= i < |s.cf|
      ensures Reads(Drop(s).stack[..s.cf[i].outerStack], av[s.cf[i].end])
    {
      assert Drop(s).stack[..s.cf[i].outerStack] == s.stack[..s.cf[i].outerStack];
    }
  }

  lemma NeatStart(s: TState, av: seq<set<nat>>, broken: set<Label>)
    requires Ready(s) && InSsa(s, av, broken)
    ensures Neat(s, av, s, {}, broken) && Now(s, av, s) == Base(s, av) == Out(s.blocks, av, s.cur)
  {
    hide Certified, Phis, Single, OneTerms, Accounted, Scopes, Inv;
    ReadyBuilds(s);
    SteadySelf(s.blocks);
    assert AvOf(s, av, s) == av;
  }

  /** A straight-line instruction has been emitted and the operands replaced by stack. */
  lemma Settle(o: TState, av: seq<set<nat>>, s: TState, stack: seq<Opd>, todo: set<Label>, broken: set<Label>)
    requires Ready(o) && InSsa(o, av, broken) && Neat(o, av, s, todo, broken) && Reads(stack, Now(o, av, s))
    requires Top(o).outerStack <= |stack| && Top(o).outerStack <= |o.stack|
    requires stack[..Top(o).outerStack] == o.stack[..Top(o).outerStack]
    requires forall i :: 0 <= i < |o.cf| ==> o.cf[i].outerStack <= Top(o).outerStack
    ensures Partial(s.(stack := stack), AvOf(o, av, s), todo, broken) && Steady(o.blocks, s.blocks)
  {
    hide Certified, Phis, Single, OneTerms, Pending, Closed, Out, Inv, Steady, Grows;
    var s', av' := s.(stack := stack), AvOf(o, av, s);
    SettleScopes(o, av, s', av');
    assert av'[FENTRY] == av[FENTRY];
    assert Top(o).end < |av| && av'[Top(o).end] == av[Top(o).end];
  }

  lemma SettleScopes(o: TState, av: seq<set<nat>>, s: TState, av': seq<set<nat>>)
    requires Scopes(o, av) && |o.cf| > 0 && s.cf == o.cf && s.labels == o.labels
    requires |av| <= |av'| && av'[..|av|] == av
    requires Top(o).outerStack <= |s.stack| && s.stack[..Top(o).outerStack] == o.stack[..Top(o).outerStack]
    requires forall i :: 0 <= i < |o.cf| ==> o.cf[i].outerStack <= Top(o).outerStack
    ensures Scopes(s, av')
  {
    forall b | 0 <= b < |av|
      ensures av'[b] == av[b]
    {
      assert av'[b] == av'[..|av|][b];
    }
    forall i | 0 <= i < |s.cf|
      ensures s.stack[..s.cf[i].outerStack] == o.stack[..o.cf[i].outerStack]
    {
      var h := s.cf[i].outerStack;
      assert s.stack[..Top(o).outerStack][..h] == s.stack[..h] && o.stack[..Top(o).outerStack][..h] == o.stack[..h];
    }
  }

  // ----- straight-line instructions -----

  lemma ReadyFloors(s: TState)
    requires Ready(s)
    ensures |s.cf| > 0 && s.cur < |s.blocks| && Live(s) && Top(s).outerStack <= |s.stack|
    ensures forall i :: 0 <= i < |s.cf| ==> s.cf[i].outerStack <= Top(s).outerStack
  {
    ReadyBuilds(s);
    FloorsBelow(s);
    assert FrameOk(Top(s), |s.cf| - 1, |s.stack|);
  }

  /** Emission of one value and its push. */
  lemma PushSsa(o: TState, av: seq<set<nat>>, s: TState, r: Opd, broken: set<Label>) returns (av': seq<set<nat>>)
    requires Ready(o) && InSsa(o, av, broken) && Neat(o, av, s, {}, broken) && RegsOf(r) <= Now(o, av, s)
    ensures InSsa(Push(s, r), av', broken) && Steady(o.blocks, Push(s, r).blocks)
  {
    hide Form, Accounted, Scopes, Inv, Ready, Out, Phis, Certified, Single, OneTerms, Steady;
    ReadyFloors(o);
    var h := Top(o).outerStack;
    assert Push(s, r).stack[..h] == o.stack[..h];
    NeatCore(o, av, s, {}, broken);
    Settle(o, av, s, s.stack + [r], {}, broken);
    av' := AvOf(o, av, s);
    assert s.(stack := s.stack + [r]) == Push(s, r);
  }

  /** Emission that leaves the operands alone. */
  lemma KeepSsa(o: TState, av: seq<set<nat>>, s: TState, todo: set<Label>, broken: set<Label>) returns (av': seq<set<nat>>)
    requires Ready(o) && InSsa(o, av, broken) && Neat(o, av, s, todo, broken)
    ensures Partial(s, av', todo, broken) && Steady(o.blocks, s.blocks)
  {
    hide Form, Accounted, Scopes, Inv, Ready, Out, Phis, Certified, Single, OneTerms, Steady;
    ReadyFloors(o);
    NeatCore(o, av, s, todo, broken);
    Settle(o, av, s, s.stack, todo, broken);
    av' := AvOf(o, av, s);
    assert s.(stack := s.stack) == s;
  }

  /** A popped operand. */
  lemma PopSsa(s: TState, av: seq<set<nat>>, broken: set<Label>)
    requires Ready(s) && InSsa(s, av, broken) && CanPop(s)
    ensures Ready(Drop(s)) && InSsa(Drop(s), av, broken) && Drop(s).blocks == s.blocks && Drop(s).next == s.next
    ensures RegsOf(TopOpd(s)) <= Out(s.blocks, av, s.cur)
  {
    hide Form, Accounted, Scopes, Inv;
    ReadyFloors(s);
    DropReady(s);
    SsaDrop(s, av, broken);
  }

  lemma NumSsa(s: TState, op: NumOp, av: seq<set<nat>>, broken: set<Label>) returns (av': seq<set<nat>>)
    requires s.cur < |s.blocks| && Ready(s) && InSsa(s, av, broken) && StepNum(s, op).Some?
    ensures InSsa(StepNum(s, op).value, av', broken) && Steady(s.blocks, StepNum(s, op).value.blocks)
  {
    hide Partial, Ready, Neat, Now, Base, EmitBin, EmitBinary, PushBool, Steady, Out, AvOf;
    PopSsa(s, av, broken);
    var s1, x := Drop(s), TopOpd(s);
    match op
    case Eqz(t) =>
      NeatStart(s1, av, broken);
      av' := BoolSsa(s1, av, Eq, x, Const(Zero(t)), broken);
    case Rel(_, r) =>
      PopSsa(s1, av, broken);
      NeatStart(Drop(s1), av, broken);
      av' := BoolSsa(Drop(s1), av, r, TopOpd(s1), x, broken);
    case Arith(t, o) =>
      PopSsa(s1, av, broken);
      var s2 := Drop(s1);
      NeatStart(s2, av, broken);
      NeatBinary(s2, av, s2, t, o, TopOpd(s1), x, broken);
      var r := EmitBinary(s2, t, o, TopOpd(s1), x);
      var c := r.(stack := s2.stack);
      av' := PushSsa(s2, av, c, r.stack[|r.stack| - 1], broken);
      assert Push(c, r.stack[|r.stack| - 1]) == r;
  }

  lemma BoolSsa(s: TState, av: seq<set<nat>>, r: Pred, a: Opd, b: Opd, broken: set<Label>) returns (av': seq<set<nat>>)
    requires s.cur < |s.blocks| && Ready(s) && InSsa(s, av, broken) && Neat(s, av, s, {}, broken)
    requires RegsOf(a) + RegsOf(b) <= Now(s, av, s)
    ensures var s' := PushBool(EmitBin(s, LCmp(r), a, b), Reg(s.next, I1));
            InSsa(s', av', broken) && Steady(s.blocks, s'.blocks)
  {
    hide Partial, Ready, Neat, Now, EmitBin, Steady, AvOf;
    NeatBin(s, av, s, LCmp(r), a, b, {}, broken);
    var s1 := EmitBin(s, LCmp(r), a, b);
    var z := ZExt(s1.next, Reg(s.next, I1));
    NeatInst(s, av, s1, z, s1.next + 1, {}, broken);
    av' := PushSsa(s, av, EmitDef(s1, z), Reg(s1.next, I32), broken);
  }

  lemma SelectSsa(s: TState, av: seq<set<nat>>, broken: set<Label>) returns (av': seq<set<nat>>)
    requires s.cur < |s.blocks| && Ready(s) && InSsa(s, av, broken) && StepSelect(s).Some?
    ensures InSsa(StepSelect(s).value, av', broken) && Steady(s.blocks, StepSelect(s).value.blocks)
  {
    hide Partial, Ready, Neat, Now, Base, EmitBin, Steady, Out, AvOf;
    PopSsa(s, av, broken);
    var s1, s2 := Drop(s), Drop(Drop(s));
    PopSsa(s1, av, broken);
    PopSsa(s2, av, broken);
    var s3 := Drop(s2);
    NeatStart(s3, av, broken);
    NeatBin(s3, av, s3, LCmp(Ne), TopOpd(s), Const(Zero(I32)), {}, broken);
    var s4 := EmitBin(s3, LCmp(Ne), TopOpd(s), Const(Zero(I32)));
    var sel := Select(s4.next, Reg(s3.next, I1), TopOpd(s2), TopOpd(s1));
    NeatInst(s3, av, s4, sel, s4.next + 1, {}, broken);
    av' := PushSsa(s3, av, EmitDef(s4, sel), Reg(s4.next, TypeOf(TopOpd(s2))), broken);
  }

  lemma LocalSsa(lt: seq<WTy>, s: TState, i: Simple, av: seq<set<nat>>, broken: set<Label>) returns (av': seq<set<nat>>)
    requires InRange(s) && Ready(s) && |s.cf| > 0 && InSsa(s, av, broken) && StepPlain(lt, s, i).Some?
    requires i.INop? || i.IDrop? || i.IConst? || i.IGetLocal? || i.ISetLocal? || i.ITeeLocal?
    ensures InSsa(StepPlain(lt, s, i).value, av', broken) && Steady(s.blocks, StepPlain(lt, s, i).value.blocks)
  {
    hide Partial, InRange, Ready, Neat, Now, Base, Steady, Out, AvOf;
    ReadyFloors(s);
    NeatStart(s, av, broken);
    SteadySelf(s.blocks);
    av' := av;
    match i
    case INop =>
    case IDrop => PopSsa(s, av, broken);
    case IConst(v) =>
      av' := PushSsa(s, av, s, Const(v), broken);
    case IGetLocal(x) =>
      var s1 := EmitDef(s, Load(s.next, x));
      NeatInst(s, av, s, Load(s.next, x), s.next + 1, {}, broken);
      av' := PushSsa(s, av, s1, Reg(s.next, lt[x]), broken);
    case ISetLocal(x) =>
      PopSsa(s, av, broken);
      NeatStart(Drop(s), av, broken);
      NeatInst(Drop(s), av, Drop(s), Store(x, TopOpd(s)), s.next, {}, broken);
      av' := KeepSsa(Drop(s), av, Emit(Drop(s), Store(x, TopOpd(s))), {}, broken);
    case ITeeLocal(x) =>
      PopSsa(s, av, broken);
      NeatInst(s, av, s, Store(x, TopOpd(s)), s.next, {}, broken);
      av' := KeepSsa(s, av, Emit(s, Store(x, TopOpd(s))), {}, broken);
  }

  // ----- opening a frame -----

  /** A frame over blocks made since o. */
  lemma OpenSsa(o: TState, av: seq<set<nat>>, s: TState, k: CFKind, sig: BlockType, end: Label, els: Option<Label>, lab: BlockEntry,
                todo: set<Label>, broken: set<Label>)
    requires Ready(o) && InSsa(o, av, broken) && Neat(o, av, s, todo, broken)
    requires forall b :: b in todo ==> b == end || els == Some(b)
    requires |o.blocks| <= end < |s.blocks| && |o.blocks| <= lab.block < |s.blocks|
    requires els.Some? ==> |o.blocks| <= els.value < |s.blocks|
    ensures InSsa(PushFrame(s, k, sig, end, els, lab), AvOf(o, av, s), broken)
    ensures Steady(o.blocks, s.blocks)
  {
    hide Inv, OneTerms, Phis, Single, Certified, Closed, Steady, Out, Grows;
    ReadyFloors(o);
    var s', av' := PushFrame(s, k, sig, end, els, lab), AvOf(o, av, s);
    assert forall b :: 0 <= b < |av| ==> av'[b] == av'[..|av|][b];
    OpenAccounted(s, k, sig, end, els, lab, todo);
    OpenScopes(o, av, s', av', Base(o, av));
  }

  lemma OpenAccounted(s: TState, k: CFKind, sig: BlockType, end: Label, els: Option<Label>, lab: BlockEntry, todo: set<Label>)
    requires Accounted(s, todo) && Live(s) && forall b :: b in todo ==> b == end || els == Some(b)
    ensures Accounted(PushFrame(s, k, sig, end, els, lab), {})
  {
    var s' := PushFrame(s, k, sig, end, els, lab);
    assert s'.cf[|s.cf|].end == end && s'.cf[|s.cf|].els == els;
    forall b | Pending(s.cf, b)
      ensures Pending(s'.cf, b)
    {
      var i :| 0 <= i < |s.cf| && (s.cf[i].end == b || s.cf[i].els == Some(b));
      assert s'.cf[i] == s.cf[i];
    }
  }

  lemma OpenScopes(o: TState, av: seq<set<nat>>, s: TState, av': seq<set<nat>>, base: set<nat>)
    requires Scopes(o, av) && |o.cf| > 0 && |av| <= |av'| && forall b :: 0 <= b < |av| ==> av'[b] == av[b]
    requires |s.cf| == |o.cf| + 1 == |s.labels| && s.cf[..|o.cf|] == o.cf && s.labels[..|o.cf|] == o.labels && s.stack == o.stack
    requires var e, l := Top(s), s.labels[|o.cf|];
             && e.end < |av'| && l.block < |av'| && av'[e.end] == base && av'[l.block] == base && e.outerStack == |o.stack|
             && (e.els.Some? ==> e.els.value < |av'| && av'[e.els.value] == base)
    requires Reads(o.stack, base) && Top(o).end < |av| && av[Top(o).end] <= base
    ensures Scopes(s, av')
  {
    forall i | 0 <= i < |o.cf|
      ensures s.cf[i] == o.cf[i] && s.labels[i] == o.labels[i]
    {
      assert s.cf[..|o.cf|][i] == o.cf[i] && s.labels[..|o.cf|][i] == o.labels[i];
    }
    assert s.stack[..|o.stack|] == o.stack;
  }

  lemma BlockSsa(s: TState, bt: BlockType, av: seq<set<nat>>, broken: set<Label>) returns (av': seq<set<nat>>)
    requires Ready(s) && InSsa(s, av, broken)
    ensures InSsa(StepBlock(s, bt), av', broken) && Steady(s.blocks, StepBlock(s, bt).blocks)
  {
    hide Partial, Ready, Neat, Now, Base, Steady, Out;
    ReadyFloors(s);
    NeatStart(s, av, broken);
    NeatNew(s, av, s, bt, {}, broken);
    OpenSsa(s, av, NewBlock(s, bt), CfBlock, bt, |s.blocks|, None, BlockEntry(bt, |s.blocks|), {} + {|s.blocks|}, broken);
    NeatCore(s, av, NewBlock(s, bt), {} + {|s.blocks|}, broken);
    av' := AvOf(s, av, NewBlock(s, bt));
  }

  lemma LoopSsa(s: TState, bt: BlockType, av: seq<set<nat>>, broken: set<Label>) returns (av': seq<set<nat>>)
    requires s.cur < |s.blocks| && Ready(s) && InSsa(s, av, broken)
    ensures InSsa(StepLoop(s, bt), av', broken) && Steady(s.blocks, StepLoop(s, bt).blocks)
  {
    hide Partial, Ready, Neat, Now, Base, Steady, Out, Builds, Pending;
    var loop, end := |s.blocks|, |s.blocks| + 1;
    NeatStart(s, av, broken);
    NeatNew(s, av, s, None, {}, broken);
    NeatNew(s, av, NewBlock(s, None), bt, {} + {loop}, broken);
    var s1 := NewBlock(NewBlock(s, None), bt);
    NeatMove(s, av, s1, Br(loop), loop, {} + {loop} + {end}, broken);
    assert LoopHead(s, bt) == At(Emit(s1, Br(loop)), loop);
    NeatCore(s, av, LoopHead(s, bt), {} + {loop} + {end} - {loop}, broken);
    OpenSsa(s, av, LoopHead(s, bt), CfLoop, bt, end, None, BlockEntry(None, loop), {} + {loop} + {end} - {loop}, broken);
    av' := AvOf(s, av, LoopHead(s, bt));
  }

  lemma IfSsa(s: TState, bt: BlockType, av: seq<set<nat>>, broken: set<Label>) returns (av': seq<set<nat>>)
    requires s.cur < |s.blocks| && Ready(s) && InSsa(s, av, broken) && StepIf(s, bt).Some?
    ensures InSsa(StepIf(s, bt).value, av', broken) && Steady(s.blocks, StepIf(s, bt).value.blocks)
  {
    hide Partial, Ready, Neat, Now, Base, Steady, Out, Builds, Pending, IfHead;
    PopSsa(s, av, broken);
    var o, thn, end := Drop(s), |s.blocks|, |s.blocks| + 2;
    IfHeadNeat(o, av, TopOpd(s), bt, broken);
    var h := IfHead(o, TopOpd(s), bt);
    NeatCore(o, av, h, {thn + 1, end}, broken);
    OpenSsa(o, av, h, CfIf, bt, end, Some(thn + 1), BlockEntry(bt, end), {thn + 1, end}, broken);
    av' := AvOf(o, av, h);
  }

  lemma IfHeadNeat(s: TState, av: seq<set<nat>>, c: Opd, bt: BlockType, broken: set<Label>)
    requires s.cur < |s.blocks| && Ready(s) && InSsa(s, av, broken) && RegsOf(c) <= Out(s.blocks, av, s.cur)
    ensures var thn := |s.blocks|; var h := IfHead(s, c, bt);
            |h.blocks| == thn + 3 && Neat(s, av, h, {thn + 1, thn + 2}, broken)
  {
    hide Partial, Ready, Neat, Now, Base, Steady, Out, Builds, Pending, EmitBin;
    var thn := |s.blocks|;
    NeatStart(s, av, broken);
    NeatNew(s, av, s, None, {}, broken);
    NeatNew(s, av, NewBlock(s, None), None, {} + {thn}, broken);
    NeatNew(s, av, NewBlock(NewBlock(s, None), None), bt, {} + {thn} + {thn + 1}, broken);
    var s0, todo := NewBlock(NewBlock(NewBlock(s, None), None), bt), {} + {thn} + {thn + 1} + {thn + 2};
    NeatBin(s, av, s0, LCmp(Ne), c, Const(Zero(I32)), todo, broken);
    var s1 := EmitBin(s0, LCmp(Ne), c, Const(Zero(I32)));
    IfHeadShape(s, c, bt);
    NeatMove(s, av, s1, CondBr(Reg(s0.next, I1), thn, thn + 1), thn, todo, broken);
    assert todo - {thn} == {thn + 1, thn + 2};
  }

  lemma IfHeadShape(s: TState, c: Opd, bt: BlockType)
    requires s.cur < |s.blocks|
    ensures var s0, thn := NewBlock(NewBlock(NewBlock(s, None), None), bt), |s.blocks|;
            var s1 := EmitBin(s0, LCmp(Ne), c, Const(Zero(I32)));
            && IfHead(s, c, bt) == At(Emit(s1, CondBr(Reg(s0.next, I1), thn, thn + 1)), thn)
            && |s1.blocks| == thn + 3 && s1.blocks[thn] == Blk(None, None, [], []) && s1.blocks[thn + 1] == Blk(None, None, [], [])
  {
  }

  // ----- leaving a block -----

  /** What is available covers every block a branch can lead to. */
  lemma TargetAvail(s: TState, av: seq<set<nat>>, now: set<nat>, j: nat)
    requires Scopes(s, av) && Covered(s, av, now) && j < |s.cf|
    ensures s.labels[j].block < |av| && av[s.labels[j].block] <= now
    ensures s.cf[j].end < |av| && av[s.cf[j].end] <= now
  {
  }

  /** The conditions on a terminator and the operand it hands over. */
  ghost predicate CanLeave(s: TState, av: seq<set<nat>>, ts: seq<Label>, v: Option<Opd>, term: Inst, broken: set<Label>) {
    && s.cur < |s.blocks| == |av| && IsTerm(term)
    && Uses(term) <= Out(s.blocks, av, s.cur) && (v.Some? ==> RegsOf(v.value) <= Out(s.blocks, av, s.cur))
    && (forall k :: 0 <= k < |Succs(term)| ==>
          && Succs(term)[k] < |s.blocks| && av[Succs(term)[k]] <= Out(s.blocks, av, s.cur)
          && (v.None? ==> s.blocks[Succs(term)[k]].sig.None? || Succs(term)[k] in broken))
    && (forall k :: 0 <= k < |ts| ==> ts[k] < |s.blocks|)
    && (v.Some? ==> SameTargets(s.blocks, ts, term))
  }

  /** The state right after a terminator: what was available before it still is, and nothing else is known. */
  ghost predicate Left(s: TState, av: seq<set<nat>>, s1: TState, todo: set<Label>, broken: set<Label>) {
    && s1.cur == s.cur < |s1.blocks| == |av| && FENTRY < |av| && av[FENTRY] == {}
    && s1.next == s.next && SameStacks(s, s1)
    && Form(s1.blocks, s1.next, av, broken) && Accounted(s1, todo) && Closed(s1.blocks[s1.cur])
    && Steady(s.blocks, s1.blocks)
    && s.cur < |s.blocks| <= |av| && Out(s.blocks, av, s.cur) <= Out(s1.blocks, av, s1.cur)
  }

  lemma LeaveOut(s: TState, av: seq<set<nat>>, ts: seq<Label>, v: Option<Opd>, term: Inst)
    requires s.cur < |s.blocks| == |av| && forall k :: 0 <= k < |ts| ==> ts[k] < |s.blocks|
    ensures var s1 := Leave(s, ts, v, term);
            s1.cur == s.cur < |s1.blocks| == |av| && Out(s.blocks, av, s.cur) <= Out(s1.blocks, av, s1.cur)
  {
    DefsAppend(s.blocks[s.cur].insts, term);
    if v.Some? {
      AddAllPairs(s.blocks, ts, v.value, s.cur);
      assert Received(s.blocks[s.cur], AddAll(s.blocks, ts, v.value, s.cur)[s.cur], v.value, s.cur);
    }
  }

  lemma LeaveSsa(s: TState, av: seq<set<nat>>, ts: seq<Label>, v: Option<Opd>, term: Inst, todo: set<Label>, broken: set<Label>)
    requires Partial(s, av, todo, broken) && CanLeave(s, av, ts, v, term, broken) && Core(s) && CurOpen(s)
    ensures Left(s, av, Leave(s, ts, v, term), todo, broken)
  {
    hide Form, Out, Inv, Scopes, Covered, Pending, Steady, Frames, Regs, Entries;
    LeaveOut(s, av, ts, v, term);
    if v.Some? {
      HandOverForm(s, av, ts, v.value, term, broken);
      AddAllPairs(s.blocks, ts, v.value, s.cur);
      HandOverAccounted(s, ts, v.value, term, todo);
    } else {
      PlainForm(s, av, term, broken);
    }
  }

  lemma HandOverAccounted(s: TState, ts: seq<Label>, v: Opd, term: Inst, todo: set<Label>)
    requires s.cur < |s.blocks| && Accounted(s, todo) && IsTerm(term) && forall k :: 0 <= k < |ts| ==> ts[k] < |s.blocks|
    ensures Accounted(HandOver(s, ts, v, term), todo) && Closed(HandOver(s, ts, v, term).blocks[s.cur])
  {
    var g1 := AddAll(s.blocks, ts, v, s.cur);
    AddAllPairs(s.blocks, ts, v, s.cur);
    forall b | 0 <= b < |s.blocks|
      ensures g1[b].insts == s.blocks[b].insts
    {
      assert Received(s.blocks[b], g1[b], v, s.cur);
    }
  }

  /** The rest of the frame is dead. */
  lemma DeadSsa(s: TState, av: seq<set<nat>>, s1: TState, broken: set<Label>)
    requires Left(s, av, s1, {}, broken) && Scopes(s, av) && |s.cf| > 0 && Top(s).outerStack <= |s.stack|
    requires forall i :: 0 <= i < |s.cf| ==> s.cf[i].outerStack <= Top(s).outerStack
    requires s.cur < |s.blocks| == |av| && Reads(s.stack, Out(s.blocks, av, s.cur))
    ensures SkipUnreachable(s1).Some? && InSsa(SkipUnreachable(s1).value, av, broken)
    ensures SkipUnreachable(s1).value.blocks == s1.blocks
  {
    hide Form, Out, Steady;
    var s2 := SkipUnreachable(s1).value;
    DeadAccounted(s1);
    var h := Top(s).outerStack;
    forall i | 0 <= i < |s.cf|
      ensures s2.stack[..s.cf[i].outerStack] == s.stack[..s.cf[i].outerStack]
    {
      assert s.stack[..h][..s.cf[i].outerStack] == s.stack[..s.cf[i].outerStack];
    }
    assert Scopes(s2, av);
  }

  lemma DeadAccounted(s: TState)
    requires s.cur < |s.blocks| && Accounted(s, {}) && Closed(s.blocks[s.cur]) && |s.cf| > 0 && Top(s).outerStack <= |s.stack|
    ensures Accounted(SkipUnreachable(s).value, {})
  {
    var s2 := SkipUnreachable(s).value;
    forall b | Pending(s.cf, b)
      ensures Pending(s2.cf, b)
    {
      var i :| 0 <= i < |s.cf| && (s.cf[i].end == b || s.cf[i].els == Some(b));
      assert s2.cf[i].end == s.cf[i].end && s2.cf[i].els == s.cf[i].els;
    }
  }

  /** A block with the phi its signature asks for. */
  lemma TargetSigs(s: TState, j: nat)
    requires Core(s) && j < |s.cf|
    ensures j < |s.labels| && s.labels[j].block < |s.blocks| && s.blocks[s.labels[j].block].sig == s.labels[j].sig
    ensures s.cf[j].end < |s.blocks| && s.blocks[s.cf[j].end].sig == s.cf[j].sig
  {
    assert LabelOk(s.blocks, s.cf[j], s.labels[j]) && PendingOk(s.blocks, s.cf[j]);
  }

  /** A branch target as a block: its signature, and what must be available there. */
  ghost predicate Aim(s: TState, av: seq<set<nat>>, l: BlockEntry) {
    && s.cur < |s.blocks| == |av| && l.block < |s.blocks| && s.blocks[l.block].sig == l.sig
    && av[l.block] <= Out(s.blocks, av, s.cur)
  }

  lemma LabelAim(s: TState, av: seq<set<nat>>, broken: set<Label>, j: nat)
    requires Ready(s) && InSsa(s, av, broken) && j < |s.cf|
    ensures j < |s.labels| && Aim(s, av, s.labels[j]) && Aim(s, av, BlockEntry(s.cf[j].sig, s.cf[j].end))
  {
    hide Form, Out, Accounted;
    ReadyBuilds(s);
    TargetSigs(s, j);
    TargetAvail(s, av, Out(s.blocks, av, s.cur), j);
  }

  /** The state a jump leaves from: without the result it hands over. */
  function Leaving(s: TState, l: BlockEntry): TState
    requires l.sig.Some? ==> CanPop(s)
  {
    if l.sig.None? then s else Drop(s)
  }

  lemma JumpSsa(s: TState, l: BlockEntry, av: seq<set<nat>>, broken: set<Label>)
    requires s.cur < |s.blocks| && l.block < |s.blocks| && Ready(s) && InSsa(s, av, broken) && Aim(s, av, l)
    requires JumpTo(s, l).Some?
    ensures l.sig.Some? ==> CanPop(s)
    ensures var d := Leaving(s, l); Ready(d) && InSsa(d, av, broken) && Left(d, av, JumpTo(s, l).value, {}, broken)
  {
    hide Form, Out, Accounted, Scopes, Covered, Leave, Inv, Left, Core;
    ReadyBuilds(s);
    if l.sig.None? {
      LeaveSsa(s, av, [l.block], None, Br(l.block), {}, broken);
    } else {
      PopSsa(s, av, broken);
      ReadyBuilds(Drop(s));
      LeaveSsa(Drop(s), av, [l.block], Some(TopOpd(s)), Br(l.block), {}, broken);
    }
  }

  /** A jump and the dead code after it. */
  lemma GoneSsa(s: TState, l: BlockEntry, av: seq<set<nat>>, broken: set<Label>)
    requires s.cur < |s.blocks| && l.block < |s.blocks| && Ready(s) && InSsa(s, av, broken) && Aim(s, av, l)
    requires JumpTo(s, l).Some?
    ensures |JumpTo(s, l).value.cf| > 0
    ensures SkipUnreachable(JumpTo(s, l).value).Some?
    ensures InSsa(SkipUnreachable(JumpTo(s, l).value).value, av, broken)
    ensures Steady(s.blocks, SkipUnreachable(JumpTo(s, l).value).value.blocks)
  {
    JumpSsa(s, l, av, broken);
    var d := Leaving(s, l);
    ReadyFloors(d);
    hide Form, Out, Accounted, Covered, Inv, JumpTo, Ready, Steady, Scopes;
    LeftSteady(d, av, JumpTo(s, l).value, broken);
    DeadSsa(d, av, JumpTo(s, l).value, broken);
  }

  lemma LeftSteady(s: TState, av: seq<set<nat>>, s1: TState, broken: set<Label>)
    requires Left(s, av, s1, {}, broken)
    ensures Steady(s.blocks, s1.blocks) && s1.cf == s.cf
  {
  }

  lemma BrTableSsa(s: TState, ns: seq<nat>, d: nat, av: seq<set<nat>>, broken: set<Label>)
    requires InRange(s) && Ready(s) && |s.cf| > 0 && InSsa(s, av, broken) && StepBrTable(s, ns, d).Some?
    ensures InSsa(StepBrTable(s, ns, d).value, av, broken) && Steady(s.blocks, StepBrTable(s, ns, d).value.blocks)
  {
    hide Form, Out, Accounted, Scopes, Covered, Leave, Inv, Left, Core, Targets, BranchDepth, SameSig, InSsa, Ready, Steady, CurOpen,
      InRange;
    BrTableShape(s, ns, d);
    PopSsa(s, av, broken);
    var s1 := Drop(s);
    TableAims(s1, ns, d, av, broken);
    var l, ts := BranchDepth(s1, d).value, Targets(s1, ns);
    var all, o, v := [l.block] + ts, s1, None;
    SsaScopes(s1, av, broken);
    if l.sig.Some? {
      PopSsa(s1, av, broken);
      o, v := Drop(s1), Some(TopOpd(s1));
    }
    var term := Switch(TopOpd(s), ts, l.block);
    TableLeave(o, TopOpd(s), ts, l.block, v, l.sig, av, broken);
    ReadyFloors(o);
    LeftSteady(o, av, Leave(o, all, v, term), broken);
    SsaScopes(o, av, broken);
    DeadSsa(o, av, Leave(o, all, v, term), broken);
  }

  lemma SsaScopes(s: TState, av: seq<set<nat>>, broken: set<Label>)
    requires InSsa(s, av, broken)
    ensures s.cur < |s.blocks| == |av| && Scopes(s, av) && Reads(s.stack, Out(s.blocks, av, s.cur))
  {
  }

  /** All targets of br_table have the signature of the default. */
  lemma TableAims(s: TState, ns: seq<nat>, d: nat, av: seq<set<nat>>, broken: set<Label>)
    requires Ready(s) && InSsa(s, av, broken) && BranchDepth(s, d).Some? && SameSig(s, ns, BranchDepth(s, d).value.sig)
    ensures forall k :: 0 <= k < |ns| ==> ns[k] < |s.labels|
    ensures var l := BranchDepth(s, d).value;
            && Aim(s, av, l)
            && forall k :: 0 <= k < |ns| ==> Aim(s, av, BlockEntry(l.sig, Targets(s, ns)[k]))
  {
    hide InSsa, Aim, Core, CurOpen, Ready, Inv;
    ReadyBuilds(s);
    LabelPerFrame(s);
    var sig := BranchDepth(s, d).value.sig;
    LabelAim(s, av, broken, |s.labels| - 1 - d);
    forall k | 0 <= k < |ns|
      ensures ns[k] < |s.labels| && Aim(s, av, s.labels[|s.labels| - 1 - ns[k]]) && s.labels[|s.labels| - 1 - ns[k]].sig == sig
    {
      assert BranchDepth(s, ns[k]).Some?;
      LabelAim(s, av, broken, |s.labels| - 1 - ns[k]);
    }
  }

  /** The successors of a switch are its targets, with repetitions. */
  lemma TableTargetsSame(g: Graph, c: Opd, ts: seq<Label>, d: Label)
    requires d < |g| && g[d].sig.Some? && forall k :: 0 <= k < |ts| ==> ts[k] < |g| && g[ts[k]].sig == g[d].sig
    ensures SameTargets(g, [d] + ts, Switch(c, ts, d))
  {
  }

  lemma TableCan(o: TState, c: Opd, ts: seq<Label>, d: Label, v: Option<Opd>, sig: BlockType, av: seq<set<nat>>,
                 broken: set<Label>)
    requires o.cur < |o.blocks| == |av| && RegsOf(c) <= Out(o.blocks, av, o.cur) && (v.Some? <==> sig.Some?)
    requires v.Some? ==> RegsOf(v.value) <= Out(o.blocks, av, o.cur)
    requires Aim(o, av, BlockEntry(sig, d)) && forall k :: 0 <= k < |ts| ==> Aim(o, av, BlockEntry(sig, ts[k]))
    ensures CanLeave(o, av, [d] + ts, v, Switch(c, ts, d), broken)
    ensures forall k :: 0 <= k < |ts| ==> ts[k] < |o.blocks|
  {
    hide Out, Aim, SameTargets;
    var all := [d] + ts;
    forall k | 0 <= k < |all|
      ensures all[k] < |o.blocks| && o.blocks[all[k]].sig == sig && av[all[k]] <= Out(o.blocks, av, o.cur)
    {
      assert Aim(o, av, BlockEntry(sig, all[k])) by {
        if k > 0 { assert all[k] == ts[k - 1]; }
      }
      AimIs(o, av, BlockEntry(sig, all[k]));
    }
    assert forall k :: 0 <= k < |ts| ==> ts[k] == all[k + 1];
    assert all[0] == d;
    if v.Some? { TableTargetsSame(o.blocks, c, ts, d); }
  }

  lemma TableLeave(o: TState, c: Opd, ts: seq<Label>, d: Label, v: Option<Opd>, sig: BlockType, av: seq<set<nat>>,
                   broken: set<Label>)
    requires d < |o.blocks| && forall k :: 0 <= k < |ts| ==> ts[k] < |o.blocks|
    requires o.cur < |o.blocks| == |av| && RegsOf(c) <= Out(o.blocks, av, o.cur) && (v.Some? <==> sig.Some?)
    requires v.Some? ==> RegsOf(v.value) <= Out(o.blocks, av, o.cur)
    requires Aim(o, av, BlockEntry(sig, d)) && forall k :: 0 <= k < |ts| ==> Aim(o, av, BlockEntry(sig, ts[k]))
    requires Ready(o) && InSsa(o, av, broken)
    ensures Left(o, av, Leave(o, [d] + ts, v, Switch(c, ts, d)), {}, broken)
  {
    hide Form, Out, Accounted, Scopes, Covered, Leave, Inv, Left, Core, CurOpen, Aim;
    ReadyBuilds(o);
    TableCan(o, c, ts, d, v, sig, av, broken);
    hide Ready, CanLeave;
    LeaveSsa(o, av, [d] + ts, v, Switch(c, ts, d), {}, broken);
  }

  lemma AimIs(s: TState, av: seq<set<nat>>, l: BlockEntry)
    requires Aim(s, av, l)
    ensures s.cur < |s.blocks| == |av| && l.block < |s.blocks| && s.blocks[l.block].sig == l.sig
    ensures av[l.block] <= Out(s.blocks, av, s.cur)
  {
  }

  lemma UnreachableSsa(s: TState, av: seq<set<nat>>, broken: set<Label>) returns (av': seq<set<nat>>)
    requires s.cur < |s.blocks| && Ready(s) && |s.cf| > 0 && InSsa(s, av, broken)
    ensures var s' := SkipUnreachable(Emit(TrapIf(s, Const(FromBool(true))), Unreachable));
            s'.Some? && InSsa(s'.value, av', broken) && Steady(s.blocks, s'.value.blocks)
  {
    hide Form, Out, Accounted, Scopes, Covered, Inv, Left, Core, TrapIf, Ready, Neat, Now, Base, Builds, Steady, Grows, CurOpen;
    var c := Const(FromBool(true));
    NeatStart(s, av, broken);
    NeatTrapIf(s, av, s, c, broken);
    var s1 := TrapIf(s, c);
    NeatCore(s, av, s1, {}, broken);
    av' := KeepSsa(s, av, s1, {}, broken);
    ReadyFloors(s);
    BuildsFacts(s, s1);
    LeaveSsa(s1, av', [], None, Unreachable, {}, broken);
    var s2 := Leave(s1, [], None, Unreachable);
    LeftSteady(s1, av', s2, broken);
    SteadyTrans(s.blocks, s1.blocks, s2.blocks);
    DeadSsa(s1, av', s2, broken);
  }

  lemma BuildsFacts(o: TState, s: TState)
    requires Builds(o, s)
    ensures Core(s) && s.cur < |s.blocks| && CurOpen(s) && Grows(o.blocks, s.blocks) && SameStacks(o, s)
  {
  }

  /** Going on in the one block that was still to be filled. */
  lemma GoOnSsa(s: TState, av: seq<set<nat>>, s1: TState, f: Label, broken: set<Label>)
    requires Left(s, av, s1, {f}, broken) && Scopes(s, av) && f < |s1.blocks| && Live(s)
    requires Reads(s.stack, av[f]) && (|s.cf| > 0 ==> Top(s).end < |av| && av[Top(s).end] <= av[f])
    ensures InSsa(At(s1, f), av, broken)
  {
    hide Form, Pending, Closed, Steady;
    assert Scopes(At(s1, f), av);
  }

  lemma BrIfSsa(s: TState, n: nat, av: seq<set<nat>>, broken: set<Label>) returns (av': seq<set<nat>>)
    requires InRange(s) && Ready(s) && InSsa(s, av, broken) && StepBrIf(s, n).Some?
    ensures InSsa(StepBrIf(s, n).value, av', broken) && Steady(s.blocks, StepBrIf(s, n).value.blocks)
  {
    hide InSsa, Partial, Ready, Steady, Out, Builds, Leave, BrIfTest, Left, Grows, CanLeave, InRange, Core, CurOpen;
    PopSsa(s, av, broken);
    var o, f := Drop(s), |s.blocks|;
    ReadyFloors(o);
    av' := BrIfNeat(o, TopOpd(s), av, broken);
    var s2, l := BrIfTest(o, TopOpd(s)), BranchDepth(o, n).value;
    var v := if l.sig.Some? then Some(TopOpd(o)) else None;
    BuildsFacts(o, s2);
    SsaScopes(o, av, broken);
    BrIfShape(o, TopOpd(s));
    BrIfCan(o, s2, TopOpd(s), n, v, av, av', broken);
    var s3 := Leave(s2, [l.block], v, CondBr(Reg(o.next, I1), l.block, f));
    LeaveSsa(s2, av', [l.block], v, CondBr(Reg(o.next, I1), l.block, f), {f}, broken);
    LeftSteadyTo(s2, av', s3, f, broken);
    SteadyTrans(s.blocks, s2.blocks, s3.blocks);
    BrIfCovered(o, s2, av, av', f, broken);
    GoOnSsa(s2, av', s3, f, broken);
  }

  lemma LeftSteadyTo(s: TState, av: seq<set<nat>>, s1: TState, f: Label, broken: set<Label>)
    requires Left(s, av, s1, {f}, broken)
    ensures Steady(s.blocks, s1.blocks) && |s1.blocks| == |av|
  {
  }

  lemma BrIfCovered(o: TState, s2: TState, av: seq<set<nat>>, av': seq<set<nat>>, f: Label, broken: set<Label>)
    requires InSsa(o, av, broken) && Live(o) && SameStacks(o, s2) && Partial(s2, av', {f}, broken)
    requires |av| <= f < |av'| && av'[..|av|] == av && o.cur < |o.blocks| == |av| && av'[f] == Out(o.blocks, av, o.cur)
    ensures Scopes(s2, av') && Reads(s2.stack, av'[f]) && Live(s2)
    ensures |s2.cf| > 0 ==> Top(s2).end < |av'| && av'[Top(s2).end] <= av'[f]
  {
    hide Form, Out, Accounted;
    if |o.cf| > 0 {
      assert av'[Top(o).end] == av'[..|av|][Top(o).end];
    }
  }

  /** The branch of br_if may be emitted. */
  lemma BrIfCan(o: TState, s2: TState, c: Opd, n: nat, v: Option<Opd>, av: seq<set<nat>>, av': seq<set<nat>>, broken: set<Label>)
    requires o.cur < |o.blocks| == |av| <= |av'| == |s2.blocks| && av'[..|av|] == av && s2.cur < |s2.blocks| && |o.blocks| < |av'|
    requires s2 == BrIfTest(o, c) && Core(s2) && BranchDepth(o, n).Some? && (v.Some? <==> BranchDepth(o, n).value.sig.Some?)
    requires Ready(o) && InSsa(o, av, broken) && (v.Some? ==> CanPop(o) && v.value == TopOpd(o))
    requires av'[|o.blocks|] == Out(o.blocks, av, o.cur) <= Out(s2.blocks, av', s2.cur) && o.next in Out(s2.blocks, av', s2.cur)
    ensures var l := BranchDepth(o, n).value;
            && l.block < |s2.blocks|
            && CanLeave(s2, av', [l.block], v, CondBr(Reg(o.next, I1), l.block, |o.blocks|), broken)
  {
    hide Out, InSsa, Ready, Core, BrIfTest;
    var l, f := BranchDepth(o, n).value, |o.blocks|;
    BrIfShape(o, c);
    ReadyBuilds(o);
    LabelPerFrame(o);
    LabelPerFrame(s2);
    LabelAim(o, av, broken, |o.labels| - 1 - n);
    TargetSigs(s2, |o.labels| - 1 - n);
    assert av'[l.block] == av'[..|av|][l.block];
    if v.Some? { PopSsa(o, av, broken); }
    var term := CondBr(Reg(o.next, I1), l.block, f);
    assert v.Some? ==> SameTargets(s2.blocks, [l.block], term) by {
      assert Succs(term) == [l.block] + [f];
    }
    hide SameTargets;
    assert Uses(term) <= Out(s2.blocks, av', s2.cur);
    assert Succs(term)[0] == l.block && Succs(term)[1] == f;
  }

  lemma BrIfShape(o: TState, c: Opd)
    requires o.cur < |o.blocks|
    ensures var s2 := BrIfTest(o, c);
            && s2.labels == o.labels && s2.cf == o.cf && |s2.blocks| == |o.blocks| + 1
            && s2.blocks[|o.blocks|] == Blk(None, None, [], [])
  {
  }

  lemma BrIfNeat(o: TState, c: Opd, av: seq<set<nat>>, broken: set<Label>) returns (av': seq<set<nat>>)
    requires o.cur < |o.blocks| && Ready(o) && InSsa(o, av, broken) && RegsOf(c) <= Out(o.blocks, av, o.cur)
    ensures var s2, f := BrIfTest(o, c), |o.blocks|;
            && Partial(s2, av', {f}, broken) && Steady(o.blocks, s2.blocks) && Builds(o, s2) && s2.cur < |s2.blocks| == |av'|
            && f < |av'| && av'[f] == Out(o.blocks, av, o.cur) <= Out(s2.blocks, av', s2.cur)
            && o.next in Out(s2.blocks, av', s2.cur)
            && |av| <= |av'| && av'[..|av|] == av
  {
    hide Partial, Ready, Neat, Out, Builds, Pending, Steady;
    var f := |o.blocks|;
    NeatStart(o, av, broken);
    NeatNew(o, av, o, None, {}, broken);
    assert {} + {f} == {f};
    var s1 := NewBlock(o, None);
    NeatInst(o, av, s1, Inst.Bin(o.next, LCmp(Ne), c, Const(Zero(I32))), o.next + 1, {f}, broken);
    var s2 := BrIfTest(o, c);
    NeatCore(o, av, s2, {f}, broken);
    ReadyFloors(o);
    BuildsFacts(o, s2);
    SsaReads(o, av, broken);
    Settle(o, av, s2, s2.stack, {f}, broken);
    assert s2.(stack := s2.stack) == s2;
    av' := AvOf(o, av, s2);
  }

  lemma SsaReads(s: TState, av: seq<set<nat>>, broken: set<Label>)
    requires InSsa(s, av, broken) && Live(s)
    ensures s.cur < |s.blocks| == |av| && Covered(s, av, Out(s.blocks, av, s.cur))
  {
  }

  /** Any instruction without a body. */
  lemma PlainSsa(lt: seq<WTy>, s: TState, i: Simple, av: seq<set<nat>>, broken: set<Label>) returns (av': seq<set<nat>>)
    requires InRange(s) && Ready(s) && |s.cf| > 0 && InSsa(s, av, broken) && StepPlain(lt, s, i).Some?
    ensures InSsa(StepPlain(lt, s, i).value, av', broken) && Steady(s.blocks, StepPlain(lt, s, i).value.blocks)
  {
    hide InSsa, Ready, Steady, InRange, StepNum, StepSelect, StepBrIf, StepBrTable, JumpTo, SkipUnreachable, TrapIf, Aim;
    ReadyFloors(s);
    av' := av;
    match i
    case ISelect => av' := SelectSsa(s, av, broken);
    case INum(op) => av' := NumSsa(s, op, av, broken);
    case IUnreachable => av' := UnreachableSsa(s, av, broken);
    case IBr(_) => LeaveTokenSsa(lt, s, i, av, broken);
    case IReturn => LeaveTokenSsa(lt, s, i, av, broken);
    case IBrIf(n) => av' := BrIfSsa(s, n, av, broken);
    case IBrTable(ns, d) => BrTableSsa(s, ns, d, av, broken);
    case _ => av' := LocalSsa(lt, s, i, av, broken);
  }

  lemma LeaveTokenSsa(lt: seq<WTy>, s: TState, i: Simple, av: seq<set<nat>>, broken: set<Label>)
    requires InRange(s) && Ready(s) && |s.cf| > 0 && InSsa(s, av, broken) && StepPlain(lt, s, i).Some? && (i.IBr? || i.IReturn?)
    ensures InSsa(StepPlain(lt, s, i).value, av, broken) && Steady(s.blocks, StepPlain(lt, s, i).value.blocks)
  {
    hide InSsa, Ready, Steady, JumpTo, SkipUnreachable, Aim, Core;
    ReadyBuilds(s);
    LabelPerFrame(s);
    var j := if i.IReturn? then 0 else |s.labels| - 1 - i.n;
    LabelAim(s, av, broken, j);
    var l := if i.IReturn? then BlockEntry(s.cf[0].sig, s.cf[0].end) else s.labels[j];
    AimIs(s, av, l);
    GoneSsa(s, l, av, broken);
  }
}
