/** Every token keeps the invariant and only lets the graph grow. */
module Steps {
  import opened Values
  import opened Cfg
  import opened Wasm
  import opened TranslatorSpec
  import opened Invariant

  // ----- closing a block -----

  /** What a list of handed-over results does to one block. */
  ghost predicate Received(b: Blk, b': Blk, v: Opd, from: Label) {
    && b' == b.(incoming := b'.incoming)
    && b.incoming <= b'.incoming
    && forall k :: |b.incoming| <= k < |b'.incoming| ==> b'.incoming[k] == In(v, from)
  }

  lemma {:induction false} AddAllBlock(g: Graph, ts: seq<Label>, v: Opd, from: Label, b: Label)
    requires forall k :: 0 <= k < |ts| ==> ts[k] < |g|
    requires b < |g|
    ensures Received(g[b], AddAll(g, ts, v, from)[b], v, from)
    ensures b in ts ==> |g[b].incoming| < |AddAll(g, ts, v, from)[b].incoming|
    ensures b !in ts ==> AddAll(g, ts, v, from)[b] == g[b]
    decreases |ts|
  {
    if ts != [] {
      AddAllBlock(WithIncoming(g, ts[0], v, from), ts[1..], v, from, b);
    }
  }

  /** A target that can be handed a result: the end block of some entry, which has a phi. */
  ghost predicate PhiTarget(s: TState, t: Label) {
    exists i :: 0 <= i < |s.cf| && s.cf[i].end == t && s.cf[i].sig.Some?
  }

  lemma PhiTargetOk(s: TState, t: Label)
    requires Core(s) && PhiTarget(s, t)
    ensures t < |s.blocks| && s.blocks[t].sig.Some? && s.blocks[t].phi.Some? && Pending(s.cf, t)
  {
    var i :| 0 <= i < |s.cf| && s.cf[i].end == t && s.cf[i].sig.Some?;
    assert PendingOk(s.blocks, s.cf[i]);
  }

  lemma HandOverBlock(s: TState, ts: seq<Label>, v: Opd, term: Inst, b: Label)
    requires Core(s) && CurOpen(s) && IsTerm(term)
    requires forall k :: 0 <= k < |ts| ==> ts[k] < |s.blocks| && PhiTarget(s, ts[k])
    requires b < |s.blocks|
    ensures var g' := HandOver(s, ts, v, term).blocks;
            && (b != s.cur ==> Received(s.blocks[b], g'[b], v, s.cur))
            && (b == s.cur ==> g'[b] == s.blocks[b].(insts := s.blocks[b].insts + [term]))
    ensures BlkGrows(s.blocks[b], HandOver(s, ts, v, term).blocks[b])
  {
    AddAllBlock(s.blocks, ts, v, s.cur, b);
    if b == s.cur && b in ts {
      PhiTargetOk(s, b);
    }
  }

  /** A block stays well-formed as the graph grows and pairs from a closed block arrive. */
  lemma BlkOkGrows(g: Graph, g': Graph, n: nat, b: Blk, b': Blk, from: Label)
    requires Grows(g, g') && BlkOk(g, n, b)
    requires b'.sig == b.sig && b'.phi == b.phi && b.incoming <= b'.incoming
    requires b.phi.None? ==> b'.incoming == b.incoming
    requires forall k :: |b.incoming| <= k < |b'.incoming| ==> b'.incoming[k].from == from
    requires |b.incoming| < |b'.incoming| ==> from < |g'| && Closed(g'[from])
    ensures BlkOk(g', n, b')
  {
    forall k | 0 <= k < |b'.incoming|
      ensures FromClosed(g', b'.incoming[k])
    {
      if k < |b.incoming| {
        assert FromClosed(g, b.incoming[k]);
        assert BlkGrows(g[b.incoming[k].from], g'[b.incoming[k].from]);
      }
    }
  }

  lemma HandOverGraph(s: TState, ts: seq<Label>, v: Opd, term: Inst)
    requires Core(s) && CurOpen(s) && IsTerm(term)
    requires forall k :: 0 <= k < |ts| ==> ts[k] < |s.blocks| && PhiTarget(s, ts[k])
    ensures var g' := HandOver(s, ts, v, term).blocks;
            GraphOk(g', s.next) && Grows(s.blocks, g') && Closed(g'[s.cur])
  {
    var g, g' := s.blocks, HandOver(s, ts, v, term).blocks;
    forall b | 0 <= b < |g|
      ensures BlkGrows(g[b], g'[b])
    {
      HandOverBlock(s, ts, v, term, b);
    }
    HandOverBlock(s, ts, v, term, s.cur);
    forall b | 0 <= b < |g'|
      ensures BlkOk(g', s.next, g'[b])
    {
      HandOverBlock(s, ts, v, term, b);
      if b in ts {
        PhiTargetOk(s, b);
      } else {
        AddAllBlock(g, ts, v, s.cur, b);
      }
      BlkOkGrows(g, g', s.next, g[b], g'[b], s.cur);
    }
  }

  lemma HandOverEntries(s: TState, ts: seq<Label>, v: Opd, term: Inst)
    requires Core(s) && CurOpen(s) && IsTerm(term)
    requires forall k :: 0 <= k < |ts| ==> ts[k] < |s.blocks| && PhiTarget(s, ts[k])
    ensures var g' := HandOver(s, ts, v, term).blocks;
            && Entries(g', s.cf, s.labels)
            && forall i :: 0 <= i < |s.cf| ==> g'[s.cf[i].end].phi == s.blocks[s.cf[i].end].phi
  {
    var g, g' := s.blocks, HandOver(s, ts, v, term).blocks;
    forall i | 0 <= i < |s.cf|
      ensures PendingOk(g', s.cf[i]) && LabelOk(g', s.cf[i], s.labels[i])
      ensures g'[s.cf[i].end].phi == g[s.cf[i].end].phi
    {
      assert PendingOk(g, s.cf[i]) && LabelOk(g, s.cf[i], s.labels[i]);
      HandOverBlock(s, ts, v, term, s.cf[i].end);
      HandOverBlock(s, ts, v, term, s.labels[i].block);
      if s.cf[i].els.Some? {
        HandOverBlock(s, ts, v, term, s.cf[i].els.value);
      }
    }
  }

  lemma HandOverCore(s: TState, ts: seq<Label>, v: Opd, term: Inst)
    requires Core(s) && CurOpen(s) && IsTerm(term)
    requires forall k :: 0 <= k < |ts| ==> ts[k] < |s.blocks| && PhiTarget(s, ts[k])
    ensures Core(HandOver(s, ts, v, term)) && Grows(s.blocks, HandOver(s, ts, v, term).blocks)
    ensures Closed(HandOver(s, ts, v, term).blocks[s.cur])
  {
    HandOverGraph(s, ts, v, term);
    HandOverEntries(s, ts, v, term);
  }

  /** A label or an entry's end, as a branch target. */
  ghost predicate Target(s: TState, l: BlockEntry) {
    l.block < |s.blocks| && (l.sig.Some? ==> PhiTarget(s, l.block) && s.blocks[l.block].sig == l.sig)
  }

  lemma LabelTarget(s: TState, i: nat)
    requires Core(s) && i < |s.cf|
    ensures Target(s, s.labels[i]) && Target(s, BlockEntry(s.cf[i].sig, s.cf[i].end))
  {
    assert LabelOk(s.blocks, s.cf[i], s.labels[i]) && PendingOk(s.blocks, s.cf[i]);
  }

  lemma LeaveCore(s: TState, ts: seq<Label>, v: Option<Opd>, term: Inst)
    requires Core(s) && CurOpen(s) && IsTerm(term)
    requires forall k :: 0 <= k < |ts| ==> ts[k] < |s.blocks| && (v.Some? ==> PhiTarget(s, ts[k]))
    ensures var s' := Leave(s, ts, v, term);
            && Core(s') && Grows(s.blocks, s'.blocks) && Closed(s'.blocks[s.cur])
            && s' == s.(blocks := s'.blocks)
            && forall b :: 0 <= b < |s.blocks| && b != s.cur && b !in ts ==> s'.blocks[b] == s.blocks[b]
  {
    if v.Some? {
      HandOverCore(s, ts, v.value, term);
      forall b | 0 <= b < |s.blocks| && b != s.cur && b !in ts
        ensures HandOver(s, ts, v.value, term).blocks[b] == s.blocks[b]
      {
        AddAllBlock(s.blocks, ts, v.value, s.cur, b);
      }
    } else {
      EmitCore(s, term);
    }
  }

  lemma JumpToCore(s: TState, l: BlockEntry)
    requires Core(s) && CurOpen(s) && Target(s, l) && JumpTo(s, l).Some?
    ensures var s' := JumpTo(s, l).value;
            && Core(s') && Grows(s.blocks, s'.blocks) && Closed(s'.blocks[s.cur])
            && s' == s.(stack := s'.stack, blocks := s'.blocks)
            && s'.stack == (if l.sig.Some? then s.stack[..|s.stack| - 1] else s.stack)
  {
    if l.sig.None? {
      LeaveCore(s, [l.block], None, Br(l.block));
    } else {
      DropCore(s);
      LeaveCore(Drop(s), [l.block], Some(TopOpd(s)), Br(l.block));
    }
  }

  lemma SkipInv(s: TState)
    requires Core(s) && |s.cf| > 0
    ensures SkipUnreachable(s).Some? && Inv(SkipUnreachable(s).value)
    ensures SkipUnreachable(s).value.blocks == s.blocks && SkipUnreachable(s).value.next == s.next
  {
    assert FrameOk(Top(s), |s.cf| - 1, |s.stack|);
    var h := Top(s).outerStack;
    CutCore(s, h);
    SetTopCore(s.(stack := s.stack[..h]), Top(s).(reachable := false));
    hide Core;
    BumpCore(s, s.next);
  }

  /** Changing only what the graph does not depend on in the top entry. */
  lemma SetTopCore(s: TState, e: CFEntry)
    requires Core(s) && |s.cf| > 0
    requires e == Top(s).(kind := e.kind, els := e.els, reachable := e.reachable)
    requires e.els.Some? <==> e.kind == CfIf
    requires e.els == None || e.els == Top(s).els
    requires (e.kind == CfLoop) == (Top(s).kind == CfLoop)
    ensures Core(s.(cf := s.cf[|s.cf| - 1 := e]))
  {
    var s' := s.(cf := s.cf[|s.cf| - 1 := e]);
    forall i | 0 <= i < |s'.cf|
      ensures FrameOk(s'.cf[i], i, |s'.stack|)
      ensures PendingOk(s.blocks, s'.cf[i]) && LabelOk(s.blocks, s'.cf[i], s'.labels[i])
      ensures Low(s'.cf[i]) >= Low(s.cf[i])
    {
      assert FrameOk(s.cf[i], i, |s.stack|);
      assert PendingOk(s.blocks, s.cf[i]) && LabelOk(s.blocks, s.cf[i], s.labels[i]);
    }
  }

  // ----- straight-line emission -----

  /** s is o after emission that left the stacks alone and the insertion point open. */
  ghost predicate Builds(o: TState, s: TState) {
    && Core(s) && CurOpen(s)
    && Grows(o.blocks, s.blocks)
    && o.next <= s.next
    && s == o.(blocks := s.blocks, cur := s.cur, next := s.next)
  }

  lemma EmitBuilds(o: TState, s: TState, i: Inst)
    requires s.cur < |s.blocks| && Builds(o, s) && !IsTerm(i)
    ensures Builds(o, Emit(s, i))
  {
    EmitCore(s, i);
    GrowsTrans(o.blocks, s.blocks, Emit(s, i).blocks);
  }

  lemma EmitDefBuilds(o: TState, s: TState, i: Inst)
    requires s.cur < |s.blocks| && Builds(o, s) && !IsTerm(i)
    ensures Builds(o, EmitDef(s, i))
  {
    EmitDefCore(s, i);
    GrowsTrans(o.blocks, s.blocks, EmitDef(s, i).blocks);
  }

  lemma EmitBinBuilds(o: TState, s: TState, op: LOp, a: Opd, b: Opd)
    requires s.cur < |s.blocks| && Builds(o, s)
    ensures Builds(o, EmitBin(s, op, a, b))
  {
    EmitDefBuilds(o, s, Inst.Bin(s.next, op, a, b));
  }

  lemma NewBlockBuilds(o: TState, s: TState, sig: BlockType)
    requires Builds(o, s)
    ensures Builds(o, NewBlock(s, sig)) && !Pending(o.cf, |s.blocks|)
  {
    NewBlockCore(s, sig);
    GrowsTrans(o.blocks, s.blocks, NewBlock(s, sig).blocks);
  }

  /** Close the insertion block with a terminator and move to an empty block no entry waits for. */
  lemma MoveBuilds(o: TState, s: TState, term: Inst, b: Label)
    requires s.cur < |s.blocks| && Builds(o, s) && IsTerm(term)
    requires b < |s.blocks| && b != s.cur && s.blocks[b].insts == [] && !Pending(o.cf, b)
    ensures Builds(o, At(Emit(s, term), b))
  {
    EmitCore(s, term);
    GrowsTrans(o.blocks, s.blocks, Emit(s, term).blocks);
  }

  lemma TrapIfBuilds(o: TState, s: TState, c: Opd)
    requires s.cur < |s.blocks| && Builds(o, s)
    ensures Builds(o, TrapIf(s, c))
  {
    hide Builds, Pending;
    var t := |s.blocks|;
    NewBlockBuilds(o, s, None);
    NewBlockBuilds(o, NewBlock(s, None), None);
    var s1 := NewBlock(NewBlock(s, None), None);
    MoveBuilds(o, s1, CondBr(c, t, t + 1), t);
    var s2 := At(Emit(s1, CondBr(c, t, t + 1)), t);
    EmitBuilds(o, s2, CallThrow);
    MoveBuilds(o, Emit(s2, CallThrow), Unreachable, t + 1);
  }

  lemma TrapZeroDivBuilds(o: TState, s: TState, b: Opd)
    requires s.cur < |s.blocks| && Builds(o, s)
    ensures Builds(o, TrapZeroDiv(s, b))
  {
    hide Builds, TrapIf;
    EmitBinBuilds(o, s, LCmp(Eq), b, Const(Zero(TypeOf(b))));
    var s1 := EmitBin(s, LCmp(Eq), b, Const(Zero(TypeOf(b))));
    TrapIfBuilds(o, s1, Reg(s.next, I1));
  }

  lemma PairTestBuilds(o: TState, s: TState, t: Ty, pred: Pred, join: LOp, a: Opd, b: Opd)
    requires s.cur < |s.blocks| && Builds(o, s)
    ensures Builds(o, PairTest(s, t, pred, join, a, b))
  {
    hide Builds;
    EmitBinBuilds(o, s, LCmp(pred), a, Const(MinSigned(t)));
    var s1 := EmitBin(s, LCmp(pred), a, Const(MinSigned(t)));
    EmitBinBuilds(o, s1, LCmp(pred), b, Const(MinusOne(t)));
    EmitBinBuilds(o, EmitBin(s1, LCmp(pred), b, Const(MinusOne(t))), join, Reg(s.next, I1), Reg(s1.next, I1));
  }

  lemma SZeroTestBuilds(o: TState, s: TState, a: Opd, b: Opd)
    requires s.cur < |s.blocks| && Builds(o, s)
    ensures Builds(o, SZeroTest(s, a, b))
  {
    hide Builds, PairTest, EmitBin;
    PairTestBuilds(o, s, TypeOf(a), Eq, LAnd, a, b);
    var s1 := PairTest(s, TypeOf(a), Eq, LAnd, a, b);
    EmitBinBuilds(o, s1, LCmp(Eq), b, Const(Zero(TypeOf(b))));
    EmitBinBuilds(o, EmitBin(s1, LCmp(Eq), b, Const(Zero(TypeOf(b)))), LOr, Reg(s1.next, I1), Reg(s1.next - 1, I1));
  }

  lemma TrapSZeroDivBuilds(o: TState, s: TState, a: Opd, b: Opd)
    requires s.cur < |s.blocks| && Builds(o, s)
    ensures Builds(o, TrapSZeroDiv(s, a, b))
  {
    hide Builds, TrapIf, SZeroTest;
    SZeroTestBuilds(o, s, a, b);
    TrapIfBuilds(o, SZeroTest(s, a, b), Reg(s.next + 4, I1));
  }

  lemma SRemForkBuilds(o: TState, s: TState, t: IntTy, a: Opd, b: Opd)
    requires s.cur < |s.blocks| && Builds(o, s)
    ensures Builds(o, SRemFork(s, t, a, b)) && !Pending(o.cf, |s.blocks| + 1)
  {
    hide Builds, Pending;
    var thn := |s.blocks|;
    NewBlockBuilds(o, s, None);
    NewBlockBuilds(o, NewBlock(s, None), Some(t));
    var s1 := NewBlock(NewBlock(s, None), Some(t));
    PairTestBuilds(o, s1, t, Ne, LOr, a, b);
    var s2 := PairTest(s1, t, Ne, LOr, a, b);
    MoveBuilds(o, s2, CondBr(Reg(s2.next - 1, I1), thn, thn + 1), thn);
  }

  lemma SRemForkShape(s: TState, t: IntTy, a: Opd, b: Opd)
    requires s.cur < |s.blocks|
    ensures var s' := SRemFork(s, t, a, b);
            && s'.cur == |s.blocks| && |s'.blocks| == |s.blocks| + 2
            && s'.blocks[|s.blocks|] == Blk(None, None, [], [])
            && s'.blocks[|s.blocks| + 1] == Blk(Some(t), Some(s.next), [], [])
            && Closed(s'.blocks[s.cur]) && s.next < s'.next
  {
  }

  /** The two incoming pairs of the block the insertion point stands in. */
  lemma JoinBuilds(o: TState, s: TState, v: Opd, f: Label, v': Opd, f': Label)
    requires s.cur < |s.blocks| && Builds(o, s) && s.blocks[s.cur].sig.Some? && s.blocks[s.cur].phi.Some?
    requires FromClosed(s.blocks, In(v, f)) && FromClosed(s.blocks, In(v', f'))
    ensures Builds(o, AddIncoming(AddIncoming(s, s.cur, v, f), s.cur, v', f'))
  {
    var g := s.blocks;
    var inc := g[s.cur].incoming;
    assert (inc + [In(v, f)]) + [In(v', f')] == inc + [In(v, f), In(v', f')];
    var s' := AddIncoming(AddIncoming(s, s.cur, v, f), s.cur, v', f');
    var g' := s'.blocks;
    assert g' == g[s.cur := g[s.cur].(incoming := inc + [In(v, f), In(v', f')])];
    JoinGraph(g, s.next, s.cur, v, f, v', f');
    forall i | 0 <= i < |s.cf|
      ensures PendingOk(g', s.cf[i]) && LabelOk(g', s.cf[i], s.labels[i]) && g'[s.cf[i].end] == g[s.cf[i].end]
    {
      assert PendingOk(g, s.cf[i]) && LabelOk(g, s.cf[i], s.labels[i]);
    }
    GrowsTrans(o.blocks, g, g');
  }

  lemma JoinGraph(g: Graph, n: nat, t: Label, v: Opd, f: Label, v': Opd, f': Label)
    requires t < |g| && g[t].sig.Some? && g[t].phi.Some? && GraphOk(g, n)
    requires FromClosed(g, In(v, f)) && FromClosed(g, In(v', f'))
    ensures var g' := g[t := g[t].(incoming := g[t].incoming + [In(v, f), In(v', f')])];
            GraphOk(g', n) && Grows(g, g')
  {
    var g' := g[t := g[t].(incoming := g[t].incoming + [In(v, f), In(v', f')])];
    forall b | 0 <= b < |g'|
      ensures BlkOk(g', n, g'[b])
    {
      assert BlkOk(g, n, g[b]);
      forall k | 0 <= k < |g'[b].incoming|
        ensures FromClosed(g', g'[b].incoming[k])
      {
        assert k < |g[b].incoming| ==> FromClosed(g, g[b].incoming[k]);
      }
    }
  }

  // ----- tokens -----

  ghost predicate Kept(o: TState, s: TState) {
    Inv(s) && Grows(o.blocks, s.blocks) && o.next <= s.next
  }

  /** A live state with a frame. */
  ghost predicate Ready(s: TState) {
    Inv(s) && Live(s) && |s.cf| > 0
  }

  /** A value pushed on a state whose insertion point is open. */
  lemma PushKept(o: TState, s: TState, v: Opd)
    requires Ready(o) && Builds(o, s) && RegBelow(v, s.next)
    ensures Kept(o, Push(s, v)) && Ready(Push(s, v))
  {
    PushCore(s, v);
  }

  lemma ReadyBuilds(s: TState)
    requires Ready(s)
    ensures s.cur < |s.blocks| && Core(s) && CurOpen(s) && Builds(s, s) && InRange(s)
  {
    CoreInRange(s);
  }

  /** No frame's floor is above the top frame's. */
  lemma FloorsBelow(s: TState)
    requires Core(s) && |s.cf| > 0
    ensures forall j :: 0 <= j < |s.cf| ==> s.cf[j].outerStack <= Top(s).outerStack
  {
  }

  lemma DropReady(s: TState)
    requires Ready(s) && CanPop(s)
    ensures Ready(Drop(s)) && RegBelow(TopOpd(s), s.next)
    ensures Drop(s).blocks == s.blocks && Drop(s).next == s.next
  {
    DropCore(s);
  }

  lemma SRemJoinKept(o: TState, s: TState, t: IntTy, a: Opd, b: Opd, pre: Label, end: Label, phi: nat)
    requires s.cur < |s.blocks| && end < |s.blocks| && Ready(o) && Builds(o, s)
    requires end != s.cur && s.blocks[end] == Blk(Some(t), Some(phi), [], []) && !Pending(o.cf, end)
    requires pre < |s.blocks| && pre != s.cur && Closed(s.blocks[pre]) && phi < s.next
    ensures Kept(o, SRemJoin(s, t, a, b, pre, end, phi))
  {
    hide Builds, Ready, Kept;
    EmitBinBuilds(o, s, LSRem, a, b);
    var s1 := EmitBin(s, LSRem, a, b);
    MoveBuilds(o, s1, Br(end), end);
    var s2 := At(Emit(s1, Br(end)), end);
    JoinBuilds(o, s2, Reg(s.next, TypeOf(a)), s.cur, Const(Zero(t)), pre);
    PushKept(o, AddIncoming(AddIncoming(s2, end, Reg(s.next, TypeOf(a)), s.cur), end, Const(Zero(t)), pre), Reg(phi, t));
  }

  lemma SRemKept(s: TState, t: IntTy, a: Opd, b: Opd)
    requires s.cur < |s.blocks| && Ready(s)
    ensures Kept(s, EmitSRem(s, t, a, b))
  {
    hide Core, CurOpen, Builds, Ready, Kept, InRange, TrapZeroDiv, SRemFork, SRemJoin;
    ReadyBuilds(s);
    TrapZeroDivBuilds(s, s, b);
    var s0 := TrapZeroDiv(s, b);
    InBounds(s, s0);
    SRemForkBuilds(s, s0, t, a, b);
    SRemForkShape(s0, t, a, b);
    SRemJoinKept(s, SRemFork(s0, t, a, b), t, a, b, s0.cur, |s0.blocks| + 1, s0.next);
  }

  lemma InBounds(o: TState, s: TState)
    requires Builds(o, s)
    ensures s.cur < |s.blocks|
  {
  }

  lemma BinPushKept(o: TState, s: TState, op: LOp, a: Opd, b: Opd)
    requires s.cur < |s.blocks| && Ready(o) && Builds(o, s)
    ensures Kept(o, BinPush(s, op, a, b))
  {
    hide Builds, Ready, Kept;
    EmitBinBuilds(o, s, op, a, b);
    PushKept(o, EmitBin(s, op, a, b), Reg(s.next, TypeOf(a)));
  }

  lemma BinaryKept(s: TState, t: IntTy, op: BinOp, a: Opd, b: Opd)
    requires s.cur < |s.blocks| && Ready(s)
    ensures Kept(s, EmitBinary(s, t, op, a, b))
  {
    ReadyBuilds(s);
    hide Builds, Ready, Kept, TrapZeroDiv, TrapSZeroDiv, EmitSRem, BinPush;
    TrapZeroDivBuilds(s, s, b);
    InBounds(s, TrapZeroDiv(s, b));
    TrapSZeroDivBuilds(s, s, a, b);
    InBounds(s, TrapSZeroDiv(s, a, b));
    match op
    case Add => BinPushKept(s, s, LAdd, a, b);
    case Sub => BinPushKept(s, s, LSub, a, b);
    case Mul => BinPushKept(s, s, LMul, a, b);
    case DivU => BinPushKept(s, TrapZeroDiv(s, b), LUDiv, a, b);
    case RemU => BinPushKept(s, TrapZeroDiv(s, b), LURem, a, b);
    case DivS => BinPushKept(s, TrapSZeroDiv(s, a, b), LSDiv, a, b);
    case RemS => SRemKept(s, t, a, b);
  }

  lemma PushBoolKept(o: TState, s: TState, c: Opd)
    requires s.cur < |s.blocks| && Ready(o) && Builds(o, s)
    ensures Kept(o, PushBool(s, c))
  {
    hide Builds, Ready, Kept;
    EmitDefBuilds(o, s, ZExt(s.next, c));
    PushKept(o, EmitDef(s, ZExt(s.next, c)), Reg(s.next, I32));
  }

  lemma NumKept(s: TState, op: NumOp)
    requires s.cur < |s.blocks| && Ready(s) && StepNum(s, op).Some?
    ensures Kept(s, StepNum(s, op).value)
  {
    hide Builds, Ready, EmitBinary, PushBool, Inv, Grows;
    DropReady(s);
    var s1, x := Drop(s), TopOpd(s);
    match op
    case Eqz(t) =>
      ReadyBuilds(s1);
      EmitBinBuilds(s1, s1, LCmp(Eq), x, Const(Zero(t)));
      PushBoolKept(s1, EmitBin(s1, LCmp(Eq), x, Const(Zero(t))), Reg(s1.next, I1));
    case Rel(_, r) =>
      DropReady(s1);
      var s2 := Drop(s1);
      ReadyBuilds(s2);
      EmitBinBuilds(s2, s2, LCmp(r), TopOpd(s1), x);
      PushBoolKept(s2, EmitBin(s2, LCmp(r), TopOpd(s1), x), Reg(s2.next, I1));
    case Arith(t, o) =>
      DropReady(s1);
      BinaryKept(Drop(s1), t, o, TopOpd(s1), x);
  }

  ghost predicate FreshFrame(s: TState, k: CFKind, sig: BlockType, end: Label, els: Option<Label>, lab: BlockEntry) {
    && (els.Some? <==> k == CfIf)
    && var e := CFEntry(k, sig, end, els, |s.stack|, |s.labels|, true, true);
    && PendingOk(s.blocks, e) && LabelOk(s.blocks, e, lab)
    && end != s.cur && els != Some(s.cur)
    && (forall i :: 0 <= i < |s.cf| ==> s.cf[i].end < Low(e))
    && (sig.Some? ==> forall k :: 0 <= k < |s.stack| ==> RegBelow(s.stack[k], s.blocks[end].phi.value))
  }

  lemma PushFrameEntries(s: TState, k: CFKind, sig: BlockType, end: Label, els: Option<Label>, lab: BlockEntry)
    requires Core(s) && FreshFrame(s, k, sig, end, els, lab)
    ensures var s' := PushFrame(s, k, sig, end, els, lab); Entries(s.blocks, s'.cf, s'.labels)
  {
  }

  lemma PushFrameFrames(s: TState, k: CFKind, sig: BlockType, end: Label, els: Option<Label>, lab: BlockEntry)
    requires Frames(s) && Live(s) && (els.Some? <==> k == CfIf)
    ensures Frames(PushFrame(s, k, sig, end, els, lab))
  {
    var s' := PushFrame(s, k, sig, end, els, lab);
    forall i | 0 <= i < |s'.cf|
      ensures FrameOk(s'.cf[i], i, |s'.stack|)
    {
      assert i < |s.cf| ==> FrameOk(s.cf[i], i, |s.stack|);
    }
    forall i, j | 0 <= i < j < |s'.cf|
      ensures s'.cf[i].outerStack <= s'.cf[j].outerStack
    {
      assert FrameOk(s.cf[i], i, |s.stack|);
    }
  }

  lemma PushFrameKept(o: TState, s: TState, k: CFKind, sig: BlockType, end: Label, els: Option<Label>, lab: BlockEntry)
    requires Ready(o) && Builds(o, s) && FreshFrame(s, k, sig, end, els, lab)
    ensures Kept(o, PushFrame(s, k, sig, end, els, lab))
  {
    PushFrameFrames(s, k, sig, end, els, lab);
    PushFrameEntries(s, k, sig, end, els, lab);
  }

  lemma EndsBelow(s: TState)
    requires Core(s)
    ensures forall i :: 0 <= i < |s.cf| ==> s.cf[i].end < |s.blocks|
  {
    forall i | 0 <= i < |s.cf|
      ensures s.cf[i].end < |s.blocks|
    {
      assert PendingOk(s.blocks, s.cf[i]);
    }
  }

  lemma BlockKept(s: TState, bt: BlockType)
    requires Ready(s)
    ensures Kept(s, StepBlock(s, bt))
  {
    ReadyBuilds(s);
    EndsBelow(s);
    NewBlockBuilds(s, s, bt);
    PushFrameKept(s, NewBlock(s, bt), CfBlock, bt, |s.blocks|, None, BlockEntry(bt, |s.blocks|));
  }

  /** The blocks a frame is pushed with were made after every block and register of s. */
  lemma LoopFresh(s: TState, bt: BlockType)
    requires s.cur < |s.blocks| && Core(s)
    ensures FreshFrame(LoopHead(s, bt), CfLoop, bt, |s.blocks| + 1, None, BlockEntry(None, |s.blocks|))
  {
    EndsBelow(s);
  }

  lemma LoopHeadBuilds(s: TState, bt: BlockType)
    requires s.cur < |s.blocks| && Builds(s, s)
    ensures Builds(s, LoopHead(s, bt))
  {
    hide Builds, Pending;
    NewBlockBuilds(s, s, None);
    NewBlockBuilds(s, NewBlock(s, None), bt);
    MoveBuilds(s, NewBlock(NewBlock(s, None), bt), Br(|s.blocks|), |s.blocks|);
  }

  lemma LoopKept(s: TState, bt: BlockType)
    requires s.cur < |s.blocks| && Ready(s)
    ensures Kept(s, StepLoop(s, bt))
  {
    hide Core, CurOpen, Builds, Ready, Kept, FreshFrame, LoopHead;
    ReadyBuilds(s);
    LoopFresh(s, bt);
    LoopHeadBuilds(s, bt);
    PushFrameKept(s, LoopHead(s, bt), CfLoop, bt, |s.blocks| + 1, None, BlockEntry(None, |s.blocks|));
  }

  lemma IfFresh(s: TState, c: Opd, bt: BlockType)
    requires s.cur < |s.blocks| && Core(s)
    ensures var n := |s.blocks|; FreshFrame(IfHead(s, c, bt), CfIf, bt, n + 2, Some(n + 1), BlockEntry(bt, n + 2))
  {
    EndsBelow(s);
  }

  lemma IfHeadBuilds(s: TState, c: Opd, bt: BlockType)
    requires s.cur < |s.blocks| && Builds(s, s)
    ensures Builds(s, IfHead(s, c, bt))
  {
    hide Builds, Pending;
    var thn := |s.blocks|;
    NewBlockBuilds(s, s, None);
    NewBlockBuilds(s, NewBlock(s, None), None);
    NewBlockBuilds(s, NewBlock(NewBlock(s, None), None), bt);
    var s1 := NewBlock(NewBlock(NewBlock(s, None), None), bt);
    CondBrBuilds(s, s1, c, thn, thn + 1, thn);
  }

  lemma IfKept(s: TState, bt: BlockType)
    requires s.cur < |s.blocks| && Ready(s) && StepIf(s, bt).Some?
    ensures Kept(s, StepIf(s, bt).value)
  {
    DropReady(s);
    var d, n := Drop(s), |s.blocks|;
    ReadyBuilds(d);
    IfFresh(d, TopOpd(s), bt);
    hide Builds, Ready, Inv, Core, Grows, FreshFrame, IfHead, PushFrame;
    IfHeadBuilds(d, TopOpd(s), bt);
    PushFrameKept(d, IfHead(d, TopOpd(s), bt), CfIf, bt, n + 2, Some(n + 1), BlockEntry(bt, n + 2));
  }

  lemma CondBrBuilds(o: TState, s: TState, c: Opd, t: Label, f: Label, b: Label)
    requires s.cur < |s.blocks| && Builds(o, s)
    requires b < |s.blocks| && b != s.cur && s.blocks[b].insts == [] && !Pending(o.cf, b)
    ensures Builds(o, At(EmitCondBr(s, c, t, f), b))
  {
    hide Builds;
    EmitDefBuilds(o, s, Inst.Bin(s.next, LCmp(Ne), c, Const(Zero(I32))));
    MoveBuilds(o, EmitDef(s, Inst.Bin(s.next, LCmp(Ne), c, Const(Zero(I32)))), CondBr(Reg(s.next, I1), t, f), b);
  }

  lemma CloseFrameCore(s: TState)
    requires Inv(s) && InRange(s) && |s.cf| > 0 && CloseFrame(s).Some?
    ensures var s' := CloseFrame(s).value;
            && Core(s') && Grows(s.blocks, s'.blocks)
            && s' == s.(stack := s'.stack, blocks := s'.blocks)
            && s'.stack == s.stack[..Top(s).outerStack]
  {
    hide Core, CurOpen, Grows, Leave, Closed, Target;
    var e := Top(s);
    GrowsSelf(s.blocks);
    if e.reachable {
      LabelTarget(s, |s.cf| - 1);
      JumpToCore(s, BlockEntry(e.sig, e.end));
    }
  }

  lemma PopFrameCore(s: TState)
    requires Core(s) && |s.cf| > 0
    ensures Top(s).outerBlocks == |s.cf| - 1 && Core(PopFrame(s))
  {
    assert FrameOk(Top(s), |s.cf| - 1, |s.stack|);
    var s' := PopFrame(s);
    forall i | 0 <= i < |s'.cf|
      ensures FrameOk(s'.cf[i], i, |s'.stack|)
      ensures PendingOk(s.blocks, s'.cf[i]) && LabelOk(s.blocks, s'.cf[i], s'.labels[i])
    {
      assert FrameOk(s.cf[i], i, |s.stack|);
      assert PendingOk(s.blocks, s.cf[i]) && LabelOk(s.blocks, s.cf[i], s.labels[i]);
    }
  }

  /** Neither block of the top entry is waited for by an entry below it. */
  lemma TopAlone(s: TState)
    requires Core(s) && |s.cf| > 0
    ensures var below := s.cf[..|s.cf| - 1];
            && !Pending(below, Top(s).end)
            && (Top(s).els.Some? ==> !Pending(below, Top(s).els.value))
    ensures PendingOk(s.blocks, Top(s))
  {
    var n := |s.cf| - 1;
    assert PendingOk(s.blocks, s.cf[n]);
    forall i | 0 <= i < n
      ensures Low(s.cf[i]) <= s.cf[i].end < Low(s.cf[n])
    {
      assert PendingOk(s.blocks, s.cf[i]);
    }
  }

  lemma OpenElseInv(s: TState)
    requires Core(s) && |s.cf| > 0 && Top(s).els.Some? && s.depth == 0
    ensures Inv(OpenElse(s))
  {
    TopAlone(s);
    var e := Top(s);
    assert FrameOk(e, |s.cf| - 1, |s.stack|);
    var e' := e.(kind := CfElse, reachable := e.elseReachable, els := None);
    SetTopCore(s, e');
    assert !Pending(s.cf[|s.cf| - 1 := e'], e.els.value);
  }

  lemma ElseKept(s: TState)
    requires Inv(s) && InRange(s) && |s.cf| > 0 && s.depth == 0 && StepElse(s).Some?
    ensures Kept(s, StepElse(s).value)
  {
    CloseFrameCore(s);
    hide CloseFrame, Core, Inv, Grows;
    OpenElseInv(CloseFrame(s).value);
  }

  /** The popped state, with the insertion point on the end block. */
  lemma ToEndCore(o: TState, s: TState, e: CFEntry)
    requires Core(s) && Grows(o.blocks, s.blocks)
    requires PendingOk(s.blocks, e) && !Pending(s.cf, e.end)
    requires e.els.Some? ==> !Pending(s.cf, e.els.value)
    ensures var s' := ToEnd(s, e);
            && Core(s') && CurOpen(s') && Grows(o.blocks, s'.blocks)
            && s'.blocks[e.end] == s.blocks[e.end]
            && s' == s.(blocks := s'.blocks, cur := e.end)
  {
    if e.els.Some? {
      var s1 := At(s, e.els.value);
      assert Core(s1);
      EmitCore(s1, Br(e.end));
      GrowsTrans(o.blocks, s1.blocks, Emit(s1, Br(e.end)).blocks);
    }
  }

  lemma PushResultCore(o: TState, s: TState, sig: BlockType, end: Label)
    requires Core(s) && CurOpen(s) && Grows(o.blocks, s.blocks)
    requires end < |s.blocks| && !Pending(s.cf, end) && (sig.Some? ==> s.blocks[end].phi.Some?)
    ensures var s' := PushResult(s, sig, end);
            Core(s') && CurOpen(s') && Grows(o.blocks, s'.blocks) && s' == s.(blocks := s'.blocks, stack := s'.stack)
  {
    var g := s.blocks;
    assert BlkOk(g, s.next, g[end]);
    if sig.Some? {
      if g[end].incoming != [] {
        PushCore(s, Reg(g[end].phi.value, sig.value));
      } else {
        var s1 := s.(blocks := g[end := g[end].(phi := None)]);
        assert Grows(g, s1.blocks);
        GrowsTrans(o.blocks, g, s1.blocks);
        ErasePhiCore(s, end);
        PushCore(s1, Const(Zero(sig.value)));
      }
    }
  }

  lemma ErasePhiCore(s: TState, end: Label)
    requires Core(s) && end < |s.blocks| && !Pending(s.cf, end) && s.blocks[end].incoming == []
    ensures Core(s.(blocks := s.blocks[end := s.blocks[end].(phi := None)]))
  {
    var g := s.blocks;
    var g' := g[end := g[end].(phi := None)];
    forall b | 0 <= b < |g|
      ensures BlkOk(g', s.next, g'[b])
    {
      assert BlkOk(g, s.next, g[b]);
      forall k | 0 <= k < |g[b].incoming|
        ensures FromClosed(g', g[b].incoming[k])
      {
        assert FromClosed(g, g[b].incoming[k]);
      }
    }
    forall i | 0 <= i < |s.cf|
      ensures PendingOk(g', s.cf[i]) && LabelOk(g', s.cf[i], s.labels[i]) && g'[s.cf[i].end] == g[s.cf[i].end]
    {
      assert PendingOk(g, s.cf[i]) && LabelOk(g, s.cf[i], s.labels[i]);
    }
  }

  lemma EndKept(s: TState)
    requires Inv(s) && InRange(s) && |s.cf| > 0 && s.depth == 0 && StepEnd(s).Some?
    ensures Kept(s, StepEnd(s).value)
  {
    CloseFrameCore(s);
    assert |s.cf| > 1 ==> s.cf[|s.cf| - 2].reachable;
    hide CloseFrame, Core, Inv, Grows, Frames, PushResult, ToEnd;
    CompleteKept(s, CloseFrame(s).value);
  }

  lemma CompleteKept(o: TState, s: TState)
    requires Core(s) && |s.cf| > 0 && (|s.cf| > 1 ==> s.cf[|s.cf| - 2].reachable)
    requires Grows(o.blocks, s.blocks) && o.next == s.next && s.depth == 0
    ensures Top(s).outerBlocks <= |s.labels| && (Top(s).els.Some? ==> Top(s).els.value < |s.blocks|)
    ensures Top(s).end < |s.blocks|
    ensures Kept(o, PushResult(ToEnd(PopFrame(s), Top(s)), Top(s).sig, Top(s).end))
  {
    TopAlone(s);
    PopFrameCore(s);
    var p, e := PopFrame(s), Top(s);
    hide Core, Inv, Grows, Pending, CurOpen;
    ToEndCore(o, p, e);
    PushResultCore(o, ToEnd(p, e), e.sig, e.end);
    FinishInv(o, PushResult(ToEnd(p, e), e.sig, e.end));
  }

  lemma FinishInv(o: TState, s: TState)
    requires Core(s) && CurOpen(s) && Grows(o.blocks, s.blocks) && o.next <= s.next && s.depth == 0
    requires |s.cf| > 0 ==> Top(s).reachable
    ensures Kept(o, s)
  {
  }

  lemma BrIfTestBuilds(s: TState, c: Opd)
    requires s.cur < |s.blocks| && Builds(s, s)
    ensures Builds(s, BrIfTest(s, c)) && !Pending(s.cf, |s.blocks|)
  {
    hide Builds, Pending;
    NewBlockBuilds(s, s, None);
    EmitDefBuilds(s, NewBlock(s, None), Inst.Bin(s.next, LCmp(Ne), c, Const(Zero(I32))));
  }

  /** Going on in an empty block. */
  lemma AtKept(o: TState, s: TState, b: Label)
    requires Core(s) && Grows(o.blocks, s.blocks) && o.next <= s.next && s.depth == 0
    requires |s.cf| > 0 && Top(s).reachable
    requires b < |s.blocks| && s.blocks[b].insts == [] && !Pending(s.cf, b)
    ensures Kept(o, At(s, b))
  {
  }

  lemma LeaveToKept(o: TState, s: TState, ts: seq<Label>, v: Option<Opd>, term: Inst, b: Label)
    requires s.cur < |s.blocks| && Core(s) && CurOpen(s) && Grows(o.blocks, s.blocks) && o.next <= s.next
    requires s.depth == 0 && |s.cf| > 0 && Top(s).reachable && IsTerm(term)
    requires forall k :: 0 <= k < |ts| ==> ts[k] < |s.blocks| && (v.Some? ==> PhiTarget(s, ts[k]))
    requires b < |s.blocks| && b != s.cur && b !in ts && s.blocks[b].insts == [] && !Pending(s.cf, b)
    ensures Kept(o, At(Leave(s, ts, v, term), b))
  {
    hide Leave, Core, CurOpen, Grows, Kept, Pending, PhiTarget;
    LeaveCore(s, ts, v, term);
    GrowsTrans(o.blocks, s.blocks, Leave(s, ts, v, term).blocks);
    AtKept(o, Leave(s, ts, v, term), b);
  }

  lemma ReadyFacts(s: TState)
    requires Ready(s)
    ensures s.depth == 0 && |s.cf| > 0 && Top(s).reachable
  {
  }

  lemma BrIfKept(s: TState, n: nat)
    requires Ready(s) && InRange(s) && StepBrIf(s, n).Some?
    ensures Kept(s, StepBrIf(s, n).value)
  {
    hide Ready, Inv, Core, CurOpen, Pending, PhiTarget, Leave, Grows;
    DropReady(s);
    var s1 := Drop(s);
    ReadyBuilds(s1);
    ReadyFacts(s1);
    var l := BranchDepth(s1, n).value;
    LabelPerFrame(s1);
    LabelTarget(s1, |s1.labels| - 1 - n);
    BrIfTestBuilds(s1, TopOpd(s));
    PhiTargetFrame(s1, BrIfTest(s1, TopOpd(s)));
    LeaveToKept(s1, BrIfTest(s1, TopOpd(s)), [l.block], if l.sig.Some? then Some(TopOpd(s1)) else None,
                CondBr(Reg(s1.next, I1), l.block, |s1.blocks|), |s1.blocks|);
  }

  lemma LabelPerFrame(s: TState)
    requires Core(s)
    ensures |s.labels| == |s.cf|
  {
  }

  /** A state leaving for good: the block is closed and the rest of the frame is dead. */
  lemma LeaveDeadKept(o: TState, s: TState, ts: seq<Label>, v: Option<Opd>, term: Inst)
    requires s.cur < |s.blocks| && Core(s) && CurOpen(s) && Grows(o.blocks, s.blocks) && o.next <= s.next
    requires |s.cf| > 0 && IsTerm(term)
    requires forall k :: 0 <= k < |ts| ==> ts[k] < |s.blocks| && (v.Some? ==> PhiTarget(s, ts[k]))
    ensures SkipUnreachable(Leave(s, ts, v, term)).Some?
    ensures Kept(o, SkipUnreachable(Leave(s, ts, v, term)).value)
  {
    hide Core, CurOpen, Grows, Inv, PhiTarget, Leave, SkipUnreachable;
    LeaveCore(s, ts, v, term);
    GrowsTrans(o.blocks, s.blocks, Leave(s, ts, v, term).blocks);
    SkipInv(Leave(s, ts, v, term));
  }

  lemma JumpKept(s: TState, l: BlockEntry)
    requires Ready(s) && InRange(s) && Target(s, l) && JumpTo(s, l).Some?
    ensures JumpTo(s, l).value.cf == s.cf
    ensures SkipUnreachable(JumpTo(s, l).value).Some? && Kept(s, SkipUnreachable(JumpTo(s, l).value).value)
  {
    ReadyBuilds(s);
    JumpToCore(s, l);
    SkipInv(JumpTo(s, l).value);
  }

  lemma BrTableKept(s: TState, ns: seq<nat>, d: nat)
    requires Ready(s) && InRange(s) && StepBrTable(s, ns, d).Some?
    ensures Kept(s, StepBrTable(s, ns, d).value)
  {
    hide Ready, Inv, Core, Builds, CurOpen, PhiTarget, Leave, Grows, SkipUnreachable, SameSig, Targets;
    DropReady(s);
    var s1 := Drop(s);
    ReadyBuilds(s1);
    ReadyBuilds(s);
    LabelPerFrame(s1);
    var l := BranchDepth(s1, d).value;
    LabelTarget(s1, |s1.labels| - 1 - d);
    TableTargets(s1, ns, l.sig);
    var ts := [l.block] + Targets(s1, ns);
    if l.sig.None? {
      LeaveDeadKept(s, s1, ts, None, Switch(TopOpd(s), Targets(s1, ns), l.block));
    } else {
      DropReady(s1);
      ReadyBuilds(Drop(s1));
      assert forall k :: 0 <= k < |ts| ==> PhiTarget(s1, ts[k]);
      PhiTargetFrame(s1, Drop(s1));
      LeaveDeadKept(s, Drop(s1), ts, Some(TopOpd(s1)), Switch(TopOpd(s), Targets(s1, ns), l.block));
    }
  }

  /** br_table as its two halves. */
  lemma BrTableShape(s: TState, ns: seq<nat>, d: nat)
    requires InRange(s) && |s.cf| > 0 && StepBrTable(s, ns, d).Some?
    ensures CanPopTy(s, I32) && BranchDepth(Drop(s), d).Some? && s.cur < |s.blocks|
    ensures var s1, l := Drop(s), BranchDepth(Drop(s), d).value;
            && SameSig(s1, ns, l.sig) && (forall k :: 0 <= k < |ns| ==> ns[k] < |s.labels|)
            && (l.sig.Some? ==> CanPopTy(s1, l.sig.value)) && l.block < |s.blocks|
            && var ts := Targets(s1, ns);
            && (forall k :: 0 <= k < |ts| ==> ts[k] < |s.blocks|)
            && StepBrTable(s, ns, d) ==
               SkipUnreachable(Leave(if l.sig.None? then s1 else Drop(s1), [l.block] + ts,
                                     if l.sig.None? then None else Some(TopOpd(s1)), Switch(TopOpd(s), ts, l.block)))
  {
    hide Leave, SkipUnreachable;
  }

  lemma PhiTargetFrame(s: TState, s': TState)
    requires s'.cf == s.cf
    ensures forall t :: PhiTarget(s, t) ==> PhiTarget(s', t)
  {
  }

  lemma TableTargets(s: TState, ns: seq<nat>, sig: BlockType)
    requires Core(s) && SameSig(s, ns, sig)
    ensures forall k :: 0 <= k < |ns| ==> ns[k] < |s.labels|
    ensures forall k :: 0 <= k < |ns| ==>
              Targets(s, ns)[k] < |s.blocks| && (sig.Some? ==> PhiTarget(s, Targets(s, ns)[k]))
  {
    forall k | 0 <= k < |ns|
      ensures ns[k] < |s.labels| && Target(s, s.labels[|s.labels| - 1 - ns[k]])
    {
      assert BranchDepth(s, ns[k]).Some?;
      LabelTarget(s, |s.labels| - 1 - ns[k]);
    }
  }

  lemma SelectKept(s: TState)
    requires s.cur < |s.blocks| && Ready(s) && StepSelect(s).Some?
    ensures Kept(s, StepSelect(s).value)
  {
    hide Ready, Inv, Builds, Grows;
    var s1, s2, s3 := Drop(s), Drop(Drop(s)), Drop(Drop(Drop(s)));
    DropReady(s);
    DropReady(s1);
    DropReady(s2);
    ReadyBuilds(s3);
    EmitBinBuilds(s3, s3, LCmp(Ne), TopOpd(s), Const(Zero(I32)));
    var s4 := EmitBin(s3, LCmp(Ne), TopOpd(s), Const(Zero(I32)));
    var sel := Select(s4.next, Reg(s3.next, I1), TopOpd(s2), TopOpd(s1));
    EmitDefBuilds(s3, s4, sel);
    PushKept(s3, EmitDef(s4, sel), Reg(s4.next, TypeOf(TopOpd(s2))));
  }

  lemma UnreachableKept(s: TState)
    requires s.cur < |s.blocks| && Ready(s)
    ensures var s' := Emit(TrapIf(s, Const(FromBool(true))), Unreachable);
            SkipUnreachable(s').Some? && Kept(s, SkipUnreachable(s').value)
  {
    hide TrapIf;
    ReadyBuilds(s);
    TrapIfBuilds(s, s, Const(FromBool(true)));
    LeaveDeadKept(s, TrapIf(s, Const(FromBool(true))), [], None, Unreachable);
  }

  lemma StoreKept(s: TState, s1: TState, x: nat, v: Opd)
    requires Ready(s) && Ready(s1) && s1 == s.(stack := s1.stack)
    ensures s1.cur < |s1.blocks| && Kept(s, Emit(s1, Store(x, v)))
  {
    ReadyBuilds(s1);
    EmitBuilds(s1, s1, Store(x, v));
  }

  lemma PlainKept(locals: seq<WTy>, s: TState, i: Simple)
    requires Ready(s) && InRange(s) && StepPlain(locals, s, i).Some?
    ensures Kept(s, StepPlain(locals, s, i).value)
  {
    hide Ready, Builds, Core, CurOpen, JumpTo, SkipUnreachable, StepNum, StepBrIf, StepBrTable, StepSelect, TrapIf, Inv, Frames,
      Regs, Entries, Grows, PhiTarget, InRange;
    ReadyBuilds(s);
    ReadyIsKept(s);
    match i
    case INop =>
    case IDrop => DropReady(s); ReadyIsKept(Drop(s));
    case ISelect => SelectKept(s);
    case IUnreachable => UnreachableKept(s);
    case IReturn =>
      ReadyFacts(s);
      LabelTarget(s, 0);
      JumpKept(s, BlockEntry(s.cf[0].sig, s.cf[0].end));
    case IConst(v) => PushKept(s, s, Const(v));
    case IGetLocal(x) =>
      EmitDefBuilds(s, s, Load(s.next, x));
      PushKept(s, EmitDef(s, Load(s.next, x)), Reg(s.next, locals[x]));
    case ISetLocal(x) => DropReady(s); StoreKept(s, Drop(s), x, TopOpd(s));
    case ITeeLocal(x) => StoreKept(s, s, x, TopOpd(s));
    case INum(op) => NumKept(s, op);
    case IBr(n) =>
      LabelPerFrame(s);
      LabelTarget(s, |s.labels| - 1 - n);
      JumpKept(s, BranchDepth(s, n).value);
    case IBrIf(n) => BrIfKept(s, n);
    case IBrTable(ns, d) => BrTableKept(s, ns, d);
  }

  lemma ReadyIsKept(s: TState)
    requires Ready(s)
    ensures Kept(s, s)
  {
  }

  /** The invariant, and growth of the graph, for every token in every reachable state. */
  lemma StepKept(locals: seq<WTy>, s: TState, t: Tok)
    requires Inv(s) && InRange(s) && Step(locals, s, t).Some?
    ensures Kept(s, Step(locals, s, t).value)
  {
    hide Core, CurOpen, StepPlain, StepBlock, StepLoop, StepIf, StepElse, StepEnd;
    if Top(s).reachable {
      assert s.cur < |s.blocks| by { ReadyBuilds(s); }
      match t
      case TPlain(i) => PlainKept(locals, s, i);
      case TBlock(bt) => BlockKept(s, bt);
      case TLoop(bt) => LoopKept(s, bt);
      case TIf(bt) => IfKept(s, bt);
      case TElse => ElseKept(s);
      case TEnd => EndKept(s);
    } else if s.depth == 0 && t == TElse {
      ElseKept(s);
    } else if s.depth == 0 && t == TEnd {
      EndKept(s);
    } else {
      DepthCore(s, Step(locals, s, t).value.depth);
    }
  }

  lemma DepthCore(s: TState, n: nat)
    requires Core(s)
    ensures Core(s.(depth := n)) && Grows(s.blocks, s.blocks)
  {
  }
}
