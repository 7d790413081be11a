/** Every valid body is translated to its end without a throw or a failed assertion, and the operand
    types on the way are the ones validation computes. */
module Acceptance {
  import opened Values
  import opened Cfg
  import opened Wasm
  import opened TranslatorSpec
  import opened Invariant
  import opened Steps
  import opened Structure

  /** The operands above a floor have the types validation knows. */
  ghost predicate Typed(stack: seq<Opd>, floor: nat, vals: seq<OTy>) {
    && |stack| == floor + |vals|
    && forall k :: 0 <= k < |vals| ==> vals[k] == Known(TypeOf(stack[floor + k]))
  }

  ghost predicate LabelsMatch(s: TState, ctx: Ctx) {
    && |s.labels| == |ctx.labels| > 0
    && forall i :: 0 <= i < |s.labels| ==> s.labels[i].sig == ctx.labels[i]
  }

  /** The translator's state and the validator's agree: on the labels, on whether code is reachable,
      and in reachable code on the types of all operands of the frame. */
  ghost predicate Matches(s: TState, ctx: Ctx, st: Opds) {
    && LabelsMatch(s, ctx)
    && |s.cf| > 0 && s.cf[0].sig == ctx.labels[0]
    && st.dead == !Live(s)
    && (Live(s) ==> Typed(s.stack, Top(s).outerStack, st.vals))
  }

  // ----- popping -----

  lemma PopTyped(s: TState, st: Opds, t: Ty)
    requires Floor(s) && Typed(s.stack, Top(s).outerStack, st.vals) && !st.dead
    ensures PopAny(st).Some? ==>
              && CanPop(s) && PopAny(st).value.0 == Known(TypeOf(TopOpd(s)))
              && Typed(Drop(s).stack, Top(s).outerStack, PopAny(st).value.1.vals) && !PopAny(st).value.1.dead
    ensures PopTy(st, t).Some? ==> CanPopTy(s, t) && PopTy(st, t) == Some(PopAny(st).value.1)
  {
  }

  lemma PushTyped(stack: seq<Opd>, floor: nat, vals: seq<OTy>, o: Opd)
    requires Typed(stack, floor, vals)
    ensures Typed(stack + [o], floor, vals + [Known(TypeOf(o))])
  {
  }

  lemma DeadStays(ctx: Ctx, i: Simple, st: Opds)
    requires CheckSimple(ctx, i, st).Some? && st.dead
    ensures CheckSimple(ctx, i, st).value.dead
  {
  }

  lemma NumAccepted(s: TState, op: NumOp, st: Opds)
    requires s.cur < |s.blocks| && Floor(s) && Typed(s.stack, Top(s).outerStack, st.vals) && !st.dead
    requires CheckNum(op, st).Some?
    ensures StepNum(s, op).Some?
    ensures var s' := StepNum(s, op).value;
            s'.cf == s.cf && s'.labels == s.labels &&
            Typed(s'.stack, Top(s).outerStack, CheckNum(op, st).value.vals) && !CheckNum(op, st).value.dead
  {
    hide EmitBinary, PushBool, Typed;
    var t := match op case Arith(t, _) => t case Rel(t, _) => t case Eqz(t) => t;
    PopTyped(s, st, t);
    var s1, st1 := Drop(s), PopAny(st).value.1;
    match op
    case Eqz(_) =>
      PushTyped(s1.stack, Top(s).outerStack, st1.vals, Last(StepNum(s, op).value.stack));
    case Rel(_, _) =>
      PopTyped(s1, st1, t);
      PushTyped(Drop(s1).stack, Top(s).outerStack, PopAny(st1).value.1.vals, Last(StepNum(s, op).value.stack));
    case Arith(_, _) =>
      PopTyped(s1, st1, t);
      PushTyped(Drop(s1).stack, Top(s).outerStack, PopAny(st1).value.1.vals, Last(StepNum(s, op).value.stack));
  }

  lemma JumpAccepted(s: TState, l: BlockEntry, st: Opds)
    requires s.cur < |s.blocks| && l.block < |s.blocks| && Floor(s)
    requires Typed(s.stack, Top(s).outerStack, st.vals) && !st.dead && PopBt(st, l.sig).Some?
    ensures JumpTo(s, l).Some?
    ensures |JumpTo(s, l).value.cf| > 0 && SkipUnreachable(JumpTo(s, l).value).Some?
    ensures !Live(SkipUnreachable(JumpTo(s, l).value).value)
  {
    hide Leave, Typed;
    if l.sig.Some? {
      PopTyped(s, st, l.sig.value);
    }
  }

  lemma LabelFound(s: TState, ctx: Ctx, n: nat)
    requires LabelsMatch(s, ctx) && LabelTy(ctx, n).Some?
    ensures BranchDepth(s, n).Some? && BranchDepth(s, n).value.sig == LabelTy(ctx, n).value
  {
  }

  lemma BrIfAccepted(ctx: Ctx, s: TState, n: nat, st: Opds)
    requires InRange(s) && Floor(s) && Live(s) && Matches(s, ctx, st) && CheckSimple(ctx, IBrIf(n), st).Some?
    ensures StepBrIf(s, n).Some? && Matches(StepBrIf(s, n).value, ctx, CheckSimple(ctx, IBrIf(n), st).value)
  {
    hide Leave, BrIfTest, BranchDepth, LabelTy;
    PopTyped(s, st, I32);
    var s1, st1 := Drop(s), PopTy(st, I32).value;
    LabelFound(s1, ctx, n);
    var bt := LabelTy(ctx, n).value;
    if bt.Some? {
      PopTyped(s1, st1, bt.value);
      assert PushBt(PopBt(st1, bt).value, bt).vals == st1.vals;
    }
  }

  lemma TableFound(s: TState, ctx: Ctx, ns: seq<nat>, bt: BlockType)
    requires LabelsMatch(s, ctx) && AllLabels(ctx, ns, bt)
    ensures CanPop(s) ==> SameSig(Drop(s), ns, bt)
  {
    forall k | 0 <= k < |ns|
      ensures BranchDepth(s, ns[k]).Some? && BranchDepth(s, ns[k]).value.sig == bt
    {
      LabelFound(s, ctx, ns[k]);
    }
  }

  lemma BrTableAccepted(ctx: Ctx, s: TState, ns: seq<nat>, d: nat, st: Opds)
    requires InRange(s) && Floor(s) && Live(s) && Matches(s, ctx, st) && CheckSimple(ctx, IBrTable(ns, d), st).Some?
    ensures StepBrTable(s, ns, d).Some? && !Live(StepBrTable(s, ns, d).value)
    ensures LabelsMatch(StepBrTable(s, ns, d).value, ctx) && StepBrTable(s, ns, d).value.cf[0].sig == s.cf[0].sig
  {
    hide Leave, Typed, LabelTy, Targets, SameSig, BranchDepth;
    PopTyped(s, st, I32);
    var s1, st1 := Drop(s), PopTy(st, I32).value;
    LabelFound(s1, ctx, d);
    var bt := LabelTy(ctx, d).value;
    if bt.Some? {
      PopTyped(s1, st1, bt.value);
    }
    TableFound(s, ctx, ns, bt);
  }

  lemma SelectShape(s: TState)
    requires s.cur < |s.blocks| && Floor(s) && StepSelect(s).Some?
    ensures CanPop(s) && CanPop(Drop(s)) && CanPop(Drop(Drop(s)))
    ensures var r, s2 := StepSelect(s).value, Drop(Drop(s));
            r.cf == s.cf && r.labels == s.labels && r.stack == Drop(s2).stack + [Reg(s.next + 1, TypeOf(TopOpd(s2)))]
  {
  }

  lemma SelectAccepted(ctx: Ctx, s: TState, st: Opds)
    requires s.cur < |s.blocks| && Floor(s) && Live(s) && Matches(s, ctx, st) && CheckSimple(ctx, ISelect, st).Some?
    ensures StepSelect(s).Some? && Matches(StepSelect(s).value, ctx, CheckSimple(ctx, ISelect, st).value)
  {
    hide Typed;
    PopTyped(s, st, I32);
    var s1, st1 := Drop(s), PopTy(st, I32).value;
    PopTyped(s1, st1, I32);
    var s2, st2 := Drop(s1), PopAny(st1).value.1;
    PopTyped(s2, st2, TypeOf(TopOpd(s1)));
    SelectShape(s);
    hide StepSelect;
    PushTyped(Drop(s2).stack, Top(s).outerStack, PopAny(st2).value.1.vals, Reg(s.next + 1, TypeOf(TopOpd(s2))));
  }

  lemma LocalAccepted(ctx: Ctx, s: TState, i: Simple, st: Opds)
    requires InRange(s) && Floor(s) && Live(s) && Matches(s, ctx, st) && CheckSimple(ctx, i, st).Some?
    requires i.INop? || i.IDrop? || i.IConst? || i.IGetLocal? || i.ISetLocal? || i.ITeeLocal?
    ensures StepPlain(ctx.locals, s, i).Some?
    ensures Matches(StepPlain(ctx.locals, s, i).value, ctx, CheckSimple(ctx, i, st).value)
  {
    var f := Top(s).outerStack;
    match i
    case INop =>
    case IDrop => PopTyped(s, st, I32);
    case IConst(v) => PushTyped(s.stack, f, st.vals, Opd.Const(v));
    case IGetLocal(x) => PushTyped(s.stack, f, st.vals, Reg(s.next, ctx.locals[x]));
    case ISetLocal(x) => PopTyped(s, st, ctx.locals[x]);
    case ITeeLocal(x) => PopTyped(s, st, ctx.locals[x]);
  }

  lemma LeaveAccepted(ctx: Ctx, s: TState, i: Simple, st: Opds)
    requires InRange(s) && Floor(s) && Live(s) && Matches(s, ctx, st) && CheckSimple(ctx, i, st).Some?
    requires i.IUnreachable? || i.IReturn? || i.IBr?
    ensures StepPlain(ctx.locals, s, i).Some?
    ensures Matches(StepPlain(ctx.locals, s, i).value, ctx, CheckSimple(ctx, i, st).value)
  {
    hide Typed, TrapIf, Leave;
    BranchRange(s, 0);
    match i
    case IUnreachable =>
    case IReturn => JumpAccepted(s, BlockEntry(s.cf[0].sig, s.cf[0].end), st);
    case IBr(n) =>
      LabelFound(s, ctx, n);
      BranchRange(s, n);
      JumpAccepted(s, BranchDepth(s, n).value, st);
  }

  lemma PlainAccepted(ctx: Ctx, s: TState, i: Simple, st: Opds)
    requires InRange(s) && Floor(s) && Live(s) && Matches(s, ctx, st) && CheckSimple(ctx, i, st).Some?
    ensures StepPlain(ctx.locals, s, i).Some?
    ensures Matches(StepPlain(ctx.locals, s, i).value, ctx, CheckSimple(ctx, i, st).value)
  {
    hide Matches, Typed, InRange, CheckSimple, StepPlain;
    if i.ISelect? {
      PickAccepted(ctx, s, st);
    } else if i.INum? {
      OperatorAccepted(ctx, s, i.op, st);
    } else if i.IBrIf? || i.IBrTable? {
      BranchAccepted(ctx, s, i, st);
    } else if i.IUnreachable? || i.IReturn? || i.IBr? {
      LeaveAccepted(ctx, s, i, st);
    } else {
      LocalAccepted(ctx, s, i, st);
    }
  }

  lemma PickAccepted(ctx: Ctx, s: TState, st: Opds)
    requires InRange(s) && Floor(s) && Live(s) && Matches(s, ctx, st) && CheckSimple(ctx, ISelect, st).Some?
    ensures StepPlain(ctx.locals, s, ISelect).Some?
    ensures Matches(StepPlain(ctx.locals, s, ISelect).value, ctx, CheckSimple(ctx, ISelect, st).value)
  {
    BranchRange(s, 0);
    hide Matches, Typed, InRange, CheckSimple, StepSelect;
    SelectAccepted(ctx, s, st);
  }

  lemma OperatorAccepted(ctx: Ctx, s: TState, op: NumOp, st: Opds)
    requires InRange(s) && Floor(s) && Live(s) && Matches(s, ctx, st) && CheckSimple(ctx, INum(op), st).Some?
    ensures StepPlain(ctx.locals, s, INum(op)).Some?
    ensures Matches(StepPlain(ctx.locals, s, INum(op)).value, ctx, CheckSimple(ctx, INum(op), st).value)
  {
    hide Typed, InRange, CheckNum, StepNum, LabelsMatch;
    BranchRange(s, 0);
    NumAccepted(s, op, st);
    SameLabels(s, StepNum(s, op).value, ctx);
  }

  lemma SameLabels(s: TState, s': TState, ctx: Ctx)
    requires LabelsMatch(s, ctx) && s'.labels == s.labels && s'.cf == s.cf
    ensures LabelsMatch(s', ctx)
  {
  }

  lemma BranchAccepted(ctx: Ctx, s: TState, i: Simple, st: Opds)
    requires InRange(s) && Floor(s) && Live(s) && Matches(s, ctx, st) && CheckSimple(ctx, i, st).Some?
    requires i.IBrIf? || i.IBrTable?
    ensures StepPlain(ctx.locals, s, i).Some?
    ensures Matches(StepPlain(ctx.locals, s, i).value, ctx, CheckSimple(ctx, i, st).value)
  {
    hide StepBrTable, StepBrIf, Typed, InRange, LabelsMatch;
    if i.IBrIf? {
      BrIfAccepted(ctx, s, i.n, st);
    } else {
      BrTableAccepted(ctx, s, i.ns, i.d, st);
    }
  }

  lemma EndAccepted(s: TState, st: Opds)
    requires InRange(s) && Floor(s) && Top(s).outerBlocks <= |s.labels|
    requires Live(s) ==> !st.dead && Typed(s.stack, Top(s).outerStack, st.vals) && Ends(st, Top(s).sig)
    requires !Live(s) ==> |s.stack| == Top(s).outerStack
    ensures StepEnd(s).Some?
    ensures Top(s).kind == CfIf && Top(s).els.Some? ==> StepElse(s).Some?
  {
    hide Leave;
    if Live(s) && Top(s).sig.Some? {
      PopTyped(s, st, Top(s).sig.value);
    }
  }

  lemma {:induction false} DeadBodyStays(ctx: Ctx, c: Code, st: Opds)
    requires st.dead && Check(ctx, c, st).Some?
    ensures Check(ctx, c, st).value.dead
    decreases c
  {
    match c
    case Done =>
    case Plain(i, next) =>
      DeadStays(ctx, i, st);
      DeadBodyStays(ctx, next, CheckSimple(ctx, i, st).value);
    case Block(bt, body, next) => DeadBodyStays(ctx, next, PushBt(st, bt));
    case Loop(bt, body, next) => DeadBodyStays(ctx, next, PushBt(st, bt));
    case IfElse(bt, thn, els, next) => DeadBodyStays(ctx, next, PushBt(PopTy(st, I32).value, bt));
    case IfOnly(bt, thn, next) => DeadBodyStays(ctx, next, PopTy(st, I32).value);
  }

  /** The state in which a nested body starts. */
  lemma OpenMatches(ctx: Ctx, s: TState, t: Tok, bt: BlockType, lt: BlockType, st: Opds)
    requires Inv(s) && Live(s) && Matches(s, ctx, st)
    requires (t == TBlock(bt) && lt == bt) || (t == TLoop(bt) && lt == None) || (t == TIf(bt) && lt == bt)
    requires t.TIf? ==> PopTy(st, I32).Some?
    ensures Tick(ctx.locals, s, t).Some?
    ensures Matches(Tick(ctx.locals, s, t).value, Inner(ctx, lt), EMPTY)
    ensures Opens(s, bt, Tick(ctx.locals, s, t).value) && OpensAs(s, t, Tick(ctx.locals, s, t).value)
    ensures t.TIf? ==> CanPopTy(s, I32) && Matches(Drop(s), ctx, PopTy(st, I32).value)
  {
    hide Inv, StepBlock, StepLoop, StepIf, Tick, InRange;
    InvFacts(s);
    if t.TIf? {
      PopTyped(s, st, I32);
    }
    OpenTick(ctx.locals, s, t, bt);
    OpenedMatches(ctx, s, t, bt, lt, st, Tick(ctx.locals, s, t).value);
  }

  lemma OpenedMatches(ctx: Ctx, s: TState, t: Tok, bt: BlockType, lt: BlockType, st: Opds, s1: TState)
    requires Matches(s, ctx, st) && Opens(s, bt, s1) && OpensAs(s, t, s1)
    requires (t == TBlock(bt) && lt == bt) || (t == TLoop(bt) && lt == None) || (t == TIf(bt) && lt == bt)
    ensures Matches(s1, Inner(ctx, lt), EMPTY)
  {
    forall i | 0 <= i < |s1.labels|
      ensures s1.labels[i].sig == Inner(ctx, lt).labels[i]
    {
      assert i < |s.labels| ==> s1.labels[i] == s1.labels[..|s.labels|][i];
    }
    assert s1.cf[0] == s1.cf[..|s.cf|][0];
  }

  /** After a nested frame: its result has been pushed. */
  lemma CloseMatches(ctx: Ctx, s: TState, stack: seq<Opd>, s3: TState, bt: BlockType, st: Opds)
    requires |s.cf| > 0 && Live(s) && LabelsMatch(s, ctx) && s.cf[0].sig == ctx.labels[0] && !st.dead
    requires SameFrame(s, s3) && s3.cf == s.cf && ResultOn(stack, s3.stack, bt)
    requires Typed(stack, Top(s).outerStack, st.vals)
    ensures Matches(s3, ctx, PushBt(st, bt))
  {
    if bt.Some? {
      PushTyped(stack, Top(s).outerStack, st.vals, s3.stack[|stack|]);
      assert s3.stack == stack + [s3.stack[|stack|]];
    }
  }

  /** A validated body runs through the translator, and both end in states that agree. */
  lemma {:induction false} BodyAccepted(ctx: Ctx, s: TState, c: Code, st: Opds)
    requires Inv(s) && Matches(s, ctx, st) && Check(ctx, c, st).Some?
    ensures Trans(ctx.locals, s, c).Some?
    ensures Matches(Trans(ctx.locals, s, c).value, ctx, Check(ctx, c, st).value)
    decreases c, 0
  {
    hide Inv, Ready, Kept, Step, StepPlain, CheckSimple;
    InvFacts(s);
    if !Live(s) {
      DeadBodySkipped(ctx.locals, s, c);
      DeadBodyStays(ctx, c, st);
    } else {
      match c
      case Done =>
      case Plain(i, next) =>
        PlainTick(ctx.locals, s, i);
        PlainAccepted(ctx, s, i, st);
        BodyAccepted(ctx, Tick(ctx.locals, s, TPlain(i)).value, next, CheckSimple(ctx, i, st).value);
      case Block(bt, body, next) =>
        OpenMatches(ctx, s, TBlock(bt), bt, bt, st);
        NestAccepted(ctx, s, Tick(ctx.locals, s, TBlock(bt)).value, bt, bt, body, st);
        BodyAccepted(ctx, Nest(ctx.locals, Tick(ctx.locals, s, TBlock(bt)).value, body).value, next, PushBt(st, bt));
      case Loop(bt, body, next) =>
        OpenMatches(ctx, s, TLoop(bt), bt, None, st);
        NestAccepted(ctx, s, Tick(ctx.locals, s, TLoop(bt)).value, bt, None, body, st);
        BodyAccepted(ctx, Nest(ctx.locals, Tick(ctx.locals, s, TLoop(bt)).value, body).value, next, PushBt(st, bt));
      case IfOnly(bt, thn, next) =>
        OpenMatches(ctx, s, TIf(bt), bt, bt, st);
        NestAccepted(ctx, s, Tick(ctx.locals, s, TIf(bt)).value, bt, bt, thn, PopTy(st, I32).value);
        BodyAccepted(ctx, Nest(ctx.locals, Tick(ctx.locals, s, TIf(bt)).value, thn).value, next, PopTy(st, I32).value);
      case IfElse(bt, thn, els, next) =>
        OpenMatches(ctx, s, TIf(bt), bt, bt, st);
        var s1 := Tick(ctx.locals, s, TIf(bt)).value;
        ThenAccepted(ctx, s, s1, bt, thn);
        var s3 := Tick(ctx.locals, Trans(ctx.locals, s1, thn).value, TElse).value;
        NestAccepted(ctx, s, s3, bt, bt, els, PopTy(st, I32).value);
        BodyAccepted(ctx, Nest(ctx.locals, s3, els).value, next, PushBt(PopTy(st, I32).value, bt));
    }
  }

  lemma {:induction false} NestAccepted(ctx: Ctx, s: TState, s1: TState, bt: BlockType, lt: BlockType, body: Code, st: Opds)
    requires Inv(s) && |s.cf| > 0 && Live(s) && LabelsMatch(s, ctx) && s.cf[0].sig == ctx.labels[0] && !st.dead
    requires Inv(s1) && Opens(s, bt, s1) && Matches(s1, Inner(ctx, lt), EMPTY)
    requires Typed(s1.stack, Top(s).outerStack, st.vals)
    requires Check(Inner(ctx, lt), body, EMPTY).Some? && Ends(Check(Inner(ctx, lt), body, EMPTY).value, bt)
    ensures Nest(ctx.locals, s1, body).Some?
    ensures Matches(Nest(ctx.locals, s1, body).value, ctx, PushBt(st, bt))
    ensures SameFrame(s, Nest(ctx.locals, s1, body).value) && Live(Nest(ctx.locals, s1, body).value)
    decreases body, 1
  {
    hide Inv, Ready, Kept, StepEnd, StepElse, Check, Typed;
    BodyAccepted(Inner(ctx, lt), s1, body, EMPTY);
    BodyFrame(ctx.locals, s1, body);
    var s2 := Trans(ctx.locals, s1, body).value;
    InvFacts(s2);
    TickIsStep(ctx.locals, s2, TEnd);
    EndAccepted(s2, Check(Inner(ctx, lt), body, EMPTY).value);
    NestedFrame(ctx.locals, s, s1, bt, body);
    CloseMatches(ctx, s, s1.stack, Nest(ctx.locals, s1, body).value, bt, st);
  }

  /** The first arm and its else. */
  lemma {:induction false} ThenAccepted(ctx: Ctx, s: TState, s1: TState, bt: BlockType, thn: Code)
    requires Inv(s) && |s.cf| > 0 && Live(s)
    requires Inv(s1) && Opens(s, bt, s1) && Matches(s1, Inner(ctx, bt), EMPTY)
    requires Top(s1).kind == CfIf && Top(s1).els.Some?
    requires Check(Inner(ctx, bt), thn, EMPTY).Some? && Ends(Check(Inner(ctx, bt), thn, EMPTY).value, bt)
    ensures Trans(ctx.locals, s1, thn).Some?
    ensures var s2 := Trans(ctx.locals, s1, thn).value;
            && Tick(ctx.locals, s2, TElse).Some?
            && var s3 := Tick(ctx.locals, s2, TElse).value;
            Opens(s, bt, s3) && s3.stack == s1.stack && Matches(s3, Inner(ctx, bt), EMPTY)
    decreases thn, 1
  {
    hide Inv, Ready, Kept, StepEnd, StepElse, Check;
    BodyAccepted(Inner(ctx, bt), s1, thn, EMPTY);
    BodyFrame(ctx.locals, s1, thn);
    var s2 := Trans(ctx.locals, s1, thn).value;
    InvFacts(s2);
    TickIsStep(ctx.locals, s2, TElse);
    EndAccepted(s2, Check(Inner(ctx, bt), thn, EMPTY).value);
    ElseTick(ctx.locals, s, s1, bt, s2);
  }

  // ----- whole functions -----

  lemma {:induction false} StoreBuilds(o: TState, s: TState, f: Func, n: nat)
    requires s.cur < |s.blocks| && Builds(o, s) && n <= |f.params| + |f.extra|
    ensures Builds(o, StoreLocals(s, f.params, f.extra, n))
  {
    hide Builds;
    if n > 0 {
      StoreBuilds(o, s, f, n - 1);
      var k := n - 1;
      EmitBuilds(o, StoreLocals(s, f.params, f.extra, k),
                 Store(k, if k < |f.params| then Param(k, f.params[k]) else Opd.Const(Zero(f.extra[k - |f.params|]))));
    }
  }

  lemma OpeningBuilds(ret: BlockType)
    ensures Builds(Opening(ret), Opening(ret))
  {
    assert Opening(ret).blocks[FENTRY] == Blk(None, None, [], []);
  }

  lemma StartInv(f: Func)
    ensures Inv(Start(f)) && Live(Start(f)) && SameStacks(Opening(f.ret), Start(f)) && Start(f).cur == FENTRY
    ensures Matches(Start(f), Ctx(Locals(f), [f.ret]), EMPTY)
  {
    hide Core, CurOpen, Grows, StoreLocals;
    OpeningBuilds(f.ret);
    StoreBuilds(Opening(f.ret), Opening(f.ret), f, |f.params| + |f.extra|);
  }

  /** The translator on the tokens of a whole body. */
  ghost function Translate(f: Func, ts: seq<Tok>): Option<TState> {
    StartInv(f);
    var s :- TokenLoop(Locals(f), Start(f), ts);
    FinishFunction(f, s)
  }

  /** The end that closes the function's own frame, and the return. */
  lemma LastEnd(f: Func, s: TState, st: Opds)
    requires Inv(s) && SameFrame(Opening(f.ret), s) && s.depth == 0
    requires Live(s) ==> !st.dead && Typed(s.stack, 0, st.vals) && Ends(st, f.ret)
    ensures Tick(Locals(f), s, TEnd).Some? && InRange(s) && |s.cf| > 0 && Tick(Locals(f), s, TEnd) == StepEnd(s)
    ensures var s' := Tick(Locals(f), s, TEnd).value;
            && s'.cf == [] && s'.labels == [] && s'.cur == FEND && ResultOn([], s'.stack, f.ret)
            && s'.cur < |s'.blocks| && FinishFunction(f, s').Some? && FinishFunction(f, s').value.stack == []
  {
    hide Inv, Ready, StepEnd, StepElse, Step, Tick, Typed;
    InvFacts(s);
    assert Top(s).sig == f.ret && Top(s).end == FEND && Top(s).outerStack == 0;
    hide Opening, SameFrame;
    EndTickIs(Locals(f), s);
    EndAccepted(s, st);
    EndFrame(s);
    EndCur(s);
    InvFacts(Tick(Locals(f), s, TEnd).value);
  }

  /** A valid function is translated: no throw, no failed assertion, all tokens used, the insertion
      point in the end block, and all three stacks as empty as before. */
  lemma ValidIsTranslated(f: Func)
    requires Valid(f)
    ensures Translate(f, Flatten(f.body) + [TEnd]).Some?
    ensures var s := Translate(f, Flatten(f.body) + [TEnd]).value;
            s.stack == [] && s.cf == [] && s.labels == [] && s.cur == FEND
  {
    var ctx := Ctx(Locals(f), [f.ret]);
    var s0 := Start(f);
    StartInv(f);
    hide Inv, StepEnd, Check, Start, Step;
    BodyAccepted(ctx, s0, f.body, EMPTY);
    BodyFrame(Locals(f), s0, f.body);
    var s1 := Trans(Locals(f), s0, f.body).value;
    LastEnd(f, s1, Check(ctx, f.body, EMPTY).value);
    LoopFlatten(Locals(f), s0, f.body, [TEnd]);
    LoopCons(Locals(f), s1, TEnd, []);
    assert [TEnd] + [] == [TEnd];
  }

  lemma EndCur(s: TState)
    requires InRange(s) && |s.cf| > 0 && StepEnd(s).Some?
    ensures StepEnd(s).value.cur == Top(s).end
  {
    hide CloseFrame;
  }
}
