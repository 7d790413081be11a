/** Typing of live code: the functions the translator accepts are those whose live code passes validation without two
    checks that it lacks. Dead code is skipped, so it is not validated either. */
module Typing {
  import opened Values
  import opened Cfg
  import opened Wasm
  import opened TranslatorSpec
  import opened Invariant
  import opened Steps
  import opened Structure
  import opened Acceptance
  import opened Correctness

  /** What the translator checks of a numeric operator: two operands of one type, whichever that is. */
  function TakeNum(op: NumOp, s: Opds): Option<Opds> {
    match op
    case Eqz(_) => CheckNum(op, s)
    case Rel(_, _) =>
      var r :- PopAny(s);
      if r.0.Unknown? then None
      else var s2 :- PopTy(r.1, r.0.t); Some(PushTy(s2, I32))
    case Arith(t, o) =>
      var r :- PopAny(s);
      if r.0.Unknown? || !Divisible(o, r.0.t) then None
      else var s2 :- PopTy(r.1, r.0.t); Some(PushTy(s2, if o == RemS then t else r.0.t))
  }

  function TakeSimple(ctx: Ctx, i: Simple, st: Opds): Option<Opds> {
    if i.INum? then TakeNum(i.op, st) else CheckSimple(ctx, i, st)
  }

  /** Validation of live code: once a frame is dead the rest of it is taken as it is. With full it is the validation of
      the standard; without, two checks are missing: the types of numeric operands, and the else of an if with a result. */
  function CheckLive(full: bool, ctx: Ctx, c: Code, st: Opds): Option<Opds>
    decreases c
  {
    if st.dead then Some(st)
    else
      match c
      case Done => Some(st)
      case Plain(i, next) =>
        var s1 :- if full then CheckSimple(ctx, i, st) else TakeSimple(ctx, i, st);
        CheckLive(full, ctx, next, s1)
      case Block(bt, body, next) =>
        var e :- CheckLive(full, Inner(ctx, bt), body, EMPTY);
        if Ends(e, bt) then CheckLive(full, ctx, next, PushBt(st, bt)) else None
      case Loop(bt, body, next) =>
        var e :- CheckLive(full, Inner(ctx, None), body, EMPTY);
        if Ends(e, bt) then CheckLive(full, ctx, next, PushBt(st, bt)) else None
      case IfElse(bt, thn, els, next) =>
        var s1 :- PopTy(st, I32);
        var e :- CheckLive(full, Inner(ctx, bt), thn, EMPTY);
        if !Ends(e, bt) then None
        else
          var e2 :- CheckLive(full, Inner(ctx, bt), els, EMPTY);
          if Ends(e2, bt) then CheckLive(full, ctx, next, PushBt(s1, bt)) else None
      case IfOnly(bt, thn, next) =>
        if full && bt.Some? then None
        else
          var s1 :- PopTy(st, I32);
          var e :- CheckLive(full, Inner(ctx, bt), thn, EMPTY);
          if Ends(e, bt) then CheckLive(full, ctx, next, PushBt(s1, bt)) else None
  }

  /** The first missing check: an integer operator is applied to operands of its own type. */
  predicate WidthOk(i: Simple, st: Opds) {
    match i
    case INum(Arith(t, _)) => PopTy(st, t).Some?
    case INum(Rel(t, _)) => PopTy(st, t).Some?
    case _ => true
  }

  /** Both missing checks, at every live instruction. */
  predicate Guarded(ctx: Ctx, c: Code, st: Opds)
    decreases c
  {
    if st.dead then true
    else
      match c
      case Done => true
      case Plain(i, next) =>
        WidthOk(i, st) && (TakeSimple(ctx, i, st).Some? ==> Guarded(ctx, next, TakeSimple(ctx, i, st).value))
      case Block(bt, body, next) => Guarded(Inner(ctx, bt), body, EMPTY) && Guarded(ctx, next, PushBt(st, bt))
      case Loop(bt, body, next) => Guarded(Inner(ctx, None), body, EMPTY) && Guarded(ctx, next, PushBt(st, bt))
      case IfElse(bt, thn, els, next) =>
        && Guarded(Inner(ctx, bt), thn, EMPTY) && Guarded(Inner(ctx, bt), els, EMPTY)
        && (PopTy(st, I32).Some? ==> Guarded(ctx, next, PushBt(PopTy(st, I32).value, bt)))
      case IfOnly(bt, thn, next) =>
        && bt.None? && Guarded(Inner(ctx, bt), thn, EMPTY)
        && (PopTy(st, I32).Some? ==> Guarded(ctx, next, PushBt(PopTy(st, I32).value, bt)))
  }

  /** Live code only has operands of known types. */
  predicate AllKnown(st: Opds) { if st.dead then st == DEAD else forall k :: 0 <= k < |st.vals| ==> st.vals[k].Known? }

  lemma SimpleKnown(ctx: Ctx, i: Simple, st: Opds)
    requires AllKnown(st) && !st.dead
    ensures TakeSimple(ctx, i, st).Some? ==> AllKnown(TakeSimple(ctx, i, st).value)
    ensures CheckSimple(ctx, i, st).Some? <==> TakeSimple(ctx, i, st).Some? && WidthOk(i, st)
    ensures CheckSimple(ctx, i, st).Some? ==> CheckSimple(ctx, i, st) == TakeSimple(ctx, i, st)
  {
    if i.INum? {
      NumKnown(i.op, st);
      hide CheckNum, TakeNum, AllKnown;
    } else {
      OtherKnown(ctx, i, st);
      hide CheckSimple, AllKnown;
    }
  }

  lemma NumKnown(op: NumOp, st: Opds)
    requires AllKnown(st) && !st.dead
    ensures TakeNum(op, st).Some? ==> AllKnown(TakeNum(op, st).value)
    ensures CheckNum(op, st).Some? <==> TakeNum(op, st).Some? && WidthOk(INum(op), st)
    ensures CheckNum(op, st).Some? ==> CheckNum(op, st) == TakeNum(op, st)
  {
  }

  lemma OtherKnown(ctx: Ctx, i: Simple, st: Opds)
    requires AllKnown(st) && !st.dead && !i.INum?
    ensures CheckSimple(ctx, i, st).Some? ==> AllKnown(CheckSimple(ctx, i, st).value)
  {
  }

  /** Both forms of validation differ by the two missing checks, and by nothing else. */
  lemma {:induction false} GuardsExact(ctx: Ctx, c: Code, st: Opds)
    requires AllKnown(st)
    ensures CheckLive(true, ctx, c, st).Some? <==> CheckLive(false, ctx, c, st).Some? && Guarded(ctx, c, st)
    ensures CheckLive(true, ctx, c, st).Some? ==> CheckLive(true, ctx, c, st) == CheckLive(false, ctx, c, st)
    decreases c
  {
    hide CheckSimple, TakeSimple, WidthOk;
    if !st.dead {
      match c
      case Done =>
      case Plain(i, next) =>
        SimpleKnown(ctx, i, st);
        if TakeSimple(ctx, i, st).Some? { GuardsExact(ctx, next, TakeSimple(ctx, i, st).value); }
      case Block(bt, body, next) =>
        GuardsExact(Inner(ctx, bt), body, EMPTY);
        GuardsExact(ctx, next, PushBt(st, bt));
      case Loop(bt, body, next) =>
        GuardsExact(Inner(ctx, None), body, EMPTY);
        GuardsExact(ctx, next, PushBt(st, bt));
      case IfElse(bt, thn, els, next) =>
        GuardsExact(Inner(ctx, bt), thn, EMPTY);
        GuardsExact(Inner(ctx, bt), els, EMPTY);
        if PopTy(st, I32).Some? { GuardsExact(ctx, next, PushBt(PopTy(st, I32).value, bt)); }
      case IfOnly(bt, thn, next) =>
        GuardsExact(Inner(ctx, bt), thn, EMPTY);
        if PopTy(st, I32).Some? { GuardsExact(ctx, next, PushBt(PopTy(st, I32).value, bt)); }
    }
  }

  // ----- one instruction -----

  lemma PopExact(s: TState, st: Opds, t: Ty)
    requires Floor(s) && Typed(s.stack, Top(s).outerStack, st.vals) && !st.dead
    ensures PopAny(st).Some? <==> CanPop(s)
    ensures PopTy(st, t).Some? <==> CanPopTy(s, t)
    ensures CanPop(s) ==>
              && PopAny(st).value.0 == Known(TypeOf(TopOpd(s))) && !PopAny(st).value.1.dead && Floor(Drop(s))
              && Typed(Drop(s).stack, Top(s).outerStack, PopAny(st).value.1.vals)
    ensures CanPopTy(s, t) ==> PopTy(st, t) == Some(PopAny(st).value.1)
  {
  }

  lemma NumExact(s: TState, op: NumOp, st: Opds)
    requires s.cur < |s.blocks| && Floor(s) && Typed(s.stack, Top(s).outerStack, st.vals) && !st.dead
    ensures StepNum(s, op).Some? <==> TakeNum(op, st).Some?
    ensures TakeNum(op, st).Some? ==>
              var s' := StepNum(s, op).value;
              s'.cf == s.cf && s'.labels == s.labels &&
              Typed(s'.stack, Top(s).outerStack, TakeNum(op, st).value.vals) && !TakeNum(op, st).value.dead
  {
    hide EmitBinary, PushBool, Typed;
    var t := match op case Arith(t, _) => t case Rel(t, _) => t case Eqz(t) => t;
    PopExact(s, st, t);
    if CanPop(s) {
      var s1, st1 := Drop(s), PopAny(st).value.1;
      PopExact(s1, st1, TypeOf(TopOpd(s)));
      if StepNum(s, op).Some? {
        if op.Eqz? {
          PushTyped(s1.stack, Top(s).outerStack, st1.vals, Last(StepNum(s, op).value.stack));
        } else {
          PushTyped(Drop(s1).stack, Top(s).outerStack, PopAny(st1).value.1.vals, Last(StepNum(s, op).value.stack));
        }
      }
    }
  }

  /** The operand types each numeric operator accepts: two of one type, whichever that is, but the signed division
      takes only integers, since the constants of its overflow test throw on others; eqz alone wants the type of its opcode. */
  lemma NumOperands(s: TState, op: NumOp)
    requires s.cur < |s.blocks| && Floor(s)
    ensures var n, h := |s.stack|, Top(s).outerStack;
            StepNum(s, op).Some? <==>
            match op
            case Eqz(t) => n > h && TypeOf(s.stack[n - 1]) == t
            case Rel(_, _) => n > h + 1 && TypeOf(s.stack[n - 2]) == TypeOf(s.stack[n - 1])
            case Arith(_, o) =>
              && n > h + 1 && TypeOf(s.stack[n - 2]) == TypeOf(s.stack[n - 1])
              && (o == DivS ==> TypeOf(s.stack[n - 1]) == I32 || TypeOf(s.stack[n - 1]) == I64)
  {
    hide EmitBinary, PushBool;
  }

  lemma SelectExact(ctx: Ctx, s: TState, st: Opds)
    requires s.cur < |s.blocks| && Floor(s) && Typed(s.stack, Top(s).outerStack, st.vals) && !st.dead
    ensures StepSelect(s).Some? <==> CheckSimple(ctx, ISelect, st).Some?
  {
    hide Typed;
    PopExact(s, st, I32);
    if CanPopTy(s, I32) {
      var s1, st1 := Drop(s), PopAny(st).value.1;
      PopExact(s1, st1, I32);
      if CanPop(s1) {
        PopExact(Drop(s1), PopAny(st1).value.1, TypeOf(TopOpd(s1)));
      }
    }
  }

  lemma JumpExact(s: TState, l: BlockEntry, st: Opds)
    requires s.cur < |s.blocks| && l.block < |s.blocks| && Floor(s)
    requires Typed(s.stack, Top(s).outerStack, st.vals) && !st.dead
    ensures JumpTo(s, l).Some? <==> PopBt(st, l.sig).Some?
  {
    hide Leave, Typed;
    if l.sig.Some? {
      PopExact(s, st, l.sig.value);
    }
  }

  lemma LabelExact(s: TState, ctx: Ctx, n: nat)
    requires Acceptance.LabelsMatch(s, ctx)
    ensures BranchDepth(s, n).Some? <==> LabelTy(ctx, n).Some?
    ensures BranchDepth(s, n).Some? ==> BranchDepth(s, n).value.sig == LabelTy(ctx, n).value
  {
  }

  lemma BrIfExact(ctx: Ctx, s: TState, n: nat, st: Opds)
    requires InRange(s) && Floor(s) && Live(s) && Matches(s, ctx, st)
    ensures StepBrIf(s, n).Some? <==> CheckSimple(ctx, IBrIf(n), st).Some?
  {
    hide Leave, BrIfTest, BranchDepth, LabelTy, Typed;
    PopExact(s, st, I32);
    LabelExact(s, ctx, n);
    if CanPopTy(s, I32) && BranchDepth(s, n).Some? {
      LabelExact(Drop(s), ctx, n);
      var l := BranchDepth(Drop(s), n).value;
      if l.sig.Some? { PopExact(Drop(s), PopAny(st).value.1, l.sig.value); }
    } else if CanPopTy(s, I32) {
      LabelExact(Drop(s), ctx, n);
    }
  }

  lemma BrTableExact(ctx: Ctx, s: TState, ns: seq<nat>, d: nat, st: Opds)
    requires InRange(s) && Floor(s) && Live(s) && Matches(s, ctx, st)
    ensures StepBrTable(s, ns, d).Some? <==> CheckSimple(ctx, IBrTable(ns, d), st).Some?
  {
    hide Leave, BranchDepth, LabelTy, Typed, Targets;
    PopExact(s, st, I32);
    if CanPopTy(s, I32) {
      var s1 := Drop(s);
      LabelExact(s1, ctx, d);
      if BranchDepth(s1, d).Some? {
        var l := BranchDepth(s1, d).value;
        TableExact(s1, ctx, ns, l.sig);
        if l.sig.Some? { PopExact(s1, PopAny(st).value.1, l.sig.value); }
      }
    }
  }

  lemma TableExact(s: TState, ctx: Ctx, ns: seq<nat>, sig: BlockType)
    requires Acceptance.LabelsMatch(s, ctx)
    ensures SameSig(s, ns, sig) <==> AllLabels(ctx, ns, sig)
  {
    forall k | 0 <= k < |ns|
      ensures BranchDepth(s, ns[k]).Some? && BranchDepth(s, ns[k]).value.sig == sig <==> LabelTy(ctx, ns[k]) == Some(sig)
    {
      LabelExact(s, ctx, ns[k]);
    }
    hide BranchDepth, LabelTy;
  }

  lemma LocalExact(ctx: Ctx, s: TState, i: Simple, st: Opds)
    requires InRange(s) && Floor(s) && Live(s) && Matches(s, ctx, st)
    requires i.INop? || i.IDrop? || i.IConst? || i.IGetLocal? || i.ISetLocal? || i.ITeeLocal?
    ensures StepPlain(ctx.locals, s, i).Some? <==> CheckSimple(ctx, i, st).Some?
  {
    hide Typed;
    match i
    case IDrop => PopExact(s, st, I32);
    case ISetLocal(x) => if x < |ctx.locals| { PopExact(s, st, ctx.locals[x]); }
    case ITeeLocal(x) => if x < |ctx.locals| { PopExact(s, st, ctx.locals[x]); }
    case _ =>
  }

  lemma LeaveExact(ctx: Ctx, s: TState, i: Simple, st: Opds)
    requires InRange(s) && Floor(s) && Live(s) && Matches(s, ctx, st) && (i.IReturn? || i.IBr?)
    ensures StepPlain(ctx.locals, s, i).Some? ==> CheckSimple(ctx, i, st).Some?
  {
    hide Typed, JumpTo;
    BranchRange(s, 0);
    match i
    case IReturn => JumpExact(s, BlockEntry(s.cf[0].sig, s.cf[0].end), st);
    case IBr(n) =>
      LabelExact(s, ctx, n);
      BranchRange(s, n);
      if BranchDepth(s, n).Some? { JumpExact(s, BranchDepth(s, n).value, st); }
  }

  /** A live instruction is accepted if and only if it passes those checks. */
  lemma PlainExact(ctx: Ctx, s: TState, i: Simple, st: Opds)
    requires InRange(s) && Floor(s) && Live(s) && Matches(s, ctx, st)
    ensures StepPlain(ctx.locals, s, i).Some? <==> TakeSimple(ctx, i, st).Some?
    ensures TakeSimple(ctx, i, st).Some? ==> Matches(StepPlain(ctx.locals, s, i).value, ctx, TakeSimple(ctx, i, st).value)
  {
    hide Typed, InRange, StepNum, TakeNum, CheckNum, StepSelect, StepBrIf, StepBrTable, JumpTo, TrapIf, SkipUnreachable,
      LabelsMatch;
    BranchRange(s, 0);
    if i.INum? {
      NumExact(s, i.op, st);
      if TakeNum(i.op, st).Some? { SameLabels(s, StepNum(s, i.op).value, ctx); }
    } else {
      if CheckSimple(ctx, i, st).Some? { PlainAccepted(ctx, s, i, st); }
      OtherExact(ctx, s, i, st);
    }
  }

  lemma OtherExact(ctx: Ctx, s: TState, i: Simple, st: Opds)
    requires InRange(s) && Floor(s) && Live(s) && Matches(s, ctx, st) && !i.INum?
    ensures StepPlain(ctx.locals, s, i).Some? ==> CheckSimple(ctx, i, st).Some?
  {
    hide Typed, InRange, StepSelect, StepBrIf, StepBrTable, JumpTo, TrapIf, SkipUnreachable;
    BranchRange(s, 0);
    if i.ISelect? {
      SelectExact(ctx, s, st);
    } else if i.IBrIf? {
      BrIfExact(ctx, s, i.n, st);
    } else if i.IBrTable? {
      BrTableExact(ctx, s, i.ns, i.d, st);
    } else if i.IReturn? || i.IBr? {
      LeaveExact(ctx, s, i, st);
    } else if i.IUnreachable? {
    } else {
      LocalExact(ctx, s, i, st);
    }
  }

  // ----- bodies -----

  /** A frame can be closed if and only if validation lets it end. */
  lemma EndExact(s: TState, st: Opds)
    requires InRange(s) && Floor(s) && Top(s).outerBlocks <= |s.labels|
    requires if Live(s) then !st.dead && Typed(s.stack, Top(s).outerStack, st.vals)
             else st == DEAD && |s.stack| == Top(s).outerStack
    ensures StepEnd(s).Some? <==> Ends(st, Top(s).sig)
    ensures Top(s).kind == CfIf && Top(s).els.Some? ==> (StepElse(s).Some? <==> Ends(st, Top(s).sig))
  {
    hide Leave;
    if Live(s) && Top(s).sig.Some? {
      PopExact(s, st, Top(s).sig.value);
    }
  }

  /** The two sides at the start of a body. */
  ghost predicate Agree(ctx: Ctx, s: TState, st: Opds) {
    Inv(s) && Matches(s, ctx, st) && (st.dead ==> st == DEAD)
  }

  lemma TakeDead(ctx: Ctx, i: Simple, st: Opds)
    requires TakeSimple(ctx, i, st).Some? && !st.dead
    ensures TakeSimple(ctx, i, st).value.dead ==> TakeSimple(ctx, i, st).value == DEAD
  {
  }

  /** For every body: it is accepted if and only if its live code passes the translator's checks; and then the operand
      types above the floor of the open frame are the ones those checks compute. */
  lemma {:induction false} BodyExact(ctx: Ctx, s: TState, c: Code, st: Opds)
    requires Agree(ctx, s, st)
    ensures Trans(ctx.locals, s, c).Some? <==> CheckLive(false, ctx, c, st).Some?
    ensures CheckLive(false, ctx, c, st).Some? ==>
              Agree(ctx, Trans(ctx.locals, s, c).value, CheckLive(false, ctx, c, st).value)
    decreases c, 2
  {
    hide Inv, Ready, Kept, Step, StepPlain, TakeSimple, Matches;
    InvFacts(s);
    MatchesFacts(ctx, s, st);
    if !Live(s) {
      DeadBodySkipped(ctx.locals, s, c);
    } else {
      match c
      case Done =>
      case Plain(i, next) =>
        PlainTick(ctx.locals, s, i);
        PlainExact(ctx, s, i, st);
        if TakeSimple(ctx, i, st).Some? {
          TakeDead(ctx, i, st);
          BodyExact(ctx, Tick(ctx.locals, s, TPlain(i)).value, next, TakeSimple(ctx, i, st).value);
        }
      case Block(bt, body, next) =>
        OpenMatches(ctx, s, TBlock(bt), bt, bt, st);
        FrameExact(ctx, s, c, Tick(ctx.locals, s, TBlock(bt)).value, bt, bt, body, next, st);
      case Loop(bt, body, next) =>
        OpenMatches(ctx, s, TLoop(bt), bt, None, st);
        FrameExact(ctx, s, c, Tick(ctx.locals, s, TLoop(bt)).value, bt, None, body, next, st);
      case IfOnly(bt, thn, next) =>
        IfExact(ctx, s, bt, st);
        if PopTy(st, I32).Some? {
          FrameExact(ctx, s, c, Tick(ctx.locals, s, TIf(bt)).value, bt, bt, thn, next, PopTy(st, I32).value);
        }
      case IfElse(bt, thn, els, next) =>
        IfExact(ctx, s, bt, st);
        if PopTy(st, I32).Some? {
          ArmsExact(ctx, s, c, Tick(ctx.locals, s, TIf(bt)).value, PopTy(st, I32).value);
        }
    }
  }

  lemma MatchesFacts(ctx: Ctx, s: TState, st: Opds)
    requires Matches(s, ctx, st)
    ensures |s.cf| > 0 && st.dead == !Live(s)
    ensures Acceptance.LabelsMatch(s, ctx) && s.cf[0].sig == ctx.labels[0]
    ensures Live(s) ==> Typed(s.stack, Top(s).outerStack, st.vals)
  {
  }

  /** An if opens exactly when there is a condition. */
  lemma IfExact(ctx: Ctx, s: TState, bt: BlockType, st: Opds)
    requires Inv(s) && Live(s) && Matches(s, ctx, st)
    ensures Tick(ctx.locals, s, TIf(bt)).Some? <==> PopTy(st, I32).Some?
    ensures PopTy(st, I32).Some? ==>
              var s1 := Tick(ctx.locals, s, TIf(bt)).value;
              && Opens(s, bt, s1) && Matches(s1, Inner(ctx, bt), EMPTY) && !PopTy(st, I32).value.dead
              && Typed(s1.stack, Top(s).outerStack, PopTy(st, I32).value.vals)
              && Top(s1).kind == CfIf && Top(s1).els.Some?
  {
    hide Inv, Ready, Kept, Step, StepIf, Tick, Opens;
    InvFacts(s);
    PopExact(s, st, I32);
    OpenTick(ctx.locals, s, TIf(bt), bt);
    if PopTy(st, I32).Some? {
      OpenMatches(ctx, s, TIf(bt), bt, bt, st);
    }
  }

  /** What the frame around knows while a nested frame is open. */
  ghost predicate Around(ctx: Ctx, s: TState, st: Opds) {
    Inv(s) && |s.cf| > 0 && Live(s) && Acceptance.LabelsMatch(s, ctx) && s.cf[0].sig == ctx.labels[0] && !st.dead
  }

  /** A nested body and its end. */
  lemma {:induction false} NestExact(ctx: Ctx, s: TState, s1: TState, bt: BlockType, lt: BlockType, body: Code, st: Opds)
    requires Around(ctx, s, st) && Inv(s1) && Opens(s, bt, s1) && Matches(s1, Inner(ctx, lt), EMPTY)
    requires Typed(s1.stack, Top(s).outerStack, st.vals)
    ensures var e := CheckLive(false, Inner(ctx, lt), body, EMPTY);
            && (Nest(ctx.locals, s1, body).Some? <==> e.Some? && Ends(e.value, bt))
            && (e.Some? && Ends(e.value, bt) ==> Agree(ctx, Nest(ctx.locals, s1, body).value, PushBt(st, bt)))
    decreases body, 3
  {
    hide Inv, Ready, Kept, StepEnd, StepElse, CheckLive, Step;
    BodyExact(Inner(ctx, lt), s1, body, EMPTY);
    var e := CheckLive(false, Inner(ctx, lt), body, EMPTY);
    if e.Some? {
      BodyFrame(ctx.locals, s1, body);
      var s2 := Trans(ctx.locals, s1, body).value;
      InvFacts(s2);
      EndTickIs(ctx.locals, s2);
      EndExact(s2, e.value);
      if Ends(e.value, bt) {
        NestedFrame(ctx.locals, s, s1, bt, body);
        CloseMatches(ctx, s, s1.stack, Nest(ctx.locals, s1, body).value, bt, st);
      }
    }
  }

  /** A nested frame and what follows it. */
  lemma {:induction false} FrameExact(ctx: Ctx, s: TState, c: Code, s1: TState, bt: BlockType, lt: BlockType, body: Code,
                                      next: Code, st: Opds)
    requires body < c && next < c && Around(ctx, s, st) && Inv(s1) && Opens(s, bt, s1) && Matches(s1, Inner(ctx, lt), EMPTY)
    requires Typed(s1.stack, Top(s).outerStack, st.vals)
    ensures var e := CheckLive(false, Inner(ctx, lt), body, EMPTY); var n := Nest(ctx.locals, s1, body);
            var ok := e.Some? && Ends(e.value, bt) && CheckLive(false, ctx, next, PushBt(st, bt)).Some?;
            && (ok <==> n.Some? && Trans(ctx.locals, n.value, next).Some?)
            && (ok ==> Agree(ctx, Trans(ctx.locals, n.value, next).value, CheckLive(false, ctx, next, PushBt(st, bt)).value))
    decreases c, 0
  {
    hide Inv, Matches, CheckLive, Ends, Opens, Typed, Acceptance.LabelsMatch;
    NestExact(ctx, s, s1, bt, lt, body, st);
    var e := CheckLive(false, Inner(ctx, lt), body, EMPTY);
    if e.Some? && Ends(e.value, bt) {
      BodyExact(ctx, Nest(ctx.locals, s1, body).value, next, PushBt(st, bt));
    }
  }

  /** Both arms of an if, and what follows. */
  lemma {:induction false} ArmsExact(ctx: Ctx, s: TState, c: Code, s1: TState, st: Opds)
    requires c.IfElse? && Around(ctx, s, st) && Inv(s1) && Opens(s, c.bt, s1) && Matches(s1, Inner(ctx, c.bt), EMPTY)
    requires Typed(s1.stack, Top(s).outerStack, st.vals) && Top(s1).kind == CfIf && Top(s1).els.Some?
    ensures var e := CheckLive(false, Inner(ctx, c.bt), c.thn, EMPTY); var s2 := Trans(ctx.locals, s1, c.thn);
            && (e.Some? && Ends(e.value, c.bt) <==>
                  s2.Some? && Tick(ctx.locals, s2.value, TElse).Some?)
            && (e.Some? && Ends(e.value, c.bt) ==>
                  var s3 := Tick(ctx.locals, s2.value, TElse).value; var n := Nest(ctx.locals, s3, c.els);
                  var e2 := CheckLive(false, Inner(ctx, c.bt), c.els, EMPTY);
                  var ok := e2.Some? && Ends(e2.value, c.bt) && CheckLive(false, ctx, c.next, PushBt(st, c.bt)).Some?;
                  && (ok <==> n.Some? && Trans(ctx.locals, n.value, c.next).Some?)
                  && (ok ==> Agree(ctx, Trans(ctx.locals, n.value, c.next).value,
                                   CheckLive(false, ctx, c.next, PushBt(st, c.bt)).value)))
    decreases c, 1
  {
    hide Inv, CheckLive, Typed, Ready, Kept, StepEnd, StepElse, Step, Acceptance.LabelsMatch;
    BodyExact(Inner(ctx, c.bt), s1, c.thn, EMPTY);
    var e := CheckLive(false, Inner(ctx, c.bt), c.thn, EMPTY);
    if e.Some? {
      BodyFrame(ctx.locals, s1, c.thn);
      var s2 := Trans(ctx.locals, s1, c.thn).value;
      InvFacts(s2);
      EndTickIs(ctx.locals, s2);
      EndExact(s2, e.value);
      if Ends(e.value, c.bt) {
        ElseTick(ctx.locals, s, s1, c.bt, s2);
        var s3 := Tick(ctx.locals, s2, TElse).value;
        ElseMatches(ctx, s, s1, s3, c.bt);
        FrameExact(ctx, s, c, s3, c.bt, c.bt, c.els, c.next, st);
      }
    }
  }

  lemma ElseMatches(ctx: Ctx, s: TState, s1: TState, s3: TState, bt: BlockType)
    requires |s.cf| > 0 && Opens(s, bt, s1) && Matches(s1, Inner(ctx, bt), EMPTY) && Opens(s, bt, s3)
    requires s3.stack == s1.stack && s3.labels == s1.labels
    ensures Matches(s3, Inner(ctx, bt), EMPTY)
  {
    assert s3.cf[..|s.cf|][0] == s1.cf[..|s.cf|][0];
  }

  // ----- whole functions -----

  function TopCtx(f: Func): Ctx { Ctx(Locals(f), [f.ret]) }

  /** The live code of a function validates. */
  predicate LiveValid(f: Func) {
    var r := CheckLive(true, TopCtx(f), f.body, EMPTY);
    r.Some? && Ends(r.value, f.ret)
  }

  /** The same without the two missing checks. */
  predicate Taken(f: Func) {
    var r := CheckLive(false, TopCtx(f), f.body, EMPTY);
    r.Some? && Ends(r.value, f.ret)
  }

  /** The functions the translator accepts. */
  lemma AcceptedExact(f: Func)
    ensures Translate(f, Flatten(f.body) + [TEnd]).Some? <==> Taken(f)
  {
    hide Inv, StepEnd, StepElse, CheckLive, Start, Step, Ready, FinishFunction;
    var lt, ctx, s0 := Locals(f), TopCtx(f), Start(f);
    StartInv(f);
    BodyExact(ctx, s0, f.body, EMPTY);
    LoopFlatten(lt, s0, f.body, [TEnd]);
    var e := CheckLive(false, ctx, f.body, EMPTY);
    if e.Some? {
      var s1 := Trans(lt, s0, f.body).value;
      BodyFrame(lt, s0, f.body);
      OwnFrame(f, s1);
      InvFacts(s1);
      EndTickIs(lt, s1);
      EndExact(s1, e.value);
      LoopCons(lt, s1, TEnd, []);
      assert [TEnd] + [] == [TEnd];
      if Ends(e.value, f.ret) {
        LastEnd(f, s1, e.value);
      }
    }
  }

  /** The translator accepts a function that passes both missing checks if and only if its live code validates. */
  lemma FunctionExact(f: Func)
    ensures Translate(f, Flatten(f.body) + [TEnd]).Some? && Guarded(TopCtx(f), f.body, EMPTY) <==> LiveValid(f)
  {
    hide Translate, CheckLive, Guarded;
    AcceptedExact(f);
    GuardsExact(TopCtx(f), f.body, EMPTY);
  }

  /** What the standard says of a whole body includes what it says of its live code. */
  lemma {:induction false} ValidBodyLive(ctx: Ctx, c: Code, st: Opds)
    requires Check(ctx, c, st).Some? && (st.dead ==> st == DEAD)
    ensures CheckLive(true, ctx, c, st) == Some(if Check(ctx, c, st).value.dead then DEAD else Check(ctx, c, st).value)
    decreases c
  {
    hide CheckSimple;
    if st.dead {
      DeadBodyStays(ctx, c, st);
    } else {
      match c
      case Done =>
      case Plain(i, next) =>
        SimpleDead(ctx, i, st);
        ValidBodyLive(ctx, next, CheckSimple(ctx, i, st).value);
      case Block(bt, body, next) =>
        ValidBodyLive(Inner(ctx, bt), body, EMPTY);
        ValidBodyLive(ctx, next, PushBt(st, bt));
      case Loop(bt, body, next) =>
        ValidBodyLive(Inner(ctx, None), body, EMPTY);
        ValidBodyLive(ctx, next, PushBt(st, bt));
      case IfElse(bt, thn, els, next) =>
        ValidBodyLive(Inner(ctx, bt), thn, EMPTY);
        ValidBodyLive(Inner(ctx, bt), els, EMPTY);
        ValidBodyLive(ctx, next, PushBt(PopTy(st, I32).value, bt));
      case IfOnly(bt, thn, next) =>
        ValidBodyLive(Inner(ctx, bt), thn, EMPTY);
        ValidBodyLive(ctx, next, PopTy(st, I32).value);
    }
  }

  lemma SimpleDead(ctx: Ctx, i: Simple, st: Opds)
    requires CheckSimple(ctx, i, st).Some? && !st.dead
    ensures CheckSimple(ctx, i, st).value.dead ==> CheckSimple(ctx, i, st).value == DEAD
  {
  }

  lemma ValidIsLive(f: Func)
    requires Valid(f)
    ensures LiveValid(f)
  {
    ValidBodyLive(TopCtx(f), f.body, EMPTY);
    hide Check, CheckLive;
  }

  /** Without the first check the two sides differ: two i64 constants are added as i32, and the translator takes it. */
  lemma WidthBlind()
    ensures var f := Func([], [], None, Blind());
            Translate(f, Flatten(f.body) + [TEnd]).Some? && !LiveValid(f)
  {
    hide Translate, Flatten, Taken, LiveValid, Blind;
    AcceptedExact(Func([], [], None, Blind()));
    BlindTaken();
  }

  lemma BlindTaken()
    ensures Taken(Func([], [], None, Blind())) && !LiveValid(Func([], [], None, Blind()))
  {
    hide CheckLive;
    var c, ctx := IConst(Val(I64, 1)), Ctx([], [None]);
    var b3 := Plain(IDrop, Done);
    var b2 := Plain(INum(Arith(I32, Add)), b3);
    var st1, st2 := Opds([Known(I64)], false), Opds([Known(I64), Known(I64)], false);
    ConstLive(ctx, Plain(c, b2), EMPTY, st1);
    ConstLive(ctx, b2, st1, st2);
    AddTaken(ctx, b3, st2, st1);
    DropTaken(ctx, st1);
    assert TopCtx(Func([], [], None, Blind())) == ctx;
  }

  lemma ConstLive(ctx: Ctx, next: Code, st: Opds, st': Opds)
    requires !st.dead && st' == PushTy(st, I64)
    ensures forall full :: CheckLive(full, ctx, Plain(IConst(Val(I64, 1)), next), st) == CheckLive(full, ctx, next, st')
  {
  }

  lemma AddTaken(ctx: Ctx, next: Code, st: Opds, st': Opds)
    requires st == Opds([Known(I64), Known(I64)], false) && st' == Opds([Known(I64)], false)
    ensures CheckLive(false, ctx, Plain(INum(Arith(I32, Add)), next), st) == CheckLive(false, ctx, next, st')
    ensures CheckLive(true, ctx, Plain(INum(Arith(I32, Add)), next), st).None?
  {
    assert PopAny(st).value.1 == st' && PopAny(st').value.1 == EMPTY && PushTy(EMPTY, I64) == st';
  }

  lemma DropTaken(ctx: Ctx, st: Opds)
    requires st == Opds([Known(I64)], false)
    ensures CheckLive(false, ctx, Plain(IDrop, Done), st) == Some(EMPTY)
  {
  }

  function Blind(): Code {
    var c := IConst(Val(I64, 1));
    Plain(c, Plain(c, Plain(INum(Arith(I32, Add)), Plain(IDrop, Done))))
  }
}
