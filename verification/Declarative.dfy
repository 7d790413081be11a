/** The typing rules of the WebAssembly Core Specification 1.0 (section 3.3) as a relation between the operand types before
    and after a piece of code, and the proof that the validation algorithm decides it. */
module Declarative {
  import opened Values
  import opened Wasm

  /** Operand types, the top one last. */
  type Types = seq<WTy>

  function Result(bt: BlockType): Types { if bt.None? then [] else [bt.value] }

  predicate EndsWith(a: Types, b: Types) { |b| <= |a| && a[|a| - |b|..] == b }

  predicate NumType(op: NumOp, a: Types, b: Types) {
    match op
    case Arith(t, _) => a == [t, t] && b == [t]
    case Rel(t, _) => a == [t, t] && b == [I32]
    case Eqz(t) => a == [t] && b == [I32]
  }

  /** The rule of each instruction: it takes a and leaves b. Where control does not go on, b is arbitrary, and so is what
      lies in a below the operands that are used. */
  predicate SimpleType(ctx: Ctx, i: Simple, a: Types, b: Types) {
    match i
    case INop => a == [] && b == []
    case IDrop => |a| == 1 && b == []
    case ISelect => |a| == 3 && a[0] == a[1] && a[2] == I32 && b == [a[0]]
    case IUnreachable => true
    case IReturn => |ctx.labels| > 0 && EndsWith(a, Result(ctx.labels[0]))
    case IConst(v) => a == [] && b == [v.ty]
    case IGetLocal(x) => x < |ctx.locals| && a == [] && b == [ctx.locals[x]]
    case ISetLocal(x) => x < |ctx.locals| && a == [ctx.locals[x]] && b == []
    case ITeeLocal(x) => x < |ctx.locals| && a == [ctx.locals[x]] && b == a
    case INum(op) => NumType(op, a, b)
    case IBr(n) => n < |ctx.labels| && EndsWith(a, Result(ctx.labels[|ctx.labels| - 1 - n]))
    case IBrIf(n) => n < |ctx.labels| && b == Result(ctx.labels[|ctx.labels| - 1 - n]) && a == b + [I32]
    case IBrTable(ns, d) =>
      && d < |ctx.labels| && EndsWith(a, Result(ctx.labels[|ctx.labels| - 1 - d]) + [I32])
      && forall k :: 0 <= k < |ns| ==>
           ns[k] < |ctx.labels| && ctx.labels[|ctx.labels| - 1 - ns[k]] == ctx.labels[|ctx.labels| - 1 - d]
  }

  /** An instruction leaves alone what it does not take. */
  ghost predicate Step(ctx: Ctx, i: Simple, from: Types, to: Types) {
    exists k :: 0 <= k <= |from| && k <= |to| && from[..k] == to[..k] && SimpleType(ctx, i, from[k..], to[k..])
  }

  /** Code takes the operand types from to to. */
  ghost predicate BodyType(ctx: Ctx, c: Code, from: Types, to: Types)
    decreases c
  {
    match c
    case Done => from == to
    case Plain(i, next) => exists mid :: Step(ctx, i, from, mid) && BodyType(ctx, next, mid, to)
    case Block(bt, body, next) =>
      BodyType(Inner(ctx, bt), body, [], Result(bt)) && BodyType(ctx, next, from + Result(bt), to)
    case Loop(bt, body, next) =>
      BodyType(Inner(ctx, None), body, [], Result(bt)) && BodyType(ctx, next, from + Result(bt), to)
    case IfElse(bt, thn, els, next) =>
      && EndsWith(from, [I32])
      && BodyType(Inner(ctx, bt), thn, [], Result(bt)) && BodyType(Inner(ctx, bt), els, [], Result(bt))
      && BodyType(ctx, next, from[..|from| - 1] + Result(bt), to)
    case IfOnly(bt, thn, next) =>
      bt.None? && EndsWith(from, [I32]) && BodyType(Inner(ctx, bt), thn, [], []) && BodyType(ctx, next, from[..|from| - 1], to)
  }

  /** A function's body takes no operands and leaves its result, which is also what its outermost label takes. */
  ghost predicate WellTyped(f: Func) { BodyType(Ctx(f.params + f.extra, [f.ret]), f.body, [], Result(f.ret)) }

  // ----- the algorithm's operands stand for operand types -----

  /** In dead code anything may lie below the known operands, and an unknown one has any type. */
  predicate Fits(st: Opds, ts: Types) {
    && |st.vals| <= |ts| && (!st.dead ==> |ts| == |st.vals|)
    && forall k :: 0 <= k < |st.vals| ==> st.vals[k] == Unknown || st.vals[k] == Known(ts[|ts| - |st.vals| + k])
  }

  predicate NoI1(st: Opds) { forall k :: 0 <= k < |st.vals| ==> st.vals[k] != Known(I1) }

  function Witness(st: Opds): (ts: Types)
    requires NoI1(st)
    ensures Fits(st, ts)
  {
    seq(|st.vals|, k requires 0 <= k < |st.vals| => if st.vals[k].Known? then st.vals[k].t else I32)
  }

  lemma PopFits(st: Opds, ts: Types, t: WTy)
    requires Fits(st, ts + [t])
    ensures PopAny(st).Some? && PopTy(st, t) == Some(PopAny(st).value.1) && Fits(PopAny(st).value.1, ts)
    ensures PopAny(st).value.0 == Known(t) || PopAny(st).value.0 == Unknown
  {
    if st.vals != [] {
      var n := |st.vals| - 1;
      assert st.vals[n] == Unknown || st.vals[n] == Known((ts + [t])[|ts|]);
      forall k | 0 <= k < n
        ensures st.vals[k] == Unknown || st.vals[k] == Known(ts[|ts| - n + k])
      {
        assert (ts + [t])[|ts| + 1 - |st.vals| + k] == ts[|ts| - n + k];
      }
    }
  }

  lemma PopBack(st: Opds, ts: Types, t: WTy)
    requires PopTy(st, t).Some? && Fits(PopTy(st, t).value, ts)
    ensures Fits(st, ts + [t])
  {
  }

  lemma PopAnyBack(st: Opds, ts: Types)
    requires PopAny(st).Some? && NoI1(st) && Fits(PopAny(st).value.1, ts)
    ensures var o := PopAny(st).value.0; o != Known(I1) && Fits(st, ts + [if o.Known? then o.t else I32])
  {
  }

  lemma PushFits(st: Opds, ts: Types, t: WTy)
    requires Fits(st, ts)
    ensures Fits(PushTy(st, t), ts + [t])
  {
  }

  lemma PushBack(st: Opds, ts: Types, t: WTy)
    requires Fits(PushTy(st, t), ts)
    ensures ts != [] && Fits(st, ts[..|ts| - 1]) && ts == ts[..|ts| - 1] + [t]
  {
    var v := PushTy(st, t).vals;
    assert v[|v| - 1] == Known(t);
    forall k | 0 <= k < |st.vals|
      ensures st.vals[k] == Unknown || st.vals[k] == Known(ts[..|ts| - 1][|ts| - 1 - |st.vals| + k])
    {
      assert v[k] == st.vals[k];
    }
  }

  /** Results of labels and frames, of which there is at most one. */
  lemma BtFits(st: Opds, ts: Types, bt: BlockType)
    requires Fits(st, ts + Result(bt))
    ensures PopBt(st, bt).Some? && Fits(PopBt(st, bt).value, ts)
  {
    if bt.Some? {
      PopFits(st, ts, bt.value);
    } else {
      assert ts + [] == ts;
    }
  }

  lemma BtBack(st: Opds, ts: Types, bt: BlockType)
    requires PopBt(st, bt).Some? && Fits(PopBt(st, bt).value, ts)
    ensures Fits(st, ts + Result(bt))
  {
    if bt.Some? {
      PopBack(st, ts, bt.value);
    } else {
      assert ts + [] == ts;
    }
  }

  lemma PushBtFits(st: Opds, ts: Types, bt: BlockType)
    requires Fits(st, ts)
    ensures Fits(PushBt(st, bt), ts + Result(bt))
  {
    if bt.Some? {
      PushFits(st, ts, bt.value);
    } else {
      assert ts + [] == ts;
    }
  }

  lemma PushBtBack(st: Opds, ts: Types, bt: BlockType) returns (below: Types)
    requires Fits(PushBt(st, bt), ts)
    ensures Fits(st, below) && ts == below + Result(bt)
  {
    if bt.Some? {
      PushBack(st, ts, bt.value);
      below := ts[..|ts| - 1];
    } else {
      below := ts;
    }
  }

  /** A frame may end exactly when its result alone can be left. */
  lemma EndsFits(st: Opds, bt: BlockType)
    ensures Ends(st, bt) <==> Fits(st, Result(bt))
  {
    if Ends(st, bt) {
      BtBack(st, [], bt);
      assert [] + Result(bt) == Result(bt);
    }
    if Fits(st, Result(bt)) {
      assert [] + Result(bt) == Result(bt);
      BtFits(st, [], bt);
    }
  }

  lemma Split(ctx: Ctx, i: Simple, pre: Types, a: Types, b: Types)
    requires SimpleType(ctx, i, a, b)
    ensures Step(ctx, i, pre + a, pre + b)
  {
    var from, to, k := pre + a, pre + b, |pre|;
    assert from[..k] == pre == to[..k] && from[k..] == a && to[k..] == b;
  }

  lemma LastOf(a: Types, b: Types) returns (pre: Types)
    requires EndsWith(a, b)
    ensures a == pre + b
  {
    pre := a[..|a| - |b|];
  }

  lemma LabelIs(ctx: Ctx, n: nat)
    ensures LabelTy(ctx, n).Some? <==> n < |ctx.labels|
    ensures n < |ctx.labels| ==> LabelTy(ctx, n).value == ctx.labels[|ctx.labels| - 1 - n]
  {
  }

  // ----- completeness -----

  lemma Regroup(pre: Types, a: Types, b: Types)
    ensures pre + (a + b) == pre + a + b
  {
  }

  lemma NumComplete(op: NumOp, st: Opds, pre: Types, a: Types, b: Types)
    requires Fits(st, pre + a) && NumType(op, a, b)
    ensures CheckNum(op, st).Some? && Fits(CheckNum(op, st).value, pre + b)
  {
    var t: WTy := a[0];
    if op.Eqz? {
      PopFits(st, pre, t);
      PushFits(PopTy(st, t).value, pre, I32);
    } else {
      Regroup(pre, [t], [t]);
      assert a == [t] + [t];
      PopFits(st, pre + [t], t);
      var s1 := PopTy(st, t).value;
      PopFits(s1, pre, t);
      PushFits(PopTy(s1, t).value, pre, b[0]);
    }
  }

  lemma SelectComplete(ctx: Ctx, st: Opds, pre: Types, t: WTy)
    requires Fits(st, pre + [t, t, I32])
    ensures CheckSimple(ctx, ISelect, st).Some? && Fits(CheckSimple(ctx, ISelect, st).value, pre + [t])
  {
    hide Fits;
    assert pre + [t, t, I32] == pre + [t] + [t] + [I32];
    PopFits(st, pre + [t] + [t], I32);
    var s1 := PopTy(st, I32).value;
    PopFits(s1, pre + [t], t);
    var s2 := PopAny(s1).value.1;
    PopFits(s2, pre, t);
    var s3 := PopAny(s2).value.1;
    PushOneFits(s3, pre, t, Known(t));
    PushOneFits(s3, pre, t, Unknown);
  }

  lemma PushOneFits(st: Opds, ts: Types, t: WTy, o: OTy)
    requires Fits(st, ts) && (o == Known(t) || o == Unknown)
    ensures Fits(st.(vals := st.vals + [o]), ts + [t])
  {
  }

  lemma JumpComplete(st: Opds, pre: Types, a: Types, bt: BlockType)
    requires Fits(st, pre + a) && EndsWith(a, Result(bt))
    ensures PopBt(st, bt).Some?
  {
    hide Fits;
    var p := LastOf(a, Result(bt));
    Regroup(pre, p, Result(bt));
    BtFits(st, pre + p, bt);
  }

  lemma TableComplete(ctx: Ctx, ns: seq<nat>, d: nat, st: Opds, pre: Types, a: Types, to: Types)
    requires Fits(st, pre + a) && SimpleType(ctx, IBrTable(ns, d), a, to)
    ensures CheckSimple(ctx, IBrTable(ns, d), st) == Some(DEAD)
  {
    hide Fits, LabelTy, PopTy, PopBt;
    LabelIs(ctx, d);
    var bt := ctx.labels[|ctx.labels| - 1 - d];
    var p := LastOf(a, Result(bt) + [I32]);
    Regroup(p, Result(bt), [I32]);
    Regroup(pre, p + Result(bt), [I32]);
    PopFits(st, pre + (p + Result(bt)), I32);
    SameEnd(p, Result(bt));
    JumpComplete(PopTy(st, I32).value, pre, p + Result(bt), bt);
    forall k | 0 <= k < |ns|
      ensures LabelTy(ctx, ns[k]) == Some(bt)
    {
      LabelIs(ctx, ns[k]);
    }
  }

  lemma LeaveComplete(ctx: Ctx, i: Simple, st: Opds, pre: Types, a: Types, to: Types)
    requires Fits(st, pre + a) && SimpleType(ctx, i, a, to) && (i.IReturn? || i.IBr? || i.IBrTable?)
    ensures CheckSimple(ctx, i, st) == Some(DEAD)
  {
    hide Fits, LabelTy, EndsWith, PopBt;
    match i
    case IReturn => JumpComplete(st, pre, a, ctx.labels[0]);
    case IBr(n) =>
      LabelIs(ctx, n);
      JumpComplete(st, pre, a, ctx.labels[|ctx.labels| - 1 - n]);
    case IBrTable(ns, d) => TableComplete(ctx, ns, d, st, pre, a, to);
  }

  lemma BrIfComplete(ctx: Ctx, n: nat, st: Opds, pre: Types, b: Types)
    requires n < |ctx.labels| && b == Result(ctx.labels[|ctx.labels| - 1 - n]) && Fits(st, pre + (b + [I32]))
    ensures CheckSimple(ctx, IBrIf(n), st).Some? && Fits(CheckSimple(ctx, IBrIf(n), st).value, pre + b)
  {
    LabelIs(ctx, n);
    var bt := ctx.labels[|ctx.labels| - 1 - n];
    Regroup(pre, b, [I32]);
    PopFits(st, pre + b, I32);
    var s1 := PopTy(st, I32).value;
    BtFits(s1, pre, bt);
    PushBtFits(PopBt(s1, bt).value, pre, bt);
  }

  lemma LocalComplete(ctx: Ctx, i: Simple, st: Opds, pre: Types, a: Types, b: Types)
    requires Fits(st, pre + a) && SimpleType(ctx, i, a, b)
    requires i.INop? || i.IDrop? || i.IConst? || i.IGetLocal? || i.ISetLocal? || i.ITeeLocal?
    ensures CheckSimple(ctx, i, st).Some? && Fits(CheckSimple(ctx, i, st).value, pre + b)
  {
    assert pre + [] == pre;
    match i
    case INop =>
    case IDrop => assert a == [a[0]]; PopFits(st, pre, a[0]);
    case IConst(v) => PushFits(st, pre, v.ty);
    case IGetLocal(x) => PushFits(st, pre, ctx.locals[x]);
    case ISetLocal(x) => PopFits(st, pre, ctx.locals[x]);
    case ITeeLocal(x) =>
      PopFits(st, pre, ctx.locals[x]);
      PushFits(PopTy(st, ctx.locals[x]).value, pre, ctx.locals[x]);
  }

  /** What the rules allow for an instruction the algorithm accepts. */
  lemma StepComplete(ctx: Ctx, i: Simple, st: Opds, from: Types, to: Types)
    requires Fits(st, from) && Step(ctx, i, from, to)
    ensures CheckSimple(ctx, i, st).Some? && Fits(CheckSimple(ctx, i, st).value, to)
  {
    hide CheckSimple, Fits;
    var k :| 0 <= k <= |from| && k <= |to| && from[..k] == to[..k] && SimpleType(ctx, i, from[k..], to[k..]);
    var pre, a, b := from[..k], from[k..], to[k..];
    assert from == pre + a && to == pre + b;
    StepFits(ctx, i, st, pre, a, b);
  }

  lemma StepFits(ctx: Ctx, i: Simple, st: Opds, pre: Types, a: Types, b: Types)
    requires Fits(st, pre + a) && SimpleType(ctx, i, a, b)
    ensures CheckSimple(ctx, i, st).Some? && Fits(CheckSimple(ctx, i, st).value, pre + b)
  {
    hide CheckSimple, CheckNum, Fits, EndsWith;
    if i.IUnreachable? || i.IReturn? || i.IBr? || i.IBrTable? {
      DeadFits(ctx, st, pre + b);
      if !i.IUnreachable? { LeaveComplete(ctx, i, st, pre, a, b); }
    } else if i.ISelect? {
      assert a == [a[0], a[0], I32];
      SelectComplete(ctx, st, pre, a[0]);
    } else if i.INum? {
      NumComplete(i.op, st, pre, a, b);
      NumIs(ctx, i.op, st);
    } else if i.IBrIf? {
      BrIfComplete(ctx, i.n, st, pre, b);
    } else {
      LocalComplete(ctx, i, st, pre, a, b);
    }
  }

  lemma DeadFits(ctx: Ctx, st: Opds, ts: Types)
    ensures Fits(DEAD, ts) && CheckSimple(ctx, IUnreachable, st) == Some(DEAD)
  {
  }

  lemma NumIs(ctx: Ctx, op: NumOp, st: Opds)
    ensures CheckSimple(ctx, INum(op), st) == CheckNum(op, st)
  {
  }

  lemma {:induction false} Complete(ctx: Ctx, c: Code, st: Opds, from: Types, to: Types)
    requires Fits(st, from) && BodyType(ctx, c, from, to)
    ensures Check(ctx, c, st).Some? && Fits(Check(ctx, c, st).value, to)
    decreases c, 0
  {
    hide CheckSimple, Fits, Step, Ends;
    EmptyFits();
    match c
    case Done =>
    case Plain(i, next) =>
      var mid :| Step(ctx, i, from, mid) && BodyType(ctx, next, mid, to);
      StepComplete(ctx, i, st, from, mid);
      Complete(ctx, next, CheckSimple(ctx, i, st).value, mid, to);
    case Block(bt, body, next) =>
      FrameComplete(Inner(ctx, bt), body, bt);
      PushBtFits(st, from, bt);
      Complete(ctx, next, PushBt(st, bt), from + Result(bt), to);
    case Loop(bt, body, next) =>
      FrameComplete(Inner(ctx, None), body, bt);
      PushBtFits(st, from, bt);
      Complete(ctx, next, PushBt(st, bt), from + Result(bt), to);
    case IfElse(bt, thn, els, next) =>
      var below := LastOf(from, [I32]);
      assert below == from[..|from| - 1];
      PopFits(st, below, I32);
      FrameComplete(Inner(ctx, bt), thn, bt);
      FrameComplete(Inner(ctx, bt), els, bt);
      PushBtFits(PopTy(st, I32).value, below, bt);
      Complete(ctx, next, PushBt(PopTy(st, I32).value, bt), below + Result(bt), to);
    case IfOnly(bt, thn, next) =>
      var below := LastOf(from, [I32]);
      assert below == from[..|from| - 1];
      PopFits(st, below, I32);
      FrameComplete(Inner(ctx, bt), thn, bt);
      Complete(ctx, next, PopTy(st, I32).value, below, to);
  }

  lemma {:induction false} FrameComplete(ctx: Ctx, body: Code, bt: BlockType)
    requires BodyType(ctx, body, [], Result(bt))
    ensures Check(ctx, body, EMPTY).Some? && Ends(Check(ctx, body, EMPTY).value, bt)
    decreases body, 1
  {
    hide Fits, Ends, BodyType, Check;
    EmptyFits();
    Complete(ctx, body, EMPTY, [], Result(bt));
    EndsFits(Check(ctx, body, EMPTY).value, bt);
  }

  lemma EmptyFits()
    ensures Fits(EMPTY, []) && forall ts :: Fits(EMPTY, ts) ==> ts == []
  {
  }

  // ----- soundness -----

  lemma SimpleNoI1(ctx: Ctx, i: Simple, st: Opds)
    requires NoI1(st) && CheckSimple(ctx, i, st).Some?
    ensures NoI1(CheckSimple(ctx, i, st).value)
  {
    hide NoI1, LabelTy, AllLabels;
    PopsNoI1(st, I32);
    DeadNoI1();
    match i
    case ISelect =>
      var s1 := PopTy(st, I32).value;
      PopsNoI1(s1, I32);
      PopsNoI1(PopAny(s1).value.1, I32);
      var r2 := PopAny(s1).value;
      var r3 := PopAny(r2.1).value;
      PushesNoI1(r3.1, r2.0);
      PushesNoI1(r3.1, r3.0);
    case IConst(v) => PushesNoI1(st, Known(v.ty));
    case IGetLocal(x) => PushesNoI1(st, Known(ctx.locals[x]));
    case ISetLocal(x) => PopsNoI1(st, ctx.locals[x]);
    case ITeeLocal(x) =>
      PopsNoI1(st, ctx.locals[x]);
      PushesNoI1(PopTy(st, ctx.locals[x]).value, Known(ctx.locals[x]));
    case INum(op) => NumNoI1(op, st);
    case IBrIf(n) =>
      var s1, bt := PopTy(st, I32).value, LabelTy(ctx, n).value;
      if bt.Some? { PopsNoI1(s1, bt.value); }
      PushNoI1(PopBt(s1, bt).value, bt);
    case _ =>
  }

  lemma NumNoI1(op: NumOp, st: Opds)
    requires NoI1(st) && CheckNum(op, st).Some?
    ensures NoI1(CheckNum(op, st).value)
  {
  }

  lemma PopsNoI1(st: Opds, t: Ty)
    requires NoI1(st)
    ensures PopAny(st).Some? ==> NoI1(PopAny(st).value.1) && PopAny(st).value.0 != Known(I1)
    ensures PopTy(st, t).Some? ==> NoI1(PopTy(st, t).value)
  {
  }

  lemma PushesNoI1(st: Opds, o: OTy)
    requires NoI1(st) && o != Known(I1)
    ensures NoI1(st.(vals := st.vals + [o]))
  {
  }

  lemma DeadNoI1()
    ensures NoI1(DEAD)
  {
  }

  lemma NumSound(op: NumOp, st: Opds, to: Types) returns (pre: Types, a: Types, b: Types)
    requires CheckNum(op, st).Some? && Fits(CheckNum(op, st).value, to)
    ensures Fits(st, pre + a) && to == pre + b && NumType(op, a, b)
  {
    var t: WTy := match op case Arith(t, _) => t case Rel(t, _) => t case Eqz(t) => t;
    var r: WTy := if op.Arith? then t else I32;
    var s1 := PopTy(st, t).value;
    b := [r];
    if op.Eqz? {
      PushBack(s1, to, r);
      pre, a := to[..|to| - 1], [t];
      PopBack(st, pre, t);
    } else {
      var s2 := PopTy(s1, t).value;
      PushBack(s2, to, r);
      pre, a := to[..|to| - 1], [t, t];
      PopBack(s1, pre, t);
      PopBack(st, pre + [t], t);
      Regroup(pre, [t], [t]);
      assert [t] + [t] == a;
    }
  }

  lemma SelectSound(ctx: Ctx, st: Opds, to: Types) returns (pre: Types, t: WTy)
    requires CheckSimple(ctx, ISelect, st).Some? && Fits(CheckSimple(ctx, ISelect, st).value, to)
    ensures Fits(st, pre + [t, t, I32]) && to == pre + [t]
  {
    hide Fits;
    var s1 := PopTy(st, I32).value;
    var r2 := PopAny(s1).value;
    var r3 := PopAny(r2.1).value;
    var o := if r2.0 == r3.0 || r3.0 == Unknown then r2.0 else r3.0;
    pre, t := PushOneBack(r3.1, to, o);
    assert PopTy(r2.1, t) == Some(r3.1) && PopTy(s1, t) == Some(r2.1);
    PopBack(r2.1, pre, t);
    PopBack(s1, pre + [t], t);
    PopBack(st, pre + [t] + [t], I32);
    assert pre + [t] + [t] + [I32] == pre + [t, t, I32];
  }

  lemma PushOneBack(st: Opds, ts: Types, o: OTy) returns (pre: Types, t: WTy)
    requires Fits(st.(vals := st.vals + [o]), ts)
    ensures Fits(st, pre) && ts == pre + [t] && (o == Unknown || o == Known(t))
  {
    var v := st.vals + [o];
    assert v[|v| - 1] == o;
    pre, t := ts[..|ts| - 1], ts[|ts| - 1];
    forall k | 0 <= k < |st.vals|
      ensures st.vals[k] == Unknown || st.vals[k] == Known(pre[|pre| - |st.vals| + k])
    {
      assert v[k] == st.vals[k];
    }
  }

  lemma SameEnd(a: Types, b: Types)
    ensures EndsWith(a + b, b)
  {
  }

  /** An instruction after which nothing is known: below what it uses there is some operand stack. */
  lemma LeaveSound(ctx: Ctx, i: Simple, st: Opds, to: Types) returns (from: Types)
    requires NoI1(st) && CheckSimple(ctx, i, st).Some? && (i.IUnreachable? || i.IReturn? || i.IBr? || i.IBrTable?)
    ensures Fits(st, from) && SimpleType(ctx, i, from, to)
  {
    hide Fits, NoI1, PopBt, LabelTy, EndsWith;
    match i
    case IUnreachable => from := Witness(st);
    case IReturn => from := JumpSound(st, ctx.labels[0]);
    case IBr(n) =>
      LabelIs(ctx, n);
      from := JumpSound(st, LabelTy(ctx, n).value);
    case IBrTable(ns, d) => from := TableSound(ctx, ns, d, st, to);
  }

  lemma JumpSound(st: Opds, bt: BlockType) returns (from: Types)
    requires NoI1(st) && PopBt(st, bt).Some?
    ensures Fits(st, from) && EndsWith(from, Result(bt))
  {
    hide Fits, NoI1;
    if bt.Some? { PopsNoI1(st, bt.value); }
    var w := Witness(PopBt(st, bt).value);
    BtBack(st, w, bt);
    SameEnd(w, Result(bt));
    from := w + Result(bt);
  }

  lemma TableSound(ctx: Ctx, ns: seq<nat>, d: nat, st: Opds, to: Types) returns (from: Types)
    requires NoI1(st) && CheckSimple(ctx, IBrTable(ns, d), st).Some?
    ensures Fits(st, from) && SimpleType(ctx, IBrTable(ns, d), from, to)
  {
    hide Fits, NoI1, PopBt, PopTy, LabelTy, EndsWith;
    LabelIs(ctx, d);
    var bt := LabelTy(ctx, d).value;
    forall k | 0 <= k < |ns|
      ensures ns[k] < |ctx.labels| && ctx.labels[|ctx.labels| - 1 - ns[k]] == bt
    {
      assert LabelTy(ctx, ns[k]) == Some(bt);
      LabelIs(ctx, ns[k]);
    }
    PopsNoI1(st, I32);
    var w := JumpSound(PopTy(st, I32).value, bt);
    PopBack(st, w, I32);
    from := w + [I32];
    EndMore(w, Result(bt));
  }

  lemma EndMore(w: Types, b: Types)
    requires EndsWith(w, b)
    ensures EndsWith(w + [I32], b + [I32])
  {
    var p := LastOf(w, b);
    Regroup(p, b, [I32]);
    SameEnd(p, b + [I32]);
  }

  lemma BrIfSound(ctx: Ctx, n: nat, st: Opds, to: Types) returns (pre: Types, b: Types)
    requires CheckSimple(ctx, IBrIf(n), st).Some? && Fits(CheckSimple(ctx, IBrIf(n), st).value, to)
    ensures n < |ctx.labels| && b == Result(ctx.labels[|ctx.labels| - 1 - n])
    ensures Fits(st, pre + (b + [I32])) && to == pre + b
  {
    LabelIs(ctx, n);
    var bt := LabelTy(ctx, n).value;
    var s1 := PopTy(st, I32).value;
    pre := PushBtBack(PopBt(s1, bt).value, to, bt);
    b := Result(bt);
    BtBack(s1, pre, bt);
    PopBack(st, pre + b, I32);
    Regroup(pre, b, [I32]);
  }

  lemma LocalSound(ctx: Ctx, i: Simple, st: Opds, to: Types) returns (pre: Types, a: Types, b: Types)
    requires NoI1(st) && CheckSimple(ctx, i, st).Some? && Fits(CheckSimple(ctx, i, st).value, to)
    requires i.INop? || i.IDrop? || i.IConst? || i.IGetLocal? || i.ISetLocal? || i.ITeeLocal?
    ensures Fits(st, pre + a) && to == pre + b && SimpleType(ctx, i, a, b)
  {
    pre, a, b := to, [], [];
    assert to + [] == to;
    match i
    case INop =>
    case IDrop =>
      PopAnyBack(st, to);
      var o := PopAny(st).value.0;
      a := [if o.Known? then o.t else I32];
    case IConst(v) =>
      PushBack(st, to, v.ty);
      pre, b := to[..|to| - 1], [v.ty];
      assert pre + [] == pre;
    case IGetLocal(x) =>
      PushBack(st, to, ctx.locals[x]);
      pre, b := to[..|to| - 1], [ctx.locals[x]];
      assert pre + [] == pre;
    case ISetLocal(x) =>
      PopBack(st, to, ctx.locals[x]);
      a := [ctx.locals[x]];
    case ITeeLocal(x) =>
      PushBack(PopTy(st, ctx.locals[x]).value, to, ctx.locals[x]);
      pre, a, b := to[..|to| - 1], [ctx.locals[x]], [ctx.locals[x]];
      PopBack(st, pre, ctx.locals[x]);
  }

  lemma StepSound(ctx: Ctx, i: Simple, st: Opds, to: Types) returns (from: Types)
    requires NoI1(st) && CheckSimple(ctx, i, st).Some? && Fits(CheckSimple(ctx, i, st).value, to)
    ensures Fits(st, from) && Step(ctx, i, from, to)
  {
    hide CheckSimple, CheckNum, Fits, Step, NoI1;
    if i.IUnreachable? || i.IReturn? || i.IBr? || i.IBrTable? {
      from := LeaveSound(ctx, i, st, to);
      Split(ctx, i, [], from, to);
      assert [] + from == from && [] + to == to;
    } else if i.ISelect? {
      var pre, t := SelectSound(ctx, st, to);
      from := pre + [t, t, I32];
      Split(ctx, i, pre, [t, t, I32], [t]);
    } else if i.INum? {
      NumIs(ctx, i.op, st);
      var pre, a, b := NumSound(i.op, st, to);
      from := pre + a;
      Split(ctx, i, pre, a, b);
    } else if i.IBrIf? {
      var pre, b := BrIfSound(ctx, i.n, st, to);
      from := pre + (b + [I32]);
      Split(ctx, i, pre, b + [I32], b);
    } else {
      var pre, a, b := LocalSound(ctx, i, st, to);
      from := pre + a;
      Split(ctx, i, pre, a, b);
    }
  }

  lemma {:induction false} Sound(ctx: Ctx, c: Code, st: Opds, to: Types) returns (from: Types)
    requires NoI1(st) && Check(ctx, c, st).Some? && Fits(Check(ctx, c, st).value, to)
    ensures Fits(st, from) && BodyType(ctx, c, from, to)
    decreases c, 1
  {
    hide CheckSimple, Fits, Step, Ends, PushTy;
    match c
    case Done => from := to;
    case Plain(i, next) =>
      SimpleNoI1(ctx, i, st);
      var mid := Sound(ctx, next, CheckSimple(ctx, i, st).value, to);
      from := StepSound(ctx, i, st, mid);
    case Block(bt, body, next) =>
      FrameSound(Inner(ctx, bt), body, bt);
      from := NextSound(ctx, c, next, st, bt, to);
    case Loop(bt, body, next) =>
      FrameSound(Inner(ctx, None), body, bt);
      from := NextSound(ctx, c, next, st, bt, to);
    case IfElse(bt, thn, els, next) =>
      FrameSound(Inner(ctx, bt), thn, bt);
      FrameSound(Inner(ctx, bt), els, bt);
      PopsNoI1(st, I32);
      var below := NextSound(ctx, c, next, PopTy(st, I32).value, bt, to);
      from := below + [I32];
      PopBack(st, below, I32);
      SameEnd(below, [I32]);
      assert from[..|from| - 1] == below;
    case IfOnly(bt, thn, next) =>
      FrameSound(Inner(ctx, bt), thn, bt);
      PopsNoI1(st, I32);
      var below := Sound(ctx, next, PopTy(st, I32).value, to);
      from := below + [I32];
      PopBack(st, below, I32);
      SameEnd(below, [I32]);
      assert from[..|from| - 1] == below;
  }

  lemma PushNoI1(st: Opds, bt: BlockType)
    requires NoI1(st)
    ensures NoI1(PushBt(st, bt))
  {
  }

  lemma {:induction false} NextSound(ctx: Ctx, c: Code, next: Code, st: Opds, bt: BlockType, to: Types) returns (from: Types)
    requires next < c && NoI1(st) && Check(ctx, next, PushBt(st, bt)).Some? && Fits(Check(ctx, next, PushBt(st, bt)).value, to)
    ensures Fits(st, from) && BodyType(ctx, next, from + Result(bt), to)
    decreases c, 0
  {
    hide Fits, Check, BodyType, PushBt, NoI1;
    PushNoI1(st, bt);
    var mid := Sound(ctx, next, PushBt(st, bt), to);
    from := PushBtBack(st, mid, bt);
  }

  lemma {:induction false} FrameSound(ctx: Ctx, body: Code, bt: BlockType)
    requires Check(ctx, body, EMPTY).Some? && Ends(Check(ctx, body, EMPTY).value, bt)
    ensures BodyType(ctx, body, [], Result(bt))
    decreases body, 2
  {
    hide Fits, Ends, BodyType, Check;
    EndsFits(Check(ctx, body, EMPTY).value, bt);
    var from := Sound(ctx, body, EMPTY, Result(bt));
    EmptyFits();
  }

  // ----- the theorem -----

  /** The algorithm accepts exactly the functions that the rules type. */
  lemma ValidExact(f: Func)
    ensures Valid(f) <==> WellTyped(f)
  {
    hide Check, BodyType, Ends;
    var ctx := Ctx(f.params + f.extra, [f.ret]);
    if Valid(f) {
      FrameSound(ctx, f.body, f.ret);
    }
    if WellTyped(f) {
      FrameComplete(ctx, f.body, f.ret);
    }
  }
}
