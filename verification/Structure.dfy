/** The flat token loop seen along the nesting of a structured body: what a whole body leaves alone,
    and how dead code is skipped. */
module Structure {
  import opened Values
  import opened Cfg
  import opened Wasm
  import opened TranslatorSpec
  import opened Invariant
  import opened Steps

  /** One token in a state that satisfies the invariant. */
  ghost function Tick(locals: seq<WTy>, s: TState, t: Tok): (r: Option<TState>)
    requires Inv(s)
    ensures r.Some? ==> Inv(r.value) && Kept(s, r.value)
  {
    CoreInRange(s);
    if Step(locals, s, t).Some? then StepKept(locals, s, t); Step(locals, s, t) else None
  }

  /** The token loop. */
  ghost function TokenLoop(locals: seq<WTy>, s: TState, ts: seq<Tok>): (r: Option<TState>)
    requires Inv(s)
    ensures r.Some? ==> Inv(r.value)
    decreases |ts|
  {
    if ts == [] then Some(s)
    else
      var s1 :- Tick(locals, s, ts[0]);
      TokenLoop(locals, s1, ts[1..])
  }

  /** The same loop following the structure of a body. */
  ghost function Trans(locals: seq<WTy>, s: TState, c: Code): (r: Option<TState>)
    requires Inv(s)
    ensures r.Some? ==> Inv(r.value)
    decreases c, 0
  {
    match c
    case Done => Some(s)
    case Plain(i, next) =>
      var s1 :- Tick(locals, s, TPlain(i));
      Trans(locals, s1, next)
    case Block(bt, body, next) =>
      var s1 :- Tick(locals, s, TBlock(bt));
      var s2 :- Nest(locals, s1, body);
      Trans(locals, s2, next)
    case Loop(bt, body, next) =>
      var s1 :- Tick(locals, s, TLoop(bt));
      var s2 :- Nest(locals, s1, body);
      Trans(locals, s2, next)
    case IfOnly(bt, thn, next) =>
      var s1 :- Tick(locals, s, TIf(bt));
      var s2 :- Nest(locals, s1, thn);
      Trans(locals, s2, next)
    case IfElse(bt, thn, els, next) =>
      var s1 :- Tick(locals, s, TIf(bt));
      var s2 :- Trans(locals, s1, thn);
      var s3 :- Tick(locals, s2, TElse);
      var s4 :- Nest(locals, s3, els);
      Trans(locals, s4, next)
  }

  /** A nested body and its end. */
  ghost function Nest(locals: seq<WTy>, s: TState, body: Code): (r: Option<TState>)
    requires Inv(s)
    ensures r.Some? ==> Inv(r.value)
    decreases body, 1
  {
    var s1 :- Trans(locals, s, body);
    Tick(locals, s1, TEnd)
  }

  /** The loop over a body's tokens is the structured traversal. */
  lemma {:induction false} LoopFlatten(locals: seq<WTy>, s: TState, c: Code, rest: seq<Tok>)
    requires Inv(s)
    ensures Trans(locals, s, c).None? ==> TokenLoop(locals, s, Flatten(c) + rest).None?
    ensures Trans(locals, s, c).Some? ==>
              TokenLoop(locals, s, Flatten(c) + rest) == TokenLoop(locals, Trans(locals, s, c).value, rest)
    decreases c, 0
  {
    hide Inv, Kept, Step;
    match c
    case Done =>
      assert Flatten(c) + rest == rest;
    case Plain(i, next) =>
      assert Flatten(c) + rest == [TPlain(i)] + (Flatten(next) + rest);
      LoopCons(locals, s, TPlain(i), Flatten(next) + rest);
      var r := Tick(locals, s, TPlain(i));
      if r.Some? { LoopFlatten(locals, r.value, next, rest); }
    case Block(bt, body, next) => LoopOpen(locals, s, c, TBlock(bt), body, next, rest);
    case Loop(bt, body, next) => LoopOpen(locals, s, c, TLoop(bt), body, next, rest);
    case IfOnly(bt, thn, next) => LoopOpen(locals, s, c, TIf(bt), thn, next, rest);
    case IfElse(bt, thn, els, next) =>
      var tail := Flatten(els) + ([TEnd] + (Flatten(next) + rest));
      RegroupElse(c, rest);
      LoopCons(locals, s, TIf(bt), Flatten(thn) + ([TElse] + tail));
      var r := Tick(locals, s, TIf(bt));
      if r.Some? {
        LoopFlatten(locals, r.value, thn, [TElse] + tail);
        var r2 := Trans(locals, r.value, thn);
        if r2.Some? {
          LoopCons(locals, r2.value, TElse, tail);
          var r3 := Tick(locals, r2.value, TElse);
          if r3.Some? {
            LoopNest(locals, r3.value, els, Flatten(next) + rest);
            var r4 := Nest(locals, r3.value, els);
            if r4.Some? { LoopFlatten(locals, r4.value, next, rest); }
          }
        }
      }
  }

  lemma {:induction false} LoopNest(locals: seq<WTy>, s: TState, body: Code, rest: seq<Tok>)
    requires Inv(s)
    ensures TokenLoop(locals, s, Flatten(body) + ([TEnd] + rest)) ==
            (if Nest(locals, s, body).Some? then TokenLoop(locals, Nest(locals, s, body).value, rest) else None)
    decreases body, 1
  {
    hide Inv, Kept, Step;
    LoopFlatten(locals, s, body, [TEnd] + rest);
    if Trans(locals, s, body).Some? {
      LoopCons(locals, Trans(locals, s, body).value, TEnd, rest);
    }
  }

  lemma {:induction false} LoopOpen(locals: seq<WTy>, s: TState, c: Code, t: Tok, body: Code, next: Code, rest: seq<Tok>)
    requires Inv(s) && body < c && next < c
    requires Flatten(c) == [t] + Flatten(body) + [TEnd] + Flatten(next)
    ensures
      var whole := TokenLoop(locals, s, Flatten(c) + rest);
      var r := Tick(locals, s, t);
      if r.None? then whole.None?
      else
        var r2 := Nest(locals, r.value, body);
        if r2.None? then whole.None?
        else
          var r3 := Trans(locals, r2.value, next);
          if r3.None? then whole.None? else whole == TokenLoop(locals, r3.value, rest)
    decreases c, -1
  {
    hide Inv, Kept, Step, Flatten;
    assert Flatten(c) + rest == [t] + (Flatten(body) + ([TEnd] + (Flatten(next) + rest)));
    LoopCons(locals, s, t, Flatten(body) + ([TEnd] + (Flatten(next) + rest)));
    var r := Tick(locals, s, t);
    if r.Some? {
      LoopNest(locals, r.value, body, Flatten(next) + rest);
      var r2 := Nest(locals, r.value, body);
      if r2.Some? {
        LoopFlatten(locals, r2.value, next, rest);
      }
    }
  }

  lemma LoopCons(locals: seq<WTy>, s: TState, t: Tok, rest: seq<Tok>)
    requires Inv(s)
    ensures TokenLoop(locals, s, [t] + rest) ==
            (if Tick(locals, s, t).Some? then TokenLoop(locals, Tick(locals, s, t).value, rest) else None)
  {
    assert ([t] + rest)[1..] == rest;
  }

  lemma RegroupElse(c: Code, rest: seq<Tok>)
    requires c.IfElse?
    ensures Flatten(c) + rest ==
            [TIf(c.bt)] + (Flatten(c.thn) + ([TElse] + (Flatten(c.els) + ([TEnd] + (Flatten(c.next) + rest)))))
  {
  }

  // ----- dead code -----

  /** However deeply a body nests, a dead frame takes all its tokens, emits nothing, changes nothing
      and is left waiting for its own else or end. */
  lemma {:induction false} DeadBodySkipped(locals: seq<WTy>, s: TState, c: Code)
    requires Inv(s) && !Live(s)
    ensures Trans(locals, s, c) == Some(s)
    decreases c, 0
  {
    hide Inv, Kept, StepLive, StepElse, StepEnd;
    match c
    case Done =>
    case Plain(i, next) =>
      DeadToken(locals, s, TPlain(i));
      DeadBodySkipped(locals, s, next);
    case Block(bt, body, next) => DeadNest(locals, s, TBlock(bt), body); DeadBodySkipped(locals, s, next);
    case Loop(bt, body, next) => DeadNest(locals, s, TLoop(bt), body); DeadBodySkipped(locals, s, next);
    case IfOnly(bt, thn, next) => DeadNest(locals, s, TIf(bt), thn); DeadBodySkipped(locals, s, next);
    case IfElse(bt, thn, els, next) =>
      var s1 := s.(depth := s.depth + 1);
      DeadToken(locals, s, TIf(bt));
      DeadBodySkipped(locals, s1, thn);
      DeadToken(locals, s1, TElse);
      DeadBodySkipped(locals, s1, els);
      DeadToken(locals, s1, TEnd);
      DeadBodySkipped(locals, s, next);
  }

  lemma DeadToken(locals: seq<WTy>, s: TState, t: Tok)
    requires Inv(s) && !Live(s) && (t == TElse || t == TEnd ==> s.depth > 0)
    ensures
      var d := match t case TPlain(_) => s.depth case TElse => s.depth case TEnd => s.depth - 1 case _ => s.depth + 1;
      Tick(locals, s, t) == Some(s.(depth := d)) && Inv(s.(depth := d)) && !Live(s.(depth := d))
  {
    hide Core, CurOpen, StepLive, StepElse, StepEnd, Grows;
    CoreInRange(s);
    DepthCore(s, s.depth + 1);
    if s.depth > 0 {
      DepthCore(s, s.depth - 1);
    }
  }

  lemma {:induction false} DeadNest(locals: seq<WTy>, s: TState, t: Tok, body: Code)
    requires Inv(s) && !Live(s) && (t.TBlock? || t.TLoop? || t.TIf?)
    ensures var s1 := s.(depth := s.depth + 1);
            && Tick(locals, s, t) == Some(s1) && Inv(s1)
            && Trans(locals, s1, body) == Some(s1)
            && Tick(locals, s1, TEnd) == Some(s)
    decreases body, 1
  {
    hide Inv, Kept, Step;
    var s1 := s.(depth := s.depth + 1);
    DeadToken(locals, s, t);
    DeadBodySkipped(locals, s1, body);
    DeadToken(locals, s1, TEnd);
    assert s1.(depth := s.depth) == s;
  }

  // ----- what a body leaves alone -----

  /** Outside the top frame nothing changes; the top entry can only become unreachable. */
  ghost predicate SameFrame(s: TState, s': TState) {
    && |s.cf| > 0 && |s'.cf| == |s.cf|
    && s'.labels == s.labels
    && s'.cf == s.cf[|s.cf| - 1 := Top(s).(reachable := Top(s').reachable)]
    && Top(s).outerStack <= |s.stack| && Top(s).outerStack <= |s'.stack|
    && s'.stack[..Top(s).outerStack] == s.stack[..Top(s).outerStack]
  }

  lemma SameFrameTrans(s: TState, s': TState, s'': TState)
    requires SameFrame(s, s') && SameFrame(s', s'')
    ensures SameFrame(s, s'')
  {
  }

  /** What a live token inside a frame does to the stacks. */
  ghost predicate InFrame(s: TState, r: Option<TState>) {
    r.Some? ==> SameFrame(s, r.value) && r.value.depth == 0
  }

  ghost predicate Floor(s: TState) {
    |s.cf| > 0 && Top(s).outerStack <= |s.stack| && s.depth == 0
  }

  lemma NumFrame(s: TState, op: NumOp)
    requires s.cur < |s.blocks| && Floor(s)
    ensures InFrame(s, StepNum(s, op))
  {
    hide EmitBinary, PushBool;
  }

  lemma SkipFrame(s: TState, s': TState)
    requires Floor(s) && s'.cf == s.cf && s'.labels == s.labels
    requires s'.stack <= s.stack && Top(s).outerStack <= |s'.stack|
    ensures InFrame(s, SkipUnreachable(s'))
  {
  }

  lemma JumpFrame(s: TState, l: BlockEntry)
    requires s.cur < |s.blocks| && l.block < |s.blocks| && Floor(s) && JumpTo(s, l).Some?
    ensures |JumpTo(s, l).value.cf| > 0 && InFrame(s, SkipUnreachable(JumpTo(s, l).value))
  {
    hide Leave, SkipUnreachable;
    SkipFrame(s, JumpTo(s, l).value);
  }

  lemma BranchFrame(s: TState, ns: seq<nat>, d: nat)
    requires InRange(s) && Floor(s)
    ensures InFrame(s, StepBrIf(s, d)) && InFrame(s, StepBrTable(s, ns, d))
  {
    hide Leave, Targets, SameSig, BranchDepth, BrIfTest;
  }

  lemma SelectFrame(s: TState)
    requires s.cur < |s.blocks| && Floor(s)
    ensures InFrame(s, StepSelect(s))
  {
  }

  lemma PlainFrame(locals: seq<WTy>, s: TState, i: Simple)
    requires InRange(s) && Floor(s)
    ensures InFrame(s, StepPlain(locals, s, i))
  {
    hide StepNum, StepBrIf, StepBrTable, StepSelect, JumpTo, BranchDepth, InRange, TrapIf, SkipUnreachable;
    BranchRange(s, 0);
    match i
    case ISelect => SelectFrame(s);
    case INum(op) => NumFrame(s, op);
    case IBrIf(n) => BranchFrame(s, [], n);
    case IBrTable(ns, d) => BranchFrame(s, ns, d);
    case IBr(n) =>
      BranchRange(s, n);
      if BranchDepth(s, n).Some? && JumpTo(s, BranchDepth(s, n).value).Some? {
        JumpFrame(s, BranchDepth(s, n).value);
      }
    case IReturn =>
      if JumpTo(s, BlockEntry(s.cf[0].sig, s.cf[0].end)).Some? {
        JumpFrame(s, BlockEntry(s.cf[0].sig, s.cf[0].end));
      }
    case IUnreachable => SkipFrame(s, Emit(TrapIf(s, Const(FromBool(true))), Unreachable));
    case _ =>
  }

  lemma BranchRange(s: TState, n: nat)
    requires InRange(s)
    ensures s.cur < |s.blocks| && (BranchDepth(s, n).Some? ==> BranchDepth(s, n).value.block < |s.blocks|)
    ensures |s.cf| > 0 ==> s.cf[0].end < |s.blocks|
  {
  }

  /** A token that opens a frame over the rest of the operands. */
  ghost predicate Opens(s: TState, bt: BlockType, s': TState) {
    && |s.cf| > 0 && Top(s).outerStack <= |s'.stack|
    && |s'.cf| == |s.cf| + 1 && s'.cf[..|s.cf|] == s.cf
    && |s'.labels| == |s.labels| + 1 && s'.labels[..|s.labels|] == s.labels
    && Top(s').sig == bt && Top(s').outerStack == |s'.stack| && Top(s').reachable
    && s'.stack <= s.stack && s'.depth == 0
  }

  /** Its label, and the operands it leaves outside. */
  ghost predicate OpensAs(s: TState, t: Tok, s': TState) {
    && |s'.labels| == |s.labels| + 1 && |s'.cf| > 0
    && (t.TBlock? ==> s'.labels[|s.labels|].sig == t.bt && s'.stack == s.stack)
    && (t.TLoop? ==> s'.labels[|s.labels|].sig == None && s'.stack == s.stack)
    && (t.TIf? ==> s'.labels[|s.labels|].sig == t.bt && Top(s').kind == CfIf && Top(s').els.Some?
                   && CanPopTy(s, I32) && s'.stack == Drop(s).stack)
  }

  lemma OpenFrame(s: TState, bt: BlockType)
    requires s.cur < |s.blocks| && Floor(s)
    ensures Opens(s, bt, StepBlock(s, bt)) && OpensAs(s, TBlock(bt), StepBlock(s, bt))
    ensures Opens(s, bt, StepLoop(s, bt)) && OpensAs(s, TLoop(bt), StepLoop(s, bt))
    ensures StepIf(s, bt).Some? ==> Opens(s, bt, StepIf(s, bt).value) && OpensAs(s, TIf(bt), StepIf(s, bt).value)
    ensures StepIf(s, bt).Some? <==> CanPopTy(s, I32)
  {
    hide LoopHead, IfHead;
  }

  /** The result operand of a frame, if it has one. */
  predicate ResultOn(stack: seq<Opd>, stack': seq<Opd>, sig: BlockType) {
    if sig.None? then stack' == stack
    else |stack'| == |stack| + 1 && stack'[..|stack|] == stack && TypeOf(stack'[|stack|]) == sig.value
  }

  lemma EndFrame(s: TState)
    requires InRange(s) && Floor(s) && StepEnd(s).Some?
    ensures Top(s).outerBlocks <= |s.labels|
    ensures var s' := StepEnd(s).value;
            && s'.cf == s.cf[..|s.cf| - 1] && s'.labels == s.labels[..Top(s).outerBlocks]
            && ResultOn(s.stack[..Top(s).outerStack], s'.stack, Top(s).sig)
            && s'.depth == 0
  {
    hide Leave;
  }

  lemma ElseFrame(s: TState)
    requires InRange(s) && Floor(s) && StepElse(s).Some?
    ensures var s' := StepElse(s).value;
            && |s'.cf| == |s.cf| && s'.cf[..|s.cf| - 1] == s.cf[..|s.cf| - 1] && s'.labels == s.labels
            && Top(s').sig == Top(s).sig && Top(s').outerStack == Top(s).outerStack
            && Top(s') == Top(s).(kind := CfElse, els := None, reachable := Top(s).elseReachable)
            && s'.stack == s.stack[..Top(s).outerStack] && s'.depth == 0
  {
    hide Leave;
  }

  lemma NestFrame(s: TState, s1: TState, bt: BlockType, s2: TState)
    requires Inv(s) && Floor(s) && Opens(s, bt, s1)
    requires Inv(s2) && InRange(s2) && SameFrame(s1, s2) && s2.depth == 0 && StepEnd(s2).Some?
    ensures var s3 := StepEnd(s2).value;
            && SameFrame(s, s3) && s3.cf == s.cf && s3.depth == 0
            && ResultOn(s1.stack, s3.stack, bt)
  {
    hide StepEnd;
    assert FrameOk(Top(s2), |s2.cf| - 1, |s2.stack|);
    hide Inv;
    EndFrame(s2);
    assert s2.labels == s1.labels;
  }

  lemma InvFacts(s: TState)
    requires Inv(s)
    ensures InRange(s) && |s.labels| == |s.cf|
    ensures |s.cf| > 0 ==>
              Top(s).outerStack <= |s.stack| && Top(s).outerBlocks == |s.cf| - 1 && Top(s).elseReachable
    ensures |s.cf| > 0 && Live(s) ==> Ready(s) && Floor(s)
    ensures |s.cf| > 0 && !Live(s) ==> |s.stack| == Top(s).outerStack
  {
    CoreInRange(s);
    if |s.cf| > 0 {
      assert FrameOk(Top(s), |s.cf| - 1, |s.stack|);
    }
  }

  lemma TickIsStep(locals: seq<WTy>, s: TState, t: Tok)
    requires Inv(s)
    ensures InRange(s) && Tick(locals, s, t) == Step(locals, s, t)
    ensures Tick(locals, s, t).Some? ==> Inv(Tick(locals, s, t).value)
    ensures Tick(locals, s, t).Some? ==> Grows(s.blocks, Tick(locals, s, t).value.blocks)
  {
    CoreInRange(s);
  }

  /** What a body leaves alone: everything outside its frame, and the operands below its floor. */
  lemma {:induction false} BodyFrame(locals: seq<WTy>, s: TState, c: Code)
    requires Inv(s) && |s.cf| > 0 && Trans(locals, s, c).Some?
    ensures SameFrame(s, Trans(locals, s, c).value)
    ensures Live(s) ==> Trans(locals, s, c).value.depth == 0
    decreases c, 0
  {
    hide Inv, Ready, Step, StepElse, StepIf, StepBlock, StepLoop, Kept;
    InvFacts(s);
    if !Live(s) {
      DeadBodySkipped(locals, s, c);
    } else {
      match c
      case Done =>
      case Plain(i, next) =>
        PlainTick(locals, s, i);
        NextFrame(locals, s, Tick(locals, s, TPlain(i)).value, next);
      case Block(bt, body, next) =>
        OpenTick(locals, s, TBlock(bt), bt);
        NestedFrame(locals, s, Tick(locals, s, TBlock(bt)).value, bt, body);
        NextFrame(locals, s, Nest(locals, Tick(locals, s, TBlock(bt)).value, body).value, next);
      case Loop(bt, body, next) =>
        OpenTick(locals, s, TLoop(bt), bt);
        NestedFrame(locals, s, Tick(locals, s, TLoop(bt)).value, bt, body);
        NextFrame(locals, s, Nest(locals, Tick(locals, s, TLoop(bt)).value, body).value, next);
      case IfOnly(bt, thn, next) =>
        OpenTick(locals, s, TIf(bt), bt);
        NestedFrame(locals, s, Tick(locals, s, TIf(bt)).value, bt, thn);
        NextFrame(locals, s, Nest(locals, Tick(locals, s, TIf(bt)).value, thn).value, next);
      case IfElse(bt, thn, els, next) =>
        OpenTick(locals, s, TIf(bt), bt);
        var s1 := Tick(locals, s, TIf(bt)).value;
        BodyFrame(locals, s1, thn);
        ElseTick(locals, s, s1, bt, Trans(locals, s1, thn).value);
        var s3 := Tick(locals, Trans(locals, s1, thn).value, TElse).value;
        NestedFrame(locals, s, s3, bt, els);
        NextFrame(locals, s, Nest(locals, s3, els).value, next);
    }
  }

  lemma {:induction false} NextFrame(locals: seq<WTy>, s: TState, s1: TState, next: Code)
    requires Inv(s1) && SameFrame(s, s1) && s1.depth == 0 && Trans(locals, s1, next).Some?
    ensures SameFrame(s, Trans(locals, s1, next).value) && Trans(locals, s1, next).value.depth == 0
    decreases next, 1
  {
    hide Inv, Ready, Step, Kept;
    BodyFrame(locals, s1, next);
    if !Live(s1) {
      DeadBodySkipped(locals, s1, next);
    }
    SameFrameTrans(s, s1, Trans(locals, s1, next).value);
  }

  /** A frame opened in s, from its first token past its end. */
  lemma {:induction false} NestedFrame(locals: seq<WTy>, s: TState, s1: TState, bt: BlockType, body: Code)
    requires Inv(s) && |s.cf| > 0 && Live(s) && Inv(s1) && Opens(s, bt, s1) && Nest(locals, s1, body).Some?
    ensures var s3 := Nest(locals, s1, body).value;
            SameFrame(s, s3) && s3.cf == s.cf && s3.depth == 0 && ResultOn(s1.stack, s3.stack, bt)
    decreases body, 1
  {
    hide Inv, Ready, Step, StepEnd, Kept;
    BodyFrame(locals, s1, body);
    EndTick(locals, s, s1, bt, Trans(locals, s1, body).value);
  }

  lemma PlainTick(locals: seq<WTy>, s: TState, i: Simple)
    requires Inv(s) && |s.cf| > 0 && Live(s)
    ensures InRange(s) && Tick(locals, s, TPlain(i)) == StepPlain(locals, s, i)
    ensures InFrame(s, Tick(locals, s, TPlain(i)))
  {
    InvFacts(s);
    hide Inv, Ready, InRange, StepPlain;
    PlainFrame(locals, s, i);
  }

  lemma OpenTick(locals: seq<WTy>, s: TState, t: Tok, bt: BlockType)
    requires Inv(s) && |s.cf| > 0 && Live(s)
    requires t == TBlock(bt) || t == TLoop(bt) || t == TIf(bt)
    ensures s.cur < |s.blocks|
    ensures t.TBlock? ==> Tick(locals, s, t) == Some(StepBlock(s, bt))
    ensures t.TLoop? ==> Tick(locals, s, t) == Some(StepLoop(s, bt))
    ensures t.TIf? ==> Tick(locals, s, t) == StepIf(s, bt)
    ensures Tick(locals, s, t).None? <==> t.TIf? && !CanPopTy(s, I32)
    ensures Tick(locals, s, t).Some? ==>
              Opens(s, bt, Tick(locals, s, t).value) && OpensAs(s, t, Tick(locals, s, t).value)
  {
    InvFacts(s);
    OpenFrame(s, bt);
    hide Inv, Ready, StepIf, StepBlock, StepLoop;
  }

  /** What the translator keeps of its stacks, in every state it reaches: as many labels as frames; frame i was opened at
      label depth i; the floors do not decrease and are at most the height of the operands; only the top frame can be dead,
      and then its operands are gone; and while it is live no dead nesting is counted. */
  lemma StackDiscipline(locals: seq<WTy>, s: TState, ts: seq<Tok>)
    requires Inv(s) && TokenLoop(locals, s, ts).Some?
    ensures var r := TokenLoop(locals, s, ts).value; var n := |r.cf|;
            && |r.labels| == n
            && (forall i :: 0 <= i < n ==> r.cf[i].outerBlocks == i && r.cf[i].outerStack <= |r.stack|)
            && (forall i, j :: 0 <= i < j < n ==> r.cf[i].outerStack <= r.cf[j].outerStack)
            && (forall i :: 0 <= i < n - 1 ==> r.cf[i].reachable)
            && (n > 0 && !r.cf[n - 1].reachable ==> |r.stack| == r.cf[n - 1].outerStack)
            && (n > 0 && r.cf[n - 1].reachable ==> r.depth == 0)
  {
    InvMeans(TokenLoop(locals, s, ts).value);
    hide Inv;
  }

  lemma InvMeans(r: TState)
    requires Inv(r)
    ensures var n := |r.cf|;
            && |r.labels| == n
            && (forall i :: 0 <= i < n ==> r.cf[i].outerBlocks == i && r.cf[i].outerStack <= |r.stack|)
            && (forall i, j :: 0 <= i < j < n ==> r.cf[i].outerStack <= r.cf[j].outerStack)
            && (forall i :: 0 <= i < n - 1 ==> r.cf[i].reachable)
            && (n > 0 && !r.cf[n - 1].reachable ==> |r.stack| == r.cf[n - 1].outerStack)
            && (n > 0 && r.cf[n - 1].reachable ==> r.depth == 0)
  {
    forall i | 0 <= i < |r.cf|
      ensures r.cf[i].outerBlocks == i && r.cf[i].outerStack <= |r.stack|
    {
      assert FrameOk(r.cf[i], i, |r.stack|);
    }
    hide GraphOk, Entries, Regs, CurOpen;
  }

  /** At depth 0 an end or an else is the translator's own step, whether the frame is dead or not. */
  lemma EndTickIs(locals: seq<WTy>, s: TState)
    requires Inv(s) && |s.cf| > 0 && s.depth == 0
    ensures InRange(s) && Tick(locals, s, TEnd) == StepEnd(s) && Tick(locals, s, TElse) == StepElse(s)
  {
    hide StepEnd, StepElse, Inv;
    TickIsStep(locals, s, TEnd);
    TickIsStep(locals, s, TElse);
  }

  lemma EndTick(locals: seq<WTy>, s: TState, s1: TState, bt: BlockType, s2: TState)
    requires Inv(s) && |s.cf| > 0 && Live(s) && Opens(s, bt, s1)
    requires Inv(s2) && SameFrame(s1, s2) && s2.depth == 0 && Tick(locals, s2, TEnd).Some?
    ensures InRange(s2) && |s2.cf| > 0 && Tick(locals, s2, TEnd) == StepEnd(s2)
    ensures var s3 := Tick(locals, s2, TEnd).value;
            SameFrame(s, s3) && s3.cf == s.cf && s3.depth == 0 && ResultOn(s1.stack, s3.stack, bt)
  {
    hide Inv, Ready, StepEnd, StepElse, Step, Tick;
    InvFacts(s);
    InvFacts(s2);
    EndTickIs(locals, s2);
    NestFrame(s, s1, bt, s2);
  }

  lemma ElseTick(locals: seq<WTy>, s: TState, s1: TState, bt: BlockType, s2: TState)
    requires Inv(s) && |s.cf| > 0 && Opens(s, bt, s1)
    requires Inv(s1) && Inv(s2) && SameFrame(s1, s2) && s2.depth == 0 && Tick(locals, s2, TElse).Some?
    ensures InRange(s2) && |s2.cf| > 0 && Tick(locals, s2, TElse) == StepElse(s2)
    ensures var s3 := Tick(locals, s2, TElse).value;
            && Opens(s, bt, s3) && s3.stack == s1.stack
            && Top(s3) == Top(s1).(kind := CfElse, els := None) && s3.labels == s1.labels
  {
    hide Inv, Ready, StepElse, StepEnd;
    InvFacts(s2);
    InvFacts(s1);
    ElseFrame(s2);
    TickIsStep(locals, s2, TElse);
  }

  // ----- growth along a body -----

  lemma {:induction false} TransGrows(locals: seq<WTy>, s: TState, c: Code)
    requires Inv(s) && Trans(locals, s, c).Some?
    ensures Grows(s.blocks, Trans(locals, s, c).value.blocks)
    decreases c, 0
  {
    hide Inv, Step, Grows;
    match c
    case Done => GrowsSelf(s.blocks);
    case Plain(i, next) =>
      TickIsStep(locals, s, TPlain(i));
      var s1 := Tick(locals, s, TPlain(i)).value;
      TransGrows(locals, s1, next);
      GrowsTrans(s.blocks, s1.blocks, Trans(locals, s1, next).value.blocks);
    case Block(bt, body, next) => FrameGrows(locals, s, c, Tick(locals, s, TBlock(bt)).value, TBlock(bt), body, next);
    case Loop(bt, body, next) => FrameGrows(locals, s, c, Tick(locals, s, TLoop(bt)).value, TLoop(bt), body, next);
    case IfOnly(bt, thn, next) => FrameGrows(locals, s, c, Tick(locals, s, TIf(bt)).value, TIf(bt), thn, next);
    case IfElse(bt, thn, els, next) =>
      TickIsStep(locals, s, TIf(bt));
      var s1 := Tick(locals, s, TIf(bt)).value;
      TransGrows(locals, s1, thn);
      var s2 := Trans(locals, s1, thn).value;
      FrameGrows(locals, s2, c, Tick(locals, s2, TElse).value, TElse, els, next);
      GrowsTrans(s.blocks, s1.blocks, s2.blocks);
      GrowsTrans(s.blocks, s2.blocks, Trans(locals, s, c).value.blocks);
  }

  lemma {:induction false} FrameGrows(locals: seq<WTy>, s: TState, c: Code, s1: TState, t: Tok, body: Code, next: Code)
    requires Inv(s) && Inv(s1) && Tick(locals, s, t) == Some(s1) && Nest(locals, s1, body).Some?
    requires Trans(locals, Nest(locals, s1, body).value, next).Some? && body < c && next < c
    ensures Grows(s.blocks, Trans(locals, Nest(locals, s1, body).value, next).value.blocks)
    decreases c, -1
  {
    hide Inv, Step, Grows;
    TickIsStep(locals, s, t);
    TransGrows(locals, s1, body);
    var s2, s3 := Trans(locals, s1, body).value, Nest(locals, s1, body).value;
    TickIsStep(locals, s2, TEnd);
    TransGrows(locals, s3, next);
    GrowsTrans(s.blocks, s1.blocks, s2.blocks);
    GrowsTrans(s.blocks, s2.blocks, s3.blocks);
    GrowsTrans(s.blocks, s3.blocks, Trans(locals, s3, next).value.blocks);
  }
}
