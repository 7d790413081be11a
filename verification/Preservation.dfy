/** Meaning preservation: running the emitted graph does what the structured body does. */
module Preservation {
  import opened Values
  import opened Cfg
  import opened Wasm
  import opened TranslatorSpec
  import opened Invariant
  import opened Steps
  import opened Structure
  import opened Acceptance
  import opened Simulation
  import opened NumericSim
  import opened Lines
  import opened Edges
  import opened FrameSim

  // ----- bodies -----

  /** The machine, the translator and the validator stand at the same place. */
  ghost predicate Aligned(p: Prog, ctx: Ctx, s: TState, st: Opds, cs: CState, vs: seq<Val>, lo: seq<Val>) {
    Inv(s) && |s.cf| > 0 && Live(s) && Matches(s, ctx, st) && Agrees(p, ctx.locals, s, cs, vs, lo)
  }

  /** A body c, translated from s, is part of the final graph. */
  ghost predicate Emitted(p: Prog, lt: seq<WTy>, s: TState, c: Code) {
    Inv(s) && Trans(lt, s, c).Some? && Grows(Trans(lt, s, c).value.blocks, p.blocks)
  }

  ghost predicate NestEmitted(p: Prog, lt: seq<WTy>, s: TState, body: Code) {
    Inv(s) && Nest(lt, s, body).Some? && Grows(Nest(lt, s, body).value.blocks, p.blocks)
  }

  /** The instructions after one that ended with r in state s1 of the same frame. */
  lemma {:induction false} ThenSim(p: Prog, ctx: Ctx, s: TState, s1: TState, next: Code, st: Opds, cs: CState, vs: seq<Val>,
                                   n: nat, r: Outcome, fuel: nat) returns (m: nat)
    requires Inv(s) && |s.cf| > 0 && SimOk(p, ctx.locals, s, s1, vs, n, fuel, RunN(p, cs, n), r)
    requires SameFrame(s, s1) && Inv(s1) && Matches(s1, ctx, st) && Check(ctx, next, st).Some?
    requires Emitted(p, ctx.locals, s1, next)
    ensures SimOk(p, ctx.locals, s, Trans(ctx.locals, s1, next).value, vs, m, fuel, RunN(p, cs, m),
                  if r.Next? then Exec(next, fuel, r.stack, r.locals) else r)
    decreases fuel, next, 3
  {
    hide Inv, Core, Matches, Agrees, Lands, RunN, Check, Exec, SameFrame, Grows;
    m := n;
    SameFrameTop(s, s1);
    if r.Next? {
      var k := BodySim(p, ctx, s1, next, st, RunN(p, cs, n), r.stack, r.locals, fuel);
      m := n + k;
      RunSplit(p, cs, n, k);
      InvCore(s);
      InvFacts(s);
      SeqSim(p, ctx.locals, s, s1, Trans(ctx.locals, s1, next).value, vs, r.stack, n, k, fuel, RunN(p, cs, m),
             Exec(next, fuel, r.stack, r.locals));
    }
  }

  lemma SameFrameTop(s: TState, s1: TState)
    requires SameFrame(s, s1)
    ensures |s1.cf| == |s.cf| > 0
  {
  }

  /** A nested body whose label is its end. */
  lemma {:induction false} NestSim(p: Prog, ctx: Ctx, s: TState, bt: BlockType, s1: TState, body: Code, cs: CState,
                                   vs: seq<Val>, vs1: seq<Val>, lo: seq<Val>, fuel: nat) returns (n: nat)
    requires Inv(s) && |s.cf| > 0 && Live(s) && Opens(s, bt, s1) && vs1 <= vs
    requires Aligned(p, Inner(ctx, bt), s1, EMPTY, cs, vs1, lo) && Last(s1.labels) == BlockEntry(bt, Top(s1).end)
    requires Check(Inner(ctx, bt), body, EMPTY).Some? && NestEmitted(p, ctx.locals, s1, body)
    ensures SimOk(p, ctx.locals, s, Nest(ctx.locals, s1, body).value, vs, n, fuel, RunN(p, cs, n),
                  CatchBlock(vs1, bt, Exec(body, fuel, vs1, lo)))
    decreases fuel, body, 3
  {
    hide Inv, Matches, Agrees, Lands, RunN, Check, Exec, SameFrame, Grows, Core, Closing, StepEnd, CloseFrame, CatchBlock;
    var s2, r := Trans(ctx.locals, s1, body).value, Exec(body, fuel, vs1, lo);
    NestFacts(ctx.locals, s, s1, bt, body);
    ClosingEnds(s, bt, s1, s2);
    GrowsTrans(s2.blocks, StepEnd(s2).value.blocks, p.blocks);
    GrowsTrans(CloseFrame(s2).value.blocks, StepEnd(s2).value.blocks, p.blocks);
    var n1 := BodySim(p, Inner(ctx, bt), s1, body, EMPTY, cs, vs1, lo, fuel);
    AgreesFacts(p, ctx.locals, s1, cs, vs1, lo);
    var k := EndSim(p, ctx.locals, s, bt, s1, s2, s2, vs, vs1, n1, fuel, RunN(p, cs, n1), r);
    n := n1 + k;
    RunSplit(p, cs, n1, k);
  }

  lemma ClosingEnds(s: TState, bt: BlockType, s1: TState, s2: TState)
    requires Closing(s, bt, s1, s2)
    ensures Inv(s2) && InRange(s2) && |s2.cf| > 0 && s2.depth == 0 && StepEnd(s2).Some?
    ensures Top(s2).end == Top(s1).end
  {
  }

  /** Simulation of a whole body, by induction on the fuel and the structure. */
  lemma {:induction false} BodySim(p: Prog, ctx: Ctx, s: TState, c: Code, st: Opds, cs: CState, vs: seq<Val>, lo: seq<Val>,
                                   fuel: nat) returns (n: nat)
    requires Aligned(p, ctx, s, st, cs, vs, lo) && Check(ctx, c, st).Some? && Emitted(p, ctx.locals, s, c)
    ensures SimOk(p, ctx.locals, s, Trans(ctx.locals, s, c).value, vs, n, fuel, RunN(p, cs, n), Exec(c, fuel, vs, lo))
    decreases fuel, c, 2
  {
    hide Inv, Matches, Agrees, Lands, RunN, SameFrame, Grows, Core, Step, StepEnd, CloseFrame, CatchBlock, Ready, SimOk,
      CheckSimple, ExecSimple, StepPlain;
    InvFacts(s);
    AgreesFacts(p, ctx.locals, s, cs, vs, lo);
    match c
    case Done =>
      n := 0;
      RunZero(p, cs);
      DoneSim(p, ctx.locals, s, cs, vs, lo, fuel);
    case Plain(i, next) =>
      var s1, r := Tick(ctx.locals, s, TPlain(i)).value, ExecSimple(i, vs, lo);
      PlainTick(ctx.locals, s, i);
      TransGrows(ctx.locals, s1, next);
      GrowsTrans(s1.blocks, Trans(ctx.locals, s1, next).value.blocks, p.blocks);
      PlainAccepted(ctx, s, i, st);
      var n1 := PlainSim(p, ctx, s, cs, vs, lo, st, i, fuel);
      n := ThenSim(p, ctx, s, s1, next, CheckSimple(ctx, i, st).value, cs, vs, n1, r, fuel);
    case Block(bt, body, next) => n := BlockSeq(p, ctx, s, c, st, cs, vs, lo, fuel);
    case Loop(bt, body, next) => n := LoopSeq(p, ctx, s, c, st, cs, vs, lo, fuel);
    case IfOnly(bt, thn, next) => n := IfOnlySeq(p, ctx, s, c, st, cs, vs, lo, fuel);
    case IfElse(bt, thn, els, next) => n := IfElseSeq(p, ctx, s, c, st, cs, vs, lo, fuel);
  }


  lemma DoneSim(p: Prog, lt: seq<WTy>, s: TState, cs: CState, vs: seq<Val>, lo: seq<Val>, fuel: nat)
    requires |s.cf| == |s.labels| > 0 && Live(s) && Agrees(p, lt, s, cs, vs, lo) && Top(s).outerStack <= |s.stack|
    ensures SimOk(p, lt, s, s, vs, 0, fuel, cs, Next(vs, lo))
  {
  }

  lemma {:induction false} BlockSeq(p: Prog, ctx: Ctx, s: TState, c: Code, st: Opds, cs: CState, vs: seq<Val>, lo: seq<Val>,
                                    fuel: nat) returns (n: nat)
    requires c.Block? && Aligned(p, ctx, s, st, cs, vs, lo) && Check(ctx, c, st).Some? && Emitted(p, ctx.locals, s, c)
    ensures SimOk(p, ctx.locals, s, Trans(ctx.locals, s, c).value, vs, n, fuel, RunN(p, cs, n), Exec(c, fuel, vs, lo))
    decreases fuel, c, 1
  {
    hide Inv, Agrees, Lands, RunN, SameFrame, Grows, Core, Step, StepEnd, CloseFrame, CatchBlock, Ready, SimOk, Typed;
    var Block(bt, body, next) := c;
    InvFacts(s);
    OpenTick(ctx.locals, s, TBlock(bt), bt);
    OpenMatches(ctx, s, TBlock(bt), bt, bt, st);
    var s1 := Tick(ctx.locals, s, TBlock(bt)).value;
    var s3 := Nest(ctx.locals, s1, body).value;
    NestAccepted(ctx, s, s1, bt, bt, body, st);
    BlockSim(p, ctx.locals, s, cs, vs, lo, bt);
    TransGrows(ctx.locals, s3, next);
    GrowsTrans(s3.blocks, Trans(ctx.locals, s3, next).value.blocks, p.blocks);
    var n1 := NestSim(p, ctx, s, bt, s1, body, cs, vs, vs, lo, fuel);
    n := ThenSim(p, ctx, s, s3, next, PushBt(st, bt), cs, vs, n1, CatchBlock(vs, bt, Exec(body, fuel, vs, lo)), fuel);
  }

  // ----- loops -----

  lemma MoreSteps(p: Prog, lt: seq<WTy>, s: TState, s': TState, vs: seq<Val>, n: nat, m: nat, fuel: nat, cs: CState, r: Outcome)
    requires SimOk(p, lt, s, s', vs, n, fuel, cs, r)
    ensures SimOk(p, lt, s, s', vs, n + m, fuel, cs, r)
    ensures m > 0 ==> SimOk(p, lt, s, s', vs, n + m, fuel + 1, cs, r)
  {
    hide Lands, Agrees;
  }

  /** The state at the head of a loop. */
  ghost predicate LoopOpen(locals: seq<WTy>, s: TState, bt: BlockType, s1: TState) {
    && Inv(s) && |s.cf| > 0 && Live(s) && Tick(locals, s, TLoop(bt)) == Some(s1) && Inv(s1) && Opens(s, bt, s1)
    && s1.stack == s.stack && s1.cur < |s1.blocks| && s1.blocks[s1.cur].insts == []
    && Last(s1.labels) == BlockEntry(None, s1.cur)
  }

  lemma LoopOpens(locals: seq<WTy>, s: TState, bt: BlockType)
    requires Inv(s) && |s.cf| > 0 && Live(s)
    ensures s.cur < |s.blocks| && Tick(locals, s, TLoop(bt)) == Some(StepLoop(s, bt))
    ensures LoopOpen(locals, s, bt, StepLoop(s, bt))
  {
    OpenTick(locals, s, TLoop(bt), bt);
    TickIsStep(locals, s, TLoop(bt));
    hide Inv, Grows;
  }

  /** A branch back lands where the first round started. */
  lemma LoopBack(p: Prog, lt: seq<WTy>, s: TState, bt: BlockType, s1: TState, s2: TState, vs: seq<Val>, n: nat, fuel: nat,
                 cs: CState, r: Outcome)
    requires LoopOpen(lt, s, bt, s1) && |vs| == |s1.stack|
    requires SimOk(p, lt, s1, s2, vs, n, fuel, cs, r) && r.Branch? && r.n == 0
    ensures n >= 1 && Agrees(p, lt, s1, cs, vs, r.blocals)
  {
    hide Inv, Tick;
    assert s1.stack[..|s1.stack|] == s1.stack && vs[..|vs|] == vs;
    ArrivedAgrees(p, lt, s1, cs, vs, r.bstack, r.blocals);
  }

  /** One outcome of the body that leaves the loop. */
  lemma LoopExit(p: Prog, lt: seq<WTy>, s: TState, bt: BlockType, s1: TState, s2: TState, vs: seq<Val>, n: nat, fuel: nat,
                 cs: CState, r: Outcome) returns (k: nat)
    requires LoopOpen(lt, s, bt, s1) && |vs| == |s1.stack|
    requires SimOk(p, lt, s1, s2, vs, n, fuel, cs, r) && !(r.Branch? && r.n == 0)
    requires SameFrame(s1, s2) && Core(s1) && Closing(s, bt, s1, s2)
    requires CloseFrame(s2).Some? && Grows(CloseFrame(s2).value.blocks, p.blocks) && Grows(StepEnd(s2).value.blocks, p.blocks)
    ensures SimOk(p, lt, s, StepEnd(s2).value, vs, n + k, fuel, RunN(p, cs, k), Popped(r))
  {
    hide Inv, Core, InRange, Grows, StepEnd, SameFrame, CloseFrame, RunN, Lands, SimOk, AtEnd, Tick;
    RunZero(p, cs);
    k := 0;
    if r.Next? {
      k := 1;
      FallsOff(p, lt, s1, s2, vs, n, fuel, cs, r);
      CatchSim(p, lt, s, bt, s1, s2, vs, vs, n + k, fuel, RunN(p, cs, 1), r);
    } else {
      OuterSim(p, lt, s, bt, s1, s2, StepEnd(s2).value, vs, vs, n, fuel, cs, r);
    }
  }

  lemma {:induction false} LoopSeq(p: Prog, ctx: Ctx, s: TState, c: Code, st: Opds, cs: CState, vs: seq<Val>, lo: seq<Val>,
                                   fuel: nat) returns (n: nat)
    requires c.Loop? && Aligned(p, ctx, s, st, cs, vs, lo) && Check(ctx, c, st).Some? && Emitted(p, ctx.locals, s, c)
    ensures SimOk(p, ctx.locals, s, Trans(ctx.locals, s, c).value, vs, n, fuel, RunN(p, cs, n), Exec(c, fuel, vs, lo))
    decreases fuel, c, 1
  {
    hide Inv, Agrees, Lands, RunN, SameFrame, Grows, Core, Step, StepEnd, CloseFrame, Ready, SimOk, Typed, Check, Exec, StepLoop;
    LoopOpens(ctx.locals, s, c.bt);
    var s1 := StepLoop(s, c.bt);
    NestGrows(ctx.locals, s1, c.body, c.next, p.blocks);
    LoopHeadSim(p, ctx.locals, s, cs, vs, lo, c.bt);
    var k := LoopRounds(p, ctx, s, c, st, s1, RunN(p, cs, 1), vs, lo, fuel);
    n := k + 1;
    RunSplit(p, cs, 1, k);
    MoreSteps(p, ctx.locals, s, Trans(ctx.locals, s, c).value, vs, k, 1, fuel, RunN(p, cs, n), Exec(c, fuel, vs, lo));
  }

  /** The blocks after a nested body and what follows it are all in the final graph. */
  lemma NestGrows(locals: seq<WTy>, s1: TState, body: Code, next: Code, g: Graph)
    requires Inv(s1) && Nest(locals, s1, body).Some? && Trans(locals, Nest(locals, s1, body).value, next).Some?
    requires Grows(Trans(locals, Nest(locals, s1, body).value, next).value.blocks, g)
    ensures Grows(s1.blocks, g) && Grows(Nest(locals, s1, body).value.blocks, g)
  {
    hide Inv, Step, Grows;
    var s2, s3 := Trans(locals, s1, body).value, Nest(locals, s1, body).value;
    TransGrows(locals, s1, body);
    TickIsStep(locals, s2, TEnd);
    TransGrows(locals, s3, next);
    GrowsTrans(s3.blocks, Trans(locals, s3, next).value.blocks, g);
    GrowsTrans(s2.blocks, s3.blocks, g);
    GrowsTrans(s1.blocks, s2.blocks, g);
  }

  /** Round after round, from the head of the loop. */
  lemma {:induction false} LoopRounds(p: Prog, ctx: Ctx, s: TState, c: Code, st: Opds, s1: TState, cs: CState, vs: seq<Val>,
                                      lo: seq<Val>, fuel: nat) returns (n: nat)
    requires c.Loop? && LoopOpen(ctx.locals, s, c.bt, s1) && Matches(s, ctx, st)
    requires Check(ctx, c, st).Some? && Emitted(p, ctx.locals, s, c) && Agrees(p, ctx.locals, s1, cs, vs, lo)
    ensures SimOk(p, ctx.locals, s, Trans(ctx.locals, s, c).value, vs, n, fuel, RunN(p, cs, n), Exec(c, fuel, vs, lo))
    decreases fuel, c, 0
  {
    hide Inv, Agrees, Lands, RunN, SameFrame, Grows, Core, Step, StepEnd, CloseFrame, Ready, SimOk, Typed, LoopOpen, Closing;
    var lt := ctx.locals;
    var Loop(bt, body, next) := c;
    LoopFacts(p, ctx, s, c, st, s1);
    AgreesFacts(p, lt, s1, cs, vs, lo);
    var s2, s3, r := Trans(lt, s1, body).value, Nest(lt, s1, body).value, Exec(body, fuel, vs, lo);
    var n1 := BodySim(p, Inner(ctx, None), s1, body, EMPTY, cs, vs, lo, fuel);
    var cs1 := RunN(p, cs, n1);
    if r.Branch? && r.n == 0 {
      LoopBack(p, lt, s, bt, s1, s2, vs, n1, fuel, cs1, r);
      if fuel == 0 {
        n := n1;
        OutOfFuelOk(p, lt, s, s1, Trans(lt, s, c).value, vs, n, cs1, r.blocals);
      } else {
        var k := LoopRounds(p, ctx, s, c, st, s1, cs1, vs, r.blocals, fuel - 1);
        n := n1 + k;
        RunSplit(p, cs, n1, k);
        MoreSteps(p, lt, s, Trans(lt, s, c).value, vs, k, n1, fuel - 1, RunN(p, cs, n), Exec(c, fuel, vs, lo));
      }
    } else {
      var k := LoopExit(p, lt, s, bt, s1, s2, vs, n1, fuel, cs1, r);
      RunSplit(p, cs, n1, k);
      n := ThenSim(p, ctx, s, s3, next, PushBt(st, bt), cs, vs, n1 + k, Popped(r), fuel);
    }
  }

  lemma OutOfFuelOk(p: Prog, lt: seq<WTy>, s: TState, s1: TState, s': TState, vs: seq<Val>, n: nat, cs: CState, lo: seq<Val>)
    requires Inv(s) && |s.cf| > 0 && Agrees(p, lt, s1, cs, vs, lo)
    ensures SimOk(p, lt, s, s', vs, n, 0, cs, OutOfFuel)
  {
  }

  lemma LoopFacts(p: Prog, ctx: Ctx, s: TState, c: Code, st: Opds, s1: TState)
    requires c.Loop? && LoopOpen(ctx.locals, s, c.bt, s1) && Matches(s, ctx, st)
    requires Check(ctx, c, st).Some? && Emitted(p, ctx.locals, s, c)
    ensures Inv(s) && |s.cf| > 0 && Inv(s1) && |s1.cf| > 0 && Live(s1) && s1.stack == s.stack && Core(s1)
    ensures Matches(s1, Inner(ctx, None), EMPTY) && Emitted(p, ctx.locals, s1, c.body)
    ensures Nest(ctx.locals, s1, c.body).Some?
    ensures var s2, s3 := Trans(ctx.locals, s1, c.body).value, Nest(ctx.locals, s1, c.body).value;
            && SameFrame(s1, s2) && Inv(s2) && InRange(s2) && |s2.cf| > 0 && Closing(s, c.bt, s1, s2) && StepEnd(s2) == Some(s3)
            && CloseFrame(s2).Some? && Grows(CloseFrame(s2).value.blocks, p.blocks) && Grows(s3.blocks, p.blocks)
            && SameFrame(s, s3) && Matches(s3, ctx, PushBt(st, c.bt)) && Emitted(p, ctx.locals, s3, c.next)
            && Trans(ctx.locals, s, c) == Trans(ctx.locals, s3, c.next)
  {
    hide Inv, SameFrame, Grows, Core, Step, StepEnd, CloseFrame, Ready, Typed;
    var lt := ctx.locals;
    OpenMatches(ctx, s, TLoop(c.bt), c.bt, None, st);
    InvFacts(s);
    NestAccepted(ctx, s, s1, c.bt, None, c.body, st);
    NestFacts(lt, s, s1, c.bt, c.body);
    var s2 := Trans(lt, s1, c.body).value;
    NestGrows(lt, s1, c.body, c.next, p.blocks);
    GrowsTrans(s2.blocks, StepEnd(s2).value.blocks, p.blocks);
    GrowsTrans(CloseFrame(s2).value.blocks, StepEnd(s2).value.blocks, p.blocks);
  }

  // ----- if -----

  /** After the branch of an if: the machine is at the start of one arm with the condition gone. */
  ghost predicate IfTaken(p: Prog, ctx: Ctx, s: TState, bt: BlockType, s1: TState, cs: CState, vs: seq<Val>, lo: seq<Val>) {
    && Inv(s1) && vs != [] && Last(vs).ty == I32 && Opens(s, bt, s1) && Matches(s1, Inner(ctx, bt), EMPTY)
    && Top(s1).kind == CfIf && Top(s1).els.Some?
    && s1.cur < |s1.blocks| && s1.blocks[s1.cur].insts == [] && Last(s1.labels) == BlockEntry(bt, Top(s1).end)
    && Front(vs) <= vs && |s1.stack| == |Front(vs)| && Popped1(s, s1)
    && Arrived(p, ctx.locals, if Last(vs).bits != 0 then s1.cur else Top(s1).els.value, None, s1.stack, RunN(p, cs, 2),
               Front(vs), Front(vs), lo)
  }

  ghost predicate Popped1(s: TState, s1: TState) { CanPop(s) && s1.stack == Drop(s).stack }

  lemma IfOpens(p: Prog, ctx: Ctx, s: TState, bt: BlockType, st: Opds, cs: CState, vs: seq<Val>, lo: seq<Val>)
    requires Aligned(p, ctx, s, st, cs, vs, lo) && PopTy(st, I32).Some?
    ensures Tick(ctx.locals, s, TIf(bt)).Some?
    ensures Grows(Tick(ctx.locals, s, TIf(bt)).value.blocks, p.blocks) ==>
              IfTaken(p, ctx, s, bt, Tick(ctx.locals, s, TIf(bt)).value, cs, vs, lo)
    ensures CanPop(s) && Matches(Drop(s), ctx, PopTy(st, I32).value)
  {
    hide Inv, Agrees, RunN, Grows, Ready, IfHead, Arrived, Matches, Typed, Opens;
    InvFacts(s);
    OpenTick(ctx.locals, s, TIf(bt), bt);
    OpenMatches(ctx, s, TIf(bt), bt, bt, st);
    DropReady(s);
    PopRel(p, ctx.locals, s, cs, vs, lo);
    IfEntry(s, bt);
    var s1 := Tick(ctx.locals, s, TIf(bt)).value;
    AgreesFacts(p, ctx.locals, s, cs, vs, lo);
    if Grows(s1.blocks, p.blocks) {
      IfHeadSim(p, ctx.locals, Drop(s), cs, Front(vs), lo, TopOpd(s), Last(vs), bt);
    }
  }

  lemma IfEntry(s: TState, bt: BlockType)
    requires s.cur < |s.blocks| && CanPopTy(s, I32)
    ensures var s1 := StepIf(s, bt).value;
            && s1.blocks == IfHead(Drop(s), TopOpd(s), bt).blocks
            && Top(s1).kind == CfIf && Top(s1).els == Some(|s.blocks| + 1)
            && s1.cur == |s.blocks| < |s1.blocks| && s1.blocks[s1.cur].insts == []
            && Last(s1.labels) == BlockEntry(bt, Top(s1).end) && s1.stack == Drop(s).stack
  {
  }

  lemma {:induction false} IfOnlySeq(p: Prog, ctx: Ctx, s: TState, c: Code, st: Opds, cs: CState, vs: seq<Val>, lo: seq<Val>,
                                     fuel: nat) returns (n: nat)
    requires c.IfOnly? && Aligned(p, ctx, s, st, cs, vs, lo) && Check(ctx, c, st).Some? && Emitted(p, ctx.locals, s, c)
    ensures SimOk(p, ctx.locals, s, Trans(ctx.locals, s, c).value, vs, n, fuel, RunN(p, cs, n), Exec(c, fuel, vs, lo))
    decreases fuel, c, 1
  {
    hide Inv, Agrees, Lands, Arrived, RunN, SameFrame, Grows, Core, Step, StepEnd, CloseFrame, Ready, SimOk, Typed, Opens;
    var lt := ctx.locals;
    var IfOnly(bt, thn, next) := c;
    IfOpens(p, ctx, s, bt, st, cs, vs, lo);
    var s1, st1 := Tick(lt, s, TIf(bt)).value, PopTy(st, I32).value;
    var s3 := Nest(lt, s1, thn).value;
    NestGrows(lt, s1, thn, next, p.blocks);
    var vs1, cs2 := Front(vs), RunN(p, cs, 2);
    IfNest(ctx, s, s1, bt, thn, st1);
    var k;
    if Last(vs).bits != 0 {
      ArrivedAgrees(p, lt, s1, cs2, vs1, vs1, lo);
      k := NestSim(p, ctx, s, bt, s1, thn, cs2, vs, vs1, lo, fuel);
    } else {
      k := SkipSim(p, lt, s, s1, bt, thn, cs2, vs, vs1, lo, fuel);
    }
    RunSplit(p, cs, 2, k);
    var r := CatchBlock(vs1, bt, if Last(vs).bits != 0 then Exec(thn, fuel, vs1, lo) else Next(vs1, lo));
    MoreSteps(p, lt, s, s3, vs, k, 2, fuel, RunN(p, cs, 2 + k), r);
    n := ThenSim(p, ctx, s, s3, next, st1, cs, vs, k + 2, r, fuel);
  }

  lemma IfNest(ctx: Ctx, s: TState, s1: TState, bt: BlockType, body: Code, st: Opds)
    requires Inv(s) && |s.cf| > 0 && Live(s) && CanPop(s) && Matches(Drop(s), ctx, st)
    requires Inv(s1) && Opens(s, bt, s1) && Matches(s1, Inner(ctx, bt), EMPTY) && s1.stack == Drop(s).stack
    requires Check(Inner(ctx, bt), body, EMPTY).Some? && Ends(Check(Inner(ctx, bt), body, EMPTY).value, bt)
    ensures Nest(ctx.locals, s1, body).Some?
    ensures Matches(Nest(ctx.locals, s1, body).value, ctx, PushBt(st, bt))
    ensures SameFrame(s, Nest(ctx.locals, s1, body).value) && Live(Nest(ctx.locals, s1, body).value)
  {
    hide Inv, Check, Opens, SameFrame;
    NestAccepted(ctx, s, s1, bt, bt, body, st);
  }

  /** The arm that is not there. */
  lemma SkipSim(p: Prog, lt: seq<WTy>, s: TState, s1: TState, bt: BlockType, thn: Code, cs: CState,
                vs: seq<Val>, vs1: seq<Val>, lo: seq<Val>, fuel: nat) returns (k: nat)
    requires Inv(s) && |s.cf| > 0 && Live(s) && Inv(s1) && Opens(s, bt, s1) && NestEmitted(p, lt, s1, thn)
    requires bt == None && Top(s1).els.Some? && vs1 <= vs && |vs1| == |s1.stack|
    requires Arrived(p, lt, Top(s1).els.value, None, s1.stack, cs, vs1, vs1, lo)
    ensures SimOk(p, lt, s, Nest(lt, s1, thn).value, vs, k, fuel, RunN(p, cs, k), CatchBlock(vs1, bt, Next(vs1, lo)))
  {
    hide Inv, Arrived, RunN, Grows, Core, Step, StepEnd, CloseFrame, Ready, SimOk, InRange;
    NestFacts(lt, s, s1, bt, thn);
    var s2, h := Trans(lt, s1, thn).value, |s1.stack|;
    assert s1.stack[..h] == s1.stack && vs1[..h] == vs1;
    k := 1;
    FallSim(p, lt, s2, cs, vs1, vs1, lo);
    LandsFrom(p, lt, s2, s1, Top(s1).end, None, h, RunN(p, cs, 1), vs1, vs1, vs1, lo);
    CatchSim(p, lt, s, bt, s1, s2, vs, vs1, 1, fuel, RunN(p, cs, 1), Next(vs1, lo));
  }

  /** Where the else arm starts. */
  lemma ElseStart(locals: seq<WTy>, s: TState, s1: TState, bt: BlockType, s2: TState)
    requires Inv(s) && |s.cf| > 0 && Opens(s, bt, s1) && Inv(s1) && Inv(s2) && SameFrame(s1, s2) && s2.depth == 0
    requires Top(s1).els.Some? && Tick(locals, s2, TElse).Some?
    ensures InRange(s2) && |s2.cf| > 0 && CloseFrame(s2).Some?
    ensures var s3 := Tick(locals, s2, TElse).value;
            && Inv(s3) && s3.blocks == CloseFrame(s2).value.blocks && s3.cur == Top(s1).els.value
            && s3.cur < |s3.blocks| && s3.blocks[s3.cur].insts == []
            && Top(s3).end == Top(s1).end && s3.labels == s1.labels && Live(s3)
  {
    hide Inv, Ready, StepEnd, CloseFrame, Core, Grows;
    InvFacts(s2);
    InvFacts(s1);
    ElseTick(locals, s, s1, bt, s2);
    TickIsStep(locals, s2, TElse);
    CloseFrameCore(s2);
    ElsePending(CloseFrame(s2).value);
  }

  lemma ElsePending(s: TState)
    requires Core(s) && |s.cf| > 0 && Top(s).els.Some?
    ensures Top(s).els.value < |s.blocks| && s.blocks[Top(s).els.value].insts == []
  {
    assert PendingOk(s.blocks, Top(s));
  }

  /** What is known of both arms. */
  ghost predicate Arms(p: Prog, lt: seq<WTy>, s: TState, bt: BlockType, thn: Code, els: Code, s1: TState, s2: TState, s3: TState) {
    && Inv(s1) && Inv(s2) && Inv(s3) && InRange(s2) && |s2.cf| > 0
    && Trans(lt, s1, thn) == Some(s2) && Tick(lt, s2, TElse) == Some(s3) && Nest(lt, s3, els).Some?
    && Core(s1) && Opens(s, bt, s1) && Opens(s, bt, s3) && SameFrame(s1, s2) && s2.depth == 0 && CloseFrame(s2).Some?
    && Grows(s1.blocks, p.blocks) && Grows(CloseFrame(s2).value.blocks, p.blocks)
    && Grows(Nest(lt, s3, els).value.blocks, p.blocks)
    && CanPop(s) && s3.stack == s1.stack == Drop(s).stack && s3.labels == s1.labels
    && Top(s1).els == Some(s3.cur) && s3.cur < |s3.blocks| && s3.blocks[s3.cur].insts == [] && Live(s3)
    && Top(s3).end == Top(s1).end
  }

  lemma ArmFacts(p: Prog, ctx: Ctx, s: TState, c: Code, st: Opds) returns (s1: TState, s2: TState, s3: TState)
    requires c.IfElse? && Inv(s) && |s.cf| > 0 && Live(s) && Matches(s, ctx, st) && Check(ctx, c, st).Some?
    requires Emitted(p, ctx.locals, s, c)
    ensures Tick(ctx.locals, s, TIf(c.bt)) == Some(s1) && Arms(p, ctx.locals, s, c.bt, c.thn, c.els, s1, s2, s3)
    ensures Matches(s3, Inner(ctx, c.bt), EMPTY)
  {
    hide Inv, Grows, Core, Step, StepEnd, CloseFrame, Ready, Typed, SameFrame, InRange;
    var lt := ctx.locals;
    var IfElse(bt, thn, els, next) := c;
    InvFacts(s);
    OpenMatches(ctx, s, TIf(bt), bt, bt, st);
    s1 := Tick(lt, s, TIf(bt)).value;
    ThenAccepted(ctx, s, s1, bt, thn);
    BodyFrame(lt, s1, thn);
    s2 := Trans(lt, s1, thn).value;
    s3 := Tick(lt, s2, TElse).value;
    ElseStart(lt, s, s1, bt, s2);
    NestGrows(lt, s3, els, next, p.blocks);
    TickIsStep(lt, s2, TElse);
    GrowsTrans(s2.blocks, s3.blocks, p.blocks);
    TransGrows(lt, s1, thn);
    GrowsTrans(s1.blocks, s2.blocks, p.blocks);
    InvCore(s1);
    SameFrameTop(s1, s2);
  }

  /** The first arm of an if with two. */
  lemma {:induction false} ThenArm(p: Prog, ctx: Ctx, s: TState, bt: BlockType, thn: Code, els: Code, s1: TState, s2: TState,
                                   s3: TState, cs: CState, vs: seq<Val>, vs1: seq<Val>, lo: seq<Val>, fuel: nat) returns (n: nat)
    requires Inv(s) && |s.cf| > 0 && Live(s) && Arms(p, ctx.locals, s, bt, thn, els, s1, s2, s3) && vs1 <= vs
    requires Aligned(p, Inner(ctx, bt), s1, EMPTY, cs, vs1, lo) && Check(Inner(ctx, bt), thn, EMPTY).Some?
    requires s1.labels != [] && Last(s1.labels) == BlockEntry(bt, Top(s1).end)
    ensures SimOk(p, ctx.locals, s, Nest(ctx.locals, s3, els).value, vs, n, fuel, RunN(p, cs, n),
                  CatchBlock(vs1, bt, Exec(thn, fuel, vs1, lo)))
    decreases fuel, thn, 3
  {
    hide Inv, Agrees, Matches, RunN, SameFrame, Grows, Core, Step, StepEnd, CloseFrame, SimOk, InRange, Exec, Check, CatchBlock;
    var lt := ctx.locals;
    NestFacts(lt, s, s3, bt, els);
    var s4 := Trans(lt, s3, els).value;
    ElseBack(p, lt, s, bt, thn, els, s1, s2, s3);
    var n1 := BodySim(p, Inner(ctx, bt), s1, thn, EMPTY, cs, vs1, lo, fuel);
    AgreesFacts(p, lt, s1, cs, vs1, lo);
    var k := EndSim(p, lt, s, bt, s1, s2, s4, vs, vs1, n1, fuel, RunN(p, cs, n1), Exec(thn, fuel, vs1, lo));
    n := n1 + k;
    RunSplit(p, cs, n1, k);
  }

  lemma ElseBack(p: Prog, lt: seq<WTy>, s: TState, bt: BlockType, thn: Code, els: Code, s1: TState, s2: TState, s3: TState)
    requires Arms(p, lt, s, bt, thn, els, s1, s2, s3)
    ensures Grows(s2.blocks, p.blocks)
  {
    hide Inv, Grows, Core, Step, Opens, SameFrame, CloseFrame;
    TickIsStep(lt, s2, TElse);
    TransGrows(lt, s3, els);
    TickIsStep(lt, Trans(lt, s3, els).value, TEnd);
    GrowsTrans(Trans(lt, s3, els).value.blocks, Nest(lt, s3, els).value.blocks, p.blocks);
    GrowsTrans(s3.blocks, Trans(lt, s3, els).value.blocks, p.blocks);
    GrowsTrans(s2.blocks, s3.blocks, p.blocks);
  }

  lemma CheckArms(ctx: Ctx, c: Code, st: Opds)
    requires c.IfElse? && Check(ctx, c, st).Some?
    ensures Check(Inner(ctx, c.bt), c.thn, EMPTY).Some? && Check(Inner(ctx, c.bt), c.els, EMPTY).Some?
    ensures Ends(Check(Inner(ctx, c.bt), c.els, EMPTY).value, c.bt) && PopTy(st, I32).Some?
    ensures Check(ctx, c, st) == Check(ctx, c.next, PushBt(PopTy(st, I32).value, c.bt))
  {
  }

  lemma {:induction false} IfElseSeq(p: Prog, ctx: Ctx, s: TState, c: Code, st: Opds, cs: CState, vs: seq<Val>, lo: seq<Val>,
                                     fuel: nat) returns (n: nat)
    requires c.IfElse? && Aligned(p, ctx, s, st, cs, vs, lo) && Check(ctx, c, st).Some? && Emitted(p, ctx.locals, s, c)
    ensures SimOk(p, ctx.locals, s, Trans(ctx.locals, s, c).value, vs, n, fuel, RunN(p, cs, n), Exec(c, fuel, vs, lo))
    decreases fuel, c, 1
  {
    hide Inv, Agrees, Lands, Arrived, RunN, SameFrame, Grows, Core, Step, StepEnd, CloseFrame, Ready, SimOk, Typed, Opens, Check,
      CatchBlock;
    var lt := ctx.locals;
    var IfElse(bt, thn, els, next) := c;
    CheckArms(ctx, c, st);
    IfOpens(p, ctx, s, bt, st, cs, vs, lo);
    var s1, s2, s3 := ArmFacts(p, ctx, s, c, st);
    var st1, vs1, cs2 := PopTy(st, I32).value, Front(vs), RunN(p, cs, 2);
    var s5 := Nest(lt, s3, els).value;
    IfNest(ctx, s, s3, bt, els, st1);
    var k;
    if Last(vs).bits != 0 {
      ArrivedAgrees(p, lt, s1, cs2, vs1, vs1, lo);
      k := ThenArm(p, ctx, s, bt, thn, els, s1, s2, s3, cs2, vs, vs1, lo, fuel);
    } else {
      ArrivedAgrees(p, lt, s3, cs2, vs1, vs1, lo);
      k := NestSim(p, ctx, s, bt, s3, els, cs2, vs, vs1, lo, fuel);
    }
    RunSplit(p, cs, 2, k);
    var r := CatchBlock(vs1, bt, if Last(vs).bits != 0 then Exec(thn, fuel, vs1, lo) else Exec(els, fuel, vs1, lo));
    MoreSteps(p, lt, s, s5, vs, k, 2, fuel, RunN(p, cs, 2 + k), r);
    n := ThenSim(p, ctx, s, s5, next, PushBt(st1, bt), cs, vs, k + 2, r, fuel);
  }
}
