/** Whole functions: the emitted graph, run from its entry block, has the outcome of the call. */
module Correctness {
  import opened Values
  import opened Cfg
  import opened Wasm
  import opened TranslatorSpec
  import opened Invariant
  import opened Steps
  import opened Structure
  import opened Acceptance
  import opened Simulation
  import opened NumericSim
  import opened Lines
  import opened Edges
  import opened FrameSim
  import opened Preservation

  /** The graph of a valid function. */
  ghost function GraphOf(f: Func): Graph
    requires Valid(f)
  {
    ValidIsTranslated(f);
    Translate(f, Flatten(f.body) + [TEnd]).value.blocks
  }

  ghost function ProgOf(f: Func, args: seq<Val>): Prog
    requires Valid(f)
  {
    Prog(GraphOf(f), args)
  }

  const ENTRY := Running(FENTRY, 0, map[], map[])

  predicate ArgsOk(f: Func, args: seq<Val>) {
    |args| == |f.params| && forall i :: 0 <= i < |args| ==> args[i].ty == f.params[i]
  }

  function InitialLocals(f: Func, args: seq<Val>): seq<Val> {
    args + seq(|f.extra|, i requires 0 <= i < |f.extra| => Zero(f.extra[i]))
  }

  // ----- entry -----

  /** The first n stores of the entry block. */
  lemma {:induction false} EntrySim(p: Prog, f: Func, n: nat)
    requires ArgsOk(f, p.args) && n <= |f.params| + |f.extra|
    requires FENTRY < |Opening(f.ret).blocks| && Grows(StoreLocals(Opening(f.ret), f.params, f.extra, n).blocks, p.blocks)
    ensures |StoreLocals(Opening(f.ret), f.params, f.extra, n).blocks[FENTRY].insts| == n
    ensures RunN(p, ENTRY, n) == Running(FENTRY, n, map[], MemOf(InitialLocals(f, p.args)[..n]))
  {
    hide Grows, Advance, RunN, Builds, MemOf, Closed, Opening;
    MemSteps(InitialLocals(f, p.args), n);
    OpeningBuilds(f.ret);
    EntryFresh(f.ret);
    if n == 0 {
      RunZero(p, ENTRY);
    } else {
      var o, k, lo := Opening(f.ret), n - 1, InitialLocals(f, p.args);
      var s := StoreLocals(o, f.params, f.extra, k);
      var v := if k < |f.params| then Param(k, f.params[k]) else Opd.Const(Zero(f.extra[k - |f.params|]));
      StoreBuilds(o, o, f, k);
      BuildsOpen(o, s);
      EmitBack(s, Store(k, v), p.blocks);
      EntrySim(p, f, k);
      RunNext(p, ENTRY, k);
      StoreStep(p, s, RunN(p, ENTRY, k), k, v, lo[k]);
    }
  }

  lemma EntryFresh(ret: BlockType)
    ensures Opening(ret).cur == FENTRY < |Opening(ret).blocks| && Opening(ret).blocks[FENTRY].insts == []
  {
  }

  lemma MemSteps(lo: seq<Val>, n: nat)
    requires n <= |lo|
    ensures MemOf(lo[..0]) == map[]
    ensures n > 0 ==> MemOf(lo[..n - 1])[n - 1 := lo[n - 1]] == MemOf(lo[..n])
  {
  }

  lemma BuildsOpen(o: TState, s: TState)
    requires Builds(o, s)
    ensures s.cur < |s.blocks| && !Closed(s.blocks[s.cur])
  {
  }

  lemma StoreStep(p: Prog, s: TState, cs: CState, x: nat, o: Opd, v: Val)
    requires StandsAt(s, cs) && Grows(Emit(s, Store(x, o)).blocks, p.blocks) && Eval(o, cs.env, p.args) == Some(v)
    ensures Advance(p, cs) == Running(cs.b, cs.i + 1, cs.env, cs.mem[x := v])
  {
    InstThere(p, s, Store(x, o));
  }

  // ----- exit -----

  /** What the machine shows for each result of a call. */
  predicate Corresponds(r: Result, cs: CState) {
    match r
    case Ok(v, lo) => cs == Returned(v, MemOf(lo))
    case Trapping(lo) => cs == Trapped(MemOf(lo))
    case Diverging => cs.Running?
    case Bad => false
  }

  /** The return in the end block. */
  lemma RetSim(p: Prog, f: Func, s: TState, cs: CState, vs: seq<Val>, lo: seq<Val>)
    requires Agrees(p, Locals(f), s, cs, vs, lo) && FinishFunction(f, s).Some? && |s.stack| == (if f.ret.None? then 0 else 1)
    requires Grows(FinishFunction(f, s).value.blocks, p.blocks)
    ensures f.ret.Some? ==> vs != []
    ensures Advance(p, cs) == Returned(if f.ret.None? then None else Some(vs[0]), MemOf(lo))
  {
    if f.ret.None? {
      InstThere(p, s, Ret(None));
    } else {
      InstThere(p, Drop(s), Ret(Some(TopOpd(s))));
      assert Holds(p, s.stack[0], vs[0], cs.env);
    }
  }

  /** The state before the last end: everything the function's own frame still needs. */
  ghost predicate BeforeEnd(p: Prog, f: Func, s: TState) {
    && Inv(s) && InRange(s) && |s.cf| > 0 && s.depth == 0 && StepEnd(s).Some?
    && Top(s).end == FEND && Top(s).sig == f.ret && Top(s).outerStack == 0
    && var s' := StepEnd(s).value;
    && Grows(s'.blocks, p.blocks) && s'.cur < |s'.blocks| && FinishFunction(f, s').Some?
    && Grows(FinishFunction(f, s').value.blocks, p.blocks) && |s'.stack| == if f.ret.None? then 0 else 1
  }

  /** From the end block: arriving there with a result returns it. */
  lemma ReturnSim(p: Prog, f: Func, s: TState, cs: CState, bst: seq<Val>, lo: seq<Val>)
    requires BeforeEnd(p, f, s) && Lands(p, Locals(f), s, FEND, f.ret, 0, cs, [], bst, lo)
    ensures Finish(f.ret, bst, lo).Ok? && Corresponds(Finish(f.ret, bst, lo), RunN(p, cs, 1))
  {
    hide Inv, InRange, StepEnd, Grows, FinishFunction, RunN, Advance, Cells;
    var us := Unwound([], 0, f.ret, bst);
    ArriveSim(p, Locals(f), s, cs, [], bst, lo);
    RetSim(p, f, StepEnd(s).value, cs, us, lo);
    OneStep(p, cs);
  }

  /** Any outcome of the body, carried to the end of the call. */
  lemma OutcomeSim(p: Prog, f: Func, s: TState, s1: TState, cs: CState, n: nat, fuel: nat, r: Outcome) returns (k: nat)
    requires SimOk(p, Locals(f), s, s1, [], n, fuel, cs, r) && SameFrame(s, s1) && BeforeEnd(p, f, s1)
    requires |s.labels| == 1 == |s.cf| && s.labels[0] == BlockEntry(f.ret, FEND) && Top(s).outerStack == 0
    requires s.cf[0].sig == f.ret && s.cf[0].end == FEND
    requires CloseFrame(s1).Some? && Grows(CloseFrame(s1).value.blocks, p.blocks)
    ensures var res := match r
                       case Next(st, lo) => Finish(f.ret, st, lo)
                       case Branch(m, st, lo) => if m == 0 then Finish(f.ret, st, lo) else Bad
                       case Return(st, lo) => Finish(f.ret, st, lo)
                       case Trap(lo) => Trapping(lo)
                       case OutOfFuel => Diverging
                       case Crash => Bad;
            Corresponds(res, RunN(p, cs, k)) && (r.OutOfFuel? ==> n + k >= fuel)
  {
    hide Inv, InRange, StepEnd, Grows, RunN, Agrees, CloseFrame, Cells, Finish, BeforeEnd, Arrived;
    RunZero(p, cs);
    k := 0;
    var lt := Locals(f);
    if r.Next? {
      k := 2;
      EndsInv(p, f, s1);
      CloseSim(p, lt, s1, cs, r.stack, r.locals);
      LandsFrom(p, lt, s1, s1, FEND, f.ret, 0, RunN(p, cs, 1), r.stack, [], r.stack, r.locals);
      ReturnSim(p, f, s1, RunN(p, cs, 1), r.stack, r.locals);
      RunSplit(p, cs, 1, 1);
    } else if r.Branch? {
      k := 1;
      LandsFrom(p, lt, s, s1, FEND, f.ret, 0, cs, [], [], r.bstack, r.blocals);
      ReturnSim(p, f, s1, cs, r.bstack, r.blocals);
    } else if r.Return? {
      k := 1;
      LandsFrom(p, lt, s, s1, FEND, f.ret, 0, cs, [], [], r.rstack, r.rlocals);
      ReturnSim(p, f, s1, cs, r.rstack, r.rlocals);
    }
  }

  lemma EndsInv(p: Prog, f: Func, s: TState)
    requires BeforeEnd(p, f, s)
    ensures Inv(s) && InRange(s) && |s.cf| > 0 && Top(s).end == FEND && Top(s).sig == f.ret && Top(s).outerStack == 0
  {
  }

  // ----- whole calls -----

  lemma FinishGrows(f: Func, s: TState)
    requires Inv(s) && s.cf == [] && s.cur < |s.blocks| && FinishFunction(f, s).Some?
    ensures Grows(s.blocks, FinishFunction(f, s).value.blocks)
  {
    EmitGraph(s, Ret(None));
    if f.ret.Some? {
      EmitGraph(Drop(s), Ret(Some(TopOpd(s))));
    }
  }

  /** The frame of the function itself. */
  lemma OwnFrame(f: Func, s: TState)
    requires SameStacks(Opening(f.ret), Start(f)) && SameFrame(Start(f), s)
    ensures SameFrame(Opening(f.ret), s) && |s.cf| > 0
    ensures Top(s).end == FEND && Top(s).sig == f.ret && Top(s).outerStack == 0
  {
  }

  /** The state before the last end of a valid function's translation. */
  lemma WholeFacts(f: Func, args: seq<Val>) returns (s1: TState)
    requires Valid(f)
    ensures Inv(Start(f)) && Trans(Locals(f), Start(f), f.body) == Some(s1) && SameFrame(Start(f), s1)
    ensures BeforeEnd(ProgOf(f, args), f, s1) && CloseFrame(s1).Some?
    ensures Grows(CloseFrame(s1).value.blocks, GraphOf(f)) && Grows(s1.blocks, GraphOf(f)) && Grows(Start(f).blocks, GraphOf(f))
  {
    hide Inv, StepEnd, StepElse, Check, Start, Step, CloseFrame, Grows, Ready, FinishFunction;
    var ctx, s0 := Ctx(Locals(f), [f.ret]), Start(f);
    StartInv(f);
    BodyAccepted(ctx, s0, f.body, EMPTY);
    BodyFrame(Locals(f), s0, f.body);
    s1 := Trans(Locals(f), s0, f.body).value;
    OwnFrame(f, s1);
    LastEnd(f, s1, Check(ctx, f.body, EMPTY).value);
    TickIsStep(Locals(f), s1, TEnd);
    InvFacts(s1);
    EndShape(s1);
    TransGrows(Locals(f), s0, f.body);
    WholeGrows(f, s0, s1);
  }

  lemma WholeGrows(f: Func, s0: TState, s1: TState)
    requires Valid(f) && Inv(s0) && s0 == Start(f) && Trans(Locals(f), s0, f.body) == Some(s1) && Inv(s1)
    requires InRange(s1) && |s1.cf| > 0 && Tick(Locals(f), s1, TEnd) == StepEnd(s1) && StepEnd(s1).Some?
    requires var s2 := StepEnd(s1).value;
             Inv(s2) && s2.cf == [] && s2.cur < |s2.blocks| && FinishFunction(f, s2).Some? && Grows(s1.blocks, s2.blocks)
    requires CloseFrame(s1).Some? && Grows(CloseFrame(s1).value.blocks, StepEnd(s1).value.blocks) && Grows(s0.blocks, s1.blocks)
    ensures GraphOf(f) == FinishFunction(f, StepEnd(s1).value).value.blocks
    ensures Grows(StepEnd(s1).value.blocks, GraphOf(f)) && Grows(CloseFrame(s1).value.blocks, GraphOf(f))
    ensures Grows(s1.blocks, GraphOf(f)) && Grows(s0.blocks, GraphOf(f)) && Grows(GraphOf(f), GraphOf(f))
  {
    hide Inv, StepEnd, StepElse, Start, Step, CloseFrame, Grows, FinishFunction, InRange;
    LoopFlatten(Locals(f), s0, f.body, [TEnd]);
    LoopCons(Locals(f), s1, TEnd, []);
    assert [TEnd] + [] == [TEnd];
    var s2 := StepEnd(s1).value;
    FinishGrows(f, s2);
    GrowsTrans(CloseFrame(s1).value.blocks, s2.blocks, GraphOf(f));
    GrowsTrans(s1.blocks, s2.blocks, GraphOf(f));
    GrowsTrans(s0.blocks, s1.blocks, GraphOf(f));
    GrowsSelf(GraphOf(f));
  }

  /** Where the stores of the locals leave the machine. */
  lemma StartSim(f: Func, args: seq<Val>) returns (n: nat)
    requires Valid(f) && ArgsOk(f, args) && Grows(Start(f).blocks, GraphOf(f))
    ensures Agrees(ProgOf(f, args), Locals(f), Start(f), RunN(ProgOf(f, args), ENTRY, n), [], InitialLocals(f, args))
  {
    hide Valid, Grows, Advance, RunN, GraphOf, StoreLocals, Opening, Agrees, MemOf, Inv, Live, Matches;
    n := |f.params| + |f.extra|;
    StartInv(f);
    var lo := InitialLocals(f, args);
    EntryFresh(f.ret);
    EntrySim(ProgOf(f, args), f, n);
    assert lo[..n] == lo;
    StartAgrees(f, ProgOf(f, args), RunN(ProgOf(f, args), ENTRY, n));
  }

  lemma StartAgrees(f: Func, p: Prog, cs: CState)
    requires ArgsOk(f, p.args) && SameStacks(Opening(f.ret), Start(f)) && Start(f).cur == FENTRY < |Start(f).blocks|
    requires cs == Running(FENTRY, |Start(f).blocks[FENTRY].insts|, map[], MemOf(InitialLocals(f, p.args)))
    ensures Agrees(p, Locals(f), Start(f), cs, [], InitialLocals(f, p.args))
  {
    hide MemOf, StoreLocals;
  }

  /** Preservation for one call and one fuel: the graph returns the same value, with the same locals, or
      traps with the same locals; and while the call has used up its fuel the graph has made at least as
      many steps and is still running. */
  lemma CallPreserved(f: Func, args: seq<Val>, fuel: nat) returns (n: nat)
    requires Valid(f) && ArgsOk(f, args)
    ensures Corresponds(Invoke(f, args, fuel), RunN(ProgOf(f, args), ENTRY, n))
    ensures Invoke(f, args, fuel).Diverging? ==> n >= fuel
  {
    hide Inv, StepEnd, Check, Start, Step, CloseFrame, Grows, Ready, FinishFunction, RunN, Agrees, Exec, SimOk, BeforeEnd, GraphOf,
      Corresponds, Unwind;
    var ctx, s0, p, lo := Ctx(Locals(f), [f.ret]), Start(f), ProgOf(f, args), InitialLocals(f, args);
    StartInv(f);
    var s1 := WholeFacts(f, args);
    var n0 := StartSim(f, args);
    var n1 := BodySim(p, ctx, s0, f.body, EMPTY, RunN(p, ENTRY, n0), [], lo, fuel);
    RunSplit(p, ENTRY, n0, n1);
    MoreSteps(p, Locals(f), s0, s1, [], n1, n0, fuel, RunN(p, ENTRY, n0 + n1), Exec(f.body, fuel, [], lo));
    var k := OutcomeSim(p, f, s0, s1, RunN(p, ENTRY, n0 + n1), n0 + n1, fuel, Exec(f.body, fuel, [], lo));
    RunSplit(p, ENTRY, n0 + n1, k);
    n := n0 + n1 + k;
  }

  /** A machine that has halted shows the same state ever after. */
  lemma HaltedFor(p: Prog, cs: CState, n: nat, m: nat)
    requires !RunN(p, cs, n).Running? && n <= m
    ensures RunN(p, cs, m) == RunN(p, cs, n)
  {
    hide RunN;
    RunSplit(p, cs, n, m - n);
    HaltedStays(p, RunN(p, cs, n), m - n);
  }

  /** Whenever the machine halts, the call has that outcome, for every fuel at least as large as the
      number of steps; in particular the machine never gets stuck. */
  lemma HaltReflected(f: Func, args: seq<Val>, n: nat, fuel: nat)
    requires Valid(f) && ArgsOk(f, args) && !RunN(ProgOf(f, args), ENTRY, n).Running? && fuel > n
    ensures !Invoke(f, args, fuel).Diverging? && Corresponds(Invoke(f, args, fuel), RunN(ProgOf(f, args), ENTRY, n))
  {
    hide Valid, RunN, ProgOf, Invoke;
    var p := ProgOf(f, args);
    var m := CallPreserved(f, args, fuel);
    if m <= n {
      if RunN(p, ENTRY, m).Running? {
      } else {
        HaltedFor(p, ENTRY, m, n);
      }
    } else {
      HaltedFor(p, ENTRY, n, m);
    }
  }

  /** No fuel is enough for the call. */
  ghost predicate Diverges(f: Func, args: seq<Val>) {
    forall fuel: nat :: Invoke(f, args, fuel).Diverging?
  }

  ghost predicate RunsForever(p: Prog) {
    forall n: nat :: RunN(p, ENTRY, n).Running?
  }

  /** The call runs for ever if and only if the machine does. */
  lemma DivergencePreserved(f: Func, args: seq<Val>)
    requires Valid(f) && ArgsOk(f, args)
    ensures Diverges(f, args) <==> RunsForever(ProgOf(f, args))
  {
    hide Valid, Advance, ProgOf, Invoke;
    var p := ProgOf(f, args);
    if Diverges(f, args) {
      forall n: nat
        ensures RunN(p, ENTRY, n).Running?
      {
        assert Invoke(f, args, n + 1).Diverging?;
        if !RunN(p, ENTRY, n).Running? {
          HaltReflected(f, args, n, n + 1);
        }
      }
    }
    if RunsForever(p) {
      forall fuel: nat
        ensures Invoke(f, args, fuel).Diverging?
      {
        var n := CallPreserved(f, args, fuel);
        assert RunN(p, ENTRY, n).Running?;
      }
    }
  }
}
