/** The finished graph of a function: every block ends in its one terminator, phi pairs and edges agree, every
    register is defined once, and every use is dominated by its definition. */
module WellFormed {
  import opened Values
  import opened Cfg
  import opened Wasm
  import opened TranslatorSpec
  import opened Invariant
  import opened Steps
  import opened Structure
  import opened Acceptance
  import opened Dominance
  import opened Ssa
  import opened SsaSteps
  import opened SsaBranches
  import opened SsaTokens
  import opened SsaFrames
  import opened Typing
  import opened FrameSim

  /** The phi a token breaks, if any. */
  function StepBreaks(s: TState, t: Tok): set<Label> {
    if |s.cf| > 0 && t == TEnd && (Live(s) || s.depth == 0) then Breaks(s) else {}
  }

  lemma DepthSsa(s: TState, n: nat, av: seq<set<nat>>, broken: set<Label>)
    requires InSsa(s, av, broken)
    ensures InSsa(s.(depth := n), av, broken)
  {
    hide Form;
    assert Scopes(s.(depth := n), av);
  }

  /** Every token, in every reachable state, keeps the graph in SSA form but for the phi it breaks. */
  lemma TokenSsa(lt: seq<WTy>, s: TState, t: Tok, av: seq<set<nat>>, broken: set<Label>) returns (av': seq<set<nat>>)
    requires Inv(s) && InRange(s) && InSsa(s, av, broken) && Step(lt, s, t).Some?
    ensures var s' := Step(lt, s, t).value;
            InSsa(s', av', broken + StepBreaks(s, t)) && Steady(s.blocks, s'.blocks)
  {
    hide Inv, InRange, InSsa, StepPlain, StepBlock, StepLoop, StepIf, StepElse, StepEnd, Steady, Ready;
    InvFacts(s);
    av' := av;
    assert broken + {} == broken;
    if Live(s) {
      match t
      case TPlain(i) => av' := PlainSsa(lt, s, i, av, broken);
      case TBlock(bt) => av' := BlockSsa(s, bt, av, broken);
      case TLoop(bt) => ReadyFloors(s); av' := LoopSsa(s, bt, av, broken);
      case TIf(bt) => ReadyFloors(s); av' := IfSsa(s, bt, av, broken);
      case TElse => ElseSsa(s, av, broken);
      case TEnd => EndSsa(s, av, broken);
    } else if s.depth == 0 && t == TElse {
      ElseSsa(s, av, broken);
    } else if s.depth == 0 && t == TEnd {
      EndSsa(s, av, broken);
    } else {
      SteadySelf(s.blocks);
      DepthSsa(s, Step(lt, s, t).value.depth, av, broken);
    }
  }

  // ----- token sequences -----

  /** All phis that a token sequence breaks: the ends of ifs with a result that were closed without an else. */
  ghost function AllBreaks(lt: seq<WTy>, s: TState, ts: seq<Tok>): set<Label>
    requires Inv(s)
    decreases |ts|
  {
    if ts == [] || Tick(lt, s, ts[0]).None? then {}
    else StepBreaks(s, ts[0]) + AllBreaks(lt, Tick(lt, s, ts[0]).value, ts[1..])
  }

  lemma {:induction false} LoopSsaForm(lt: seq<WTy>, s: TState, ts: seq<Tok>, av: seq<set<nat>>, broken: set<Label>)
    returns (av': seq<set<nat>>)
    requires Inv(s) && InSsa(s, av, broken) && TokenLoop(lt, s, ts).Some?
    ensures var s' := TokenLoop(lt, s, ts).value;
            InSsa(s', av', broken + AllBreaks(lt, s, ts)) && Steady(s.blocks, s'.blocks) && Grows(s.blocks, s'.blocks)
    decreases |ts|
  {
    hide Inv, InSsa, Steady, Grows, Step, Kept, StepBreaks;
    if ts == [] {
      av' := av;
      SteadySelf(s.blocks);
      GrowsSelf(s.blocks);
      assert broken + {} == broken;
    } else {
      TickIsStep(lt, s, ts[0]);
      var s1 := Tick(lt, s, ts[0]).value;
      var av1 := TokenSsa(lt, s, ts[0], av, broken);
      av' := LoopSsaForm(lt, s1, ts[1..], av1, broken + StepBreaks(s, ts[0]));
      var s' := TokenLoop(lt, s, ts).value;
      SteadyTrans(s.blocks, s1.blocks, s'.blocks);
      GrowsTrans(s.blocks, s1.blocks, s'.blocks);
      assert broken + StepBreaks(s, ts[0]) + AllBreaks(lt, s1, ts[1..]) == broken + AllBreaks(lt, s, ts);
    }
  }

  /** A phi counted as broken disagrees with its edges in the end. */
  lemma {:induction false} BrokenInTheEnd(lt: seq<WTy>, s: TState, ts: seq<Tok>, av: seq<set<nat>>, broken: set<Label>, t: Label)
    returns (a: Label)
    requires Inv(s) && InSsa(s, av, broken) && TokenLoop(lt, s, ts).Some? && t in AllBreaks(lt, s, ts)
    ensures var g := TokenLoop(lt, s, ts).value.blocks;
            && t < |g| && a < |g| && Closed(g[a]) && g[t].sig.Some?
            && multiset(Froms(g[t].incoming))[a] != multiset(Exits(g[a]))[t]
    decreases |ts|
  {
    hide Inv, InSsa, Steady, Grows, Step, Kept;
    TickIsStep(lt, s, ts[0]);
    var s1 := Tick(lt, s, ts[0]).value;
    var av1 := TokenSsa(lt, s, ts[0], av, broken);
    if t in StepBreaks(s, ts[0]) {
      a := Top(s).els.value;
      BreaksNow(lt, s, ts[0]);
      var av2 := LoopSsaForm(lt, s1, ts[1..], av1, broken + StepBreaks(s, ts[0]));
      DisagreeStays(s1.blocks, TokenLoop(lt, s1, ts[1..]).value.blocks, t, a);
    } else {
      a := BrokenInTheEnd(lt, s1, ts[1..], av1, broken + StepBreaks(s, ts[0]), t);
    }
  }

  lemma DisagreeStays(g: Graph, g': Graph, t: Label, a: Label)
    requires Steady(g, g') && Grows(g, g') && t < |g| && a < |g| && Closed(g[a]) && g[t].sig.Some?
    requires multiset(Froms(g[t].incoming))[a] != multiset(Exits(g[a]))[t]
    ensures t < |g'| && a < |g'| && Closed(g'[a]) && g'[t].sig.Some?
    ensures multiset(Froms(g'[t].incoming))[a] != multiset(Exits(g'[a]))[t]
  {
    assert BlkGrows(g[a], g'[a]) && BlkGrows(g[t], g'[t]);
  }

  lemma BreaksNow(lt: seq<WTy>, s: TState, t: Tok)
    requires Inv(s) && InRange(s) && Step(lt, s, t).Some? && StepBreaks(s, t) != {}
    ensures |s.cf| > 0 && Top(s).els.Some? && StepBreaks(s, t) == {Top(s).end}
    ensures var g, end, els := Step(lt, s, t).value.blocks, Top(s).end, Top(s).els.value;
            && end < |g| && els < |g| && Closed(g[els]) && g[end].sig.Some?
            && multiset(Froms(g[end].incoming))[els] != multiset(Exits(g[els]))[end]
  {
    InvFacts(s);
    hide Inv, StepEnd, InRange;
    EndBreaks(s);
  }

  // ----- whole functions -----

  const AV0: seq<set<nat>> := [{}, {}]

  /** The two blocks a function starts with: its end, with the result phi, and its entry. */
  function TwoBlocks(ret: BlockType): Graph {
    [Blk(ret, if ret.Some? then Some(0) else None, [], []), Blk(None, None, [], [])]
  }

  lemma OpeningForm(ret: BlockType, n: nat)
    requires ret.Some? ==> n > 0
    ensures Form(TwoBlocks(ret), n, AV0, {})
  {
    var g := TwoBlocks(ret);
    assert Exits(g[0]) == [] && Exits(g[1]) == [];
    assert forall r: nat, b: nat, k: int :: DefinedAt(g, r, b, k) ==> ret.Some? && r == 0 && b == 0 && k == -1;
    assert Froms(g[0].incoming) == [];
    hide Exits, Froms, DefinedAt;
  }

  lemma OpeningSsa(ret: BlockType)
    ensures InSsa(Opening(ret), AV0, {}) && Ready(Opening(ret)) && Opening(ret).cur < |Opening(ret).blocks|
  {
    OpeningBuilds(ret);
    OpeningForm(ret, Opening(ret).next);
    var s := Opening(ret);
    assert s.blocks == TwoBlocks(ret);
    hide Form, Core, TwoBlocks, Out, Grows;
    assert s.cf[0].end == 0 && Pending(s.cf, 0);
  }

  lemma {:induction false} StoreNeat(o: TState, av: seq<set<nat>>, s: TState, f: Func, n: nat)
    requires s.cur < |s.blocks| && Neat(o, av, s, {}, {}) && n <= |f.params| + |f.extra|
    ensures Neat(o, av, StoreLocals(s, f.params, f.extra, n), {}, {})
  {
    hide Neat, Now, GraphOk, Builds, Pending, Base;
    if n > 0 {
      StoreNeat(o, av, s, f, n - 1);
      var k, s1 := n - 1, StoreLocals(s, f.params, f.extra, n - 1);
      var v := if k < |f.params| then Param(k, f.params[k]) else Opd.Const(Zero(f.extra[k - |f.params|]));
      NeatCore(o, av, s1, {}, {});
      NeatInst(o, av, s1, Store(k, v), s1.next, {}, {});
    }
  }

  lemma StartSsa(f: Func) returns (av: seq<set<nat>>)
    ensures InSsa(Start(f), av, {}) && Inv(Start(f))
  {
    hide Partial, Neat, Ready, Inv, Opening, StoreLocals, Matches, Live;
    var o := Opening(f.ret);
    OpeningSsa(f.ret);
    StartInv(f);
    NeatStart(o, AV0, {});
    StoreNeat(o, AV0, o, f, |f.params| + |f.extra|);
    av := KeepSsa(o, AV0, Start(f), {}, {});
  }

  /** Every state the translator reaches is in SSA form, but for the phis broken on the way. */
  lemma ReachedSsa(f: Func, ts: seq<Tok>) returns (av: seq<set<nat>>)
    requires Inv(Start(f)) && TokenLoop(Locals(f), Start(f), ts).Some?
    ensures InSsa(TokenLoop(Locals(f), Start(f), ts).value, av, AllBreaks(Locals(f), Start(f), ts))
  {
    hide InSsa, Inv, Start;
    var av0 := StartSsa(f);
    av := LoopSsaForm(Locals(f), Start(f), ts, av0, {});
    assert {} + AllBreaks(Locals(f), Start(f), ts) == AllBreaks(Locals(f), Start(f), ts);
  }

  /** Each register on the operand stack is defined on every path to the insertion point. */
  ghost predicate OperandsOk(s: TState) {
    && s.cur < |s.blocks|
    && forall k, r :: 0 <= k < |s.stack| && r in RegsOf(s.stack[k]) ==>
         Dominated(s.blocks, r, s.cur, |s.blocks[s.cur].insts|)
  }

  lemma StateDominated(s: TState, av: seq<set<nat>>, broken: set<Label>)
    requires InSsa(s, av, broken)
    ensures OperandsOk(s)
  {
    SsaScopes(s, av, broken);
    SsaCertified(s, av, broken);
    hide InSsa, Certified, Dominated;
    assert s.blocks[s.cur].insts[..|s.blocks[s.cur].insts|] == s.blocks[s.cur].insts;
    forall k, r | 0 <= k < |s.stack| && r in RegsOf(s.stack[k])
      ensures Dominated(s.blocks, r, s.cur, |s.blocks[s.cur].insts|)
    {
      AvailableDominates(s.blocks, av, s.cur, |s.blocks[s.cur].insts|, r);
    }
  }

  /** That holds in every state the translator reaches, in live and in dead code, on any token sequence. */
  lemma OperandsDominated(f: Func, ts: seq<Tok>)
    ensures Inv(Start(f))
    ensures var r := TokenLoop(Locals(f), Start(f), ts);
            r.Some? ==>
              var s := r.value;
              s.cur < |s.blocks| && forall k :: 0 <= k < |s.stack| && s.stack[k].Reg? ==>
                Dominated(s.blocks, s.stack[k].id, s.cur, |s.blocks[s.cur].insts|)
  {
    hide InSsa, Inv, Start, Matches, Dominated;
    StartInv(f);
    var r := TokenLoop(Locals(f), Start(f), ts);
    if r.Some? {
      var av := ReachedSsa(f, ts);
      StateDominated(r.value, av, AllBreaks(Locals(f), Start(f), ts));
      assert forall o: Opd :: o.Reg? ==> o.id in RegsOf(o);
    }
  }

  lemma SsaCertified(s: TState, av: seq<set<nat>>, broken: set<Label>)
    requires InSsa(s, av, broken)
    ensures Certified(s.blocks, av) && FENTRY < |s.blocks| && av[FENTRY] == {}
  {
  }

  /** A finished graph: each block ends in its only terminator, branches lead to blocks, each register has one
      definition, and definitions dominate uses. */
  ghost predicate SsaGraph(g: Graph) {
    && (forall b :: 0 <= b < |g| ==> Closed(g[b]) && OneTerm(g[b]))
    && (forall a, k :: 0 <= a < |g| && 0 <= k < |Exits(g[a])| ==> Exits(g[a])[k] < |g|)
    && (exists n: nat :: Single(g, n))
    && UsesDominated(g)
  }

  /** Phi pairs match edges everywhere, and a phi that was erased has no edge into its block. */
  ghost predicate PhiForm(g: Graph) {
    && (forall t :: 0 <= t < |g| && g[t].sig.Some? ==> PhiAgrees(g, t))
    && (forall t, a :: 0 <= t < |g| && 0 <= a < |g| && g[t].sig.Some? && g[t].phi.None? ==> t !in Exits(g[a]))
  }

  /** The return closes the last open block. */
  lemma ReturnSsa(f: Func, s: TState, av: seq<set<nat>>, broken: set<Label>)
    requires Inv(s) && s.cur < |s.blocks| == |av| && FinishFunction(f, s).Some? && InSsa(s, av, broken)
    ensures var s' := FinishFunction(f, s).value;
            && Form(s'.blocks, s'.next, av, broken) && FENTRY < |av| && av[FENTRY] == {}
            && (forall b :: 0 <= b < |s'.blocks| ==> Closed(s'.blocks[b]))
            && Steady(s.blocks, s'.blocks) && Grows(s.blocks, s'.blocks) && GraphOk(s'.blocks, s'.next)
  {
    hide InSsa, Inv, Core, CurOpen, Form, Steady, Grows, GraphOk, Closed, Out;
    if f.ret.Some? {
      FinishPop(s, av, broken);
      RetSsa(Drop(s), av, Some(TopOpd(s)), broken);
    } else {
      FinishOpen(s);
      RetSsa(s, av, None, broken);
    }
  }

  lemma RetSsa(d: TState, av: seq<set<nat>>, r: Option<Opd>, broken: set<Label>)
    requires d.cur < |d.blocks| == |av| && Core(d) && CurOpen(d) && d.cf == [] && InSsa(d, av, broken)
    requires r.Some? ==> RegsOf(r.value) <= Out(d.blocks, av, d.cur)
    ensures var s' := Emit(d, Ret(r));
            && Form(s'.blocks, s'.next, av, broken) && FENTRY < |av| && av[FENTRY] == {}
            && (forall b :: 0 <= b < |s'.blocks| ==> Closed(s'.blocks[b]))
            && Steady(d.blocks, s'.blocks) && Grows(d.blocks, s'.blocks) && GraphOk(s'.blocks, s'.next)
  {
    hide Scopes, Form, Out, Steady, Grows, GraphOk, Entries, Frames, Regs;
    EmitCore(d, Ret(r));
    LeaveSsa(d, av, [], None, Ret(r), {}, broken);
  }

  lemma FinishPop(s: TState, av: seq<set<nat>>, broken: set<Label>)
    requires Inv(s) && s.cf == [] && CanPop(s) && InSsa(s, av, broken)
    ensures s.cur < |s.blocks| == |av| && Core(Drop(s)) && CurOpen(Drop(s)) && InSsa(Drop(s), av, broken)
    ensures RegsOf(TopOpd(s)) <= Out(s.blocks, av, s.cur)
  {
    DropCore(s);
    SsaDrop(s, av, broken);
    SsaReads(s, av, broken);
    hide Core, InSsa;
  }

  lemma FinishOpen(s: TState)
    requires Inv(s) && s.cf == []
    ensures Core(s) && s.cur < |s.blocks| && CurOpen(s)
  {
  }

  lemma FormTerms(g: Graph, n: nat, av: seq<set<nat>>, broken: set<Label>)
    requires Form(g, n, av, broken) && GraphOk(g, n)
    requires forall b :: 0 <= b < |g| ==> Closed(g[b])
    ensures forall t, k :: 0 <= t < |g| && 0 <= k < |g[t].incoming| ==> g[t].incoming[k].from < |g|
    ensures |av| == |g| && forall b :: 0 <= b < |g| ==> OneTerm(g[b])
  {
    hide Phis;
    forall t, k | 0 <= t < |g| && 0 <= k < |g[t].incoming|
      ensures g[t].incoming[k].from < |g|
    {
      assert BlkOk(g, n, g[t]) && FromClosed(g, g[t].incoming[k]);
    }
  }

  lemma FormIsSsa(g: Graph, n: nat, av: seq<set<nat>>, broken: set<Label>)
    requires Form(g, n, av, broken) && FENTRY < |av| && av[FENTRY] == {} && GraphOk(g, n)
    requires forall b :: 0 <= b < |g| ==> Closed(g[b])
    ensures SsaGraph(g)
    ensures broken == {} ==> PhiForm(g)
  {
    hide Certified, UsesDominated, Single, Exits;
    FormTerms(g, n, av, broken);
    CertifiedDominates(g, av);
    if broken == {} {
      forall t, a | 0 <= t < |g| && 0 <= a < |g| && g[t].sig.Some? && g[t].phi.None?
        ensures t !in Exits(g[a])
      {
        assert BlkOk(g, n, g[t]) && PhiAgrees(g, t);
        assert Froms(g[t].incoming) == [];
      }
    }
  }

  /** Whatever token sequence the translator accepts, its graph is in SSA form; and the phi pairs agree with
      the edges if and only if no if with a result was closed without an else. */
  lemma AcceptedGraph(f: Func, ts: seq<Tok>)
    requires Translate(f, ts).Some?
    ensures Inv(Start(f))
    ensures var g := Translate(f, ts).value.blocks;
            SsaGraph(g) && (PhiForm(g) <==> AllBreaks(Locals(f), Start(f), ts) == {})
  {
    hide InSsa, Inv, Start, FinishFunction, Form, SsaGraph, PhiForm, Matches, Steady, Grows, GraphOk, PhiAgrees;
    StartInv(f);
    var lt, s0 := Locals(f), Start(f);
    var s, broken := TokenLoop(lt, s0, ts).value, AllBreaks(lt, s0, ts);
    var av := ReachedSsa(f, ts);
    InvFacts(s);
    SsaScopes(s, av, broken);
    ReturnSsa(f, s, av, broken);
    var s' := FinishFunction(f, s).value;
    FormIsSsa(s'.blocks, s'.next, av, broken);
    if broken != {} {
      var t :| t in broken;
      var av0 := StartSsa(f);
      var a := BrokenInTheEnd(lt, s0, ts, av0, {}, t);
      DisagreeStays(s.blocks, s'.blocks, t, a);
      NotPhiForm(s'.blocks, t, a);
    }
  }

  lemma NotPhiForm(g: Graph, t: Label, a: Label)
    requires t < |g| && a < |g| && g[t].sig.Some?
    requires multiset(Froms(g[t].incoming))[a] != multiset(Exits(g[a]))[t]
    ensures !PhiForm(g)
  {
  }

  // ----- structured functions -----

  /** The instructions that control does not go on after. */
  predicate Leaves(i: Simple) { i.IUnreachable? || i.IReturn? || i.IBr? || i.IBrTable? }

  /** Every if with a result has an else, up to where the code is dead. */
  predicate LivePaired(c: Code) {
    match c
    case Done => true
    case Plain(i, next) => Leaves(i) || LivePaired(next)
    case Block(_, body, next) => LivePaired(body) && LivePaired(next)
    case Loop(_, body, next) => LivePaired(body) && LivePaired(next)
    case IfElse(_, thn, els, next) => LivePaired(thn) && LivePaired(els) && LivePaired(next)
    case IfOnly(bt, thn, next) => bt.None? && LivePaired(thn) && LivePaired(next)
  }

  lemma {:induction false} CheckPaired(ctx: Ctx, c: Code, st: Opds)
    requires Check(ctx, c, st).Some?
    ensures LivePaired(c)
    decreases c
  {
    match c
    case Done =>
    case Plain(i, next) => CheckPaired(ctx, next, CheckSimple(ctx, i, st).value);
    case Block(bt, body, next) =>
      CheckPaired(Inner(ctx, bt), body, EMPTY);
      CheckPaired(ctx, next, PushBt(st, bt));
    case Loop(bt, body, next) =>
      CheckPaired(Inner(ctx, None), body, EMPTY);
      CheckPaired(ctx, next, PushBt(st, bt));
    case IfElse(bt, thn, els, next) =>
      CheckPaired(Inner(ctx, bt), thn, EMPTY);
      CheckPaired(Inner(ctx, bt), els, EMPTY);
      CheckPaired(ctx, next, PushBt(PopTy(st, I32).value, bt));
    case IfOnly(bt, thn, next) =>
      CheckPaired(Inner(ctx, bt), thn, EMPTY);
      CheckPaired(ctx, next, PopTy(st, I32).value);
  }

  lemma BreaksCons(lt: seq<WTy>, s: TState, t: Tok, rest: seq<Tok>)
    requires Inv(s) && Tick(lt, s, t).Some?
    ensures AllBreaks(lt, s, [t] + rest) == StepBreaks(s, t) + AllBreaks(lt, Tick(lt, s, t).value, rest)
  {
    assert ([t] + rest)[1..] == rest;
  }

  /** A token that opens or closes nothing that could break. */
  lemma QuietToken(lt: seq<WTy>, s: TState, t: Tok, rest: seq<Tok>)
    requires Inv(s) && Tick(lt, s, t).Some? && StepBreaks(s, t) == {}
    ensures AllBreaks(lt, s, [t] + rest) == AllBreaks(lt, Tick(lt, s, t).value, rest)
  {
    BreaksCons(lt, s, t, rest);
    assert {} + AllBreaks(lt, Tick(lt, s, t).value, rest) == AllBreaks(lt, Tick(lt, s, t).value, rest);
  }

  lemma {:induction false} DeadBreaks(lt: seq<WTy>, s: TState, c: Code, rest: seq<Tok>)
    requires Inv(s) && !Live(s)
    ensures AllBreaks(lt, s, Flatten(c) + rest) == AllBreaks(lt, s, rest)
    decreases c, 1
  {
    hide Inv, Step, Kept, Breaks;
    match c
    case Done => assert Flatten(c) + rest == rest;
    case Plain(i, next) =>
      assert Flatten(c) + rest == [TPlain(i)] + (Flatten(next) + rest);
      DeadToken(lt, s, TPlain(i));
      QuietToken(lt, s, TPlain(i), Flatten(next) + rest);
      DeadBreaks(lt, s, next, rest);
    case Block(bt, body, next) => DeadNestBreaks(lt, s, c, TBlock(bt), body, next, rest);
    case Loop(bt, body, next) => DeadNestBreaks(lt, s, c, TLoop(bt), body, next, rest);
    case IfOnly(bt, thn, next) => DeadNestBreaks(lt, s, c, TIf(bt), thn, next, rest);
    case IfElse(bt, thn, els, next) => DeadIfBreaks(lt, s, c, rest);
  }

  lemma {:induction false} DeadIfBreaks(lt: seq<WTy>, s: TState, c: Code, rest: seq<Tok>)
    requires Inv(s) && !Live(s) && c.IfElse?
    ensures AllBreaks(lt, s, Flatten(c) + rest) == AllBreaks(lt, s, rest)
    decreases c, 0
  {
    hide Inv, Step, Kept, Breaks, Flatten;
    var IfElse(bt, thn, els, next) := c;
    var s1, tail := s.(depth := s.depth + 1), Flatten(els) + ([TEnd] + (Flatten(next) + rest));
    RegroupElse(c, rest);
    DeadToken(lt, s, TIf(bt));
    QuietToken(lt, s, TIf(bt), Flatten(thn) + ([TElse] + tail));
    DeadBreaks(lt, s1, thn, [TElse] + tail);
    DeadToken(lt, s1, TElse);
    QuietToken(lt, s1, TElse, tail);
    DeadBreaks(lt, s1, els, [TEnd] + (Flatten(next) + rest));
    DeadToken(lt, s1, TEnd);
    QuietToken(lt, s1, TEnd, Flatten(next) + rest);
    DeadBreaks(lt, s, next, rest);
  }

  lemma {:induction false} DeadNestBreaks(lt: seq<WTy>, s: TState, c: Code, t: Tok, body: Code, next: Code, rest: seq<Tok>)
    requires Inv(s) && !Live(s) && (t.TBlock? || t.TLoop? || t.TIf?) && body < c && next < c
    requires Flatten(c) == [t] + Flatten(body) + [TEnd] + Flatten(next)
    ensures AllBreaks(lt, s, Flatten(c) + rest) == AllBreaks(lt, s, rest)
    decreases c, 0
  {
    hide Inv, Step, Kept, Breaks, Flatten;
    var s1 := s.(depth := s.depth + 1);
    assert Flatten(c) + rest == [t] + (Flatten(body) + ([TEnd] + (Flatten(next) + rest)));
    DeadToken(lt, s, t);
    QuietToken(lt, s, t, Flatten(body) + ([TEnd] + (Flatten(next) + rest)));
    DeadBreaks(lt, s1, body, [TEnd] + (Flatten(next) + rest));
    DeadToken(lt, s1, TEnd);
    QuietToken(lt, s1, TEnd, Flatten(next) + rest);
    DeadBreaks(lt, s, next, rest);
  }

  /** Exactly those instructions leave a live frame dead. */
  lemma LeavesDead(lt: seq<WTy>, s: TState, i: Simple)
    requires InRange(s) && |s.cf| > 0 && Live(s) && StepPlain(lt, s, i).Some?
    ensures |StepPlain(lt, s, i).value.cf| > 0
    ensures Live(StepPlain(lt, s, i).value) <==> !Leaves(i)
  {
    hide EmitBinary, PushBool, Leave, BrIfTest, Targets, SameSig, BranchDepth, TrapIf, InRange, StepBrTable, StepNum;
    BranchRange(s, 0);
    match i
    case INum(op) => NumStacks(s, op);
    case IBr(n) => BranchRange(s, n);
    case IBrTable(ns, d) => BrTableShape(s, ns, d);
    case _ =>
  }

  lemma NumStacks(s: TState, op: NumOp)
    requires s.cur < |s.blocks| && StepNum(s, op).Some?
    ensures StepNum(s, op).value.cf == s.cf
  {
    hide EmitBinary, PushBool, EmitBin;
  }

  /** A live body breaks no phi if and only if its live ifs with a result have an else. */
  lemma {:induction false} BodyBreaks(lt: seq<WTy>, s: TState, c: Code, rest: seq<Tok>)
    requires Inv(s) && |s.cf| > 0 && Live(s) && Trans(lt, s, c).Some?
    ensures AllBreaks(lt, s, Flatten(c) + rest) == {} <==>
            LivePaired(c) && AllBreaks(lt, Trans(lt, s, c).value, rest) == {}
    decreases c, 1
  {
    hide Inv, Step, Kept, Breaks, Ready, StepPlain, Leaves;
    match c
    case Done => assert Flatten(c) + rest == rest;
    case Plain(i, next) =>
      assert Flatten(c) + rest == [TPlain(i)] + (Flatten(next) + rest);
      QuietToken(lt, s, TPlain(i), Flatten(next) + rest);
      InvFacts(s);
      PlainTick(lt, s, i);
      LeavesDead(lt, s, i);
      var s1 := Tick(lt, s, TPlain(i)).value;
      if Leaves(i) {
        DeadBreaks(lt, s1, next, rest);
        DeadBodySkipped(lt, s1, next);
      } else {
        BodyBreaks(lt, s1, next, rest);
      }
    case Block(bt, body, next) => FrameBreaks(lt, s, c, TBlock(bt), bt, body, next, rest);
    case Loop(bt, body, next) => FrameBreaks(lt, s, c, TLoop(bt), bt, body, next, rest);
    case IfOnly(bt, thn, next) => FrameBreaks(lt, s, c, TIf(bt), bt, thn, next, rest);
    case IfElse(bt, thn, els, next) => TwoArmBreaks(lt, s, c, rest);
  }

  /** A nested body and its end, which breaks the phi of an if that still waits for its else. */
  lemma {:induction false} NestBreaks(lt: seq<WTy>, s: TState, s1: TState, bt: BlockType, body: Code, rest: seq<Tok>)
    requires Inv(s) && |s.cf| > 0 && Live(s) && Inv(s1) && Opens(s, bt, s1)
    requires Nest(lt, s1, body).Some?
    ensures AllBreaks(lt, s1, Flatten(body) + ([TEnd] + rest)) == {} <==>
            && (Top(s1).els.None? || bt.None?) && LivePaired(body)
            && AllBreaks(lt, Nest(lt, s1, body).value, rest) == {}
    decreases body, 2
  {
    hide Inv, Step, Kept, Ready, Flatten, LivePaired;
    BodyBreaks(lt, s1, body, [TEnd] + rest);
    BodyFrame(lt, s1, body);
    var s2 := Trans(lt, s1, body).value;
    BreaksCons(lt, s2, TEnd, rest);
    assert StepBreaks(s2, TEnd) == {} <==> Top(s1).els.None? || bt.None? by {
      assert StepBreaks(s2, TEnd) == Breaks(s2);
      assert Top(s2).end in Breaks(s2) <==> Top(s2).els.Some? && Top(s2).sig.Some?;
    }
    NoneOfBoth(StepBreaks(s2, TEnd), AllBreaks(lt, Nest(lt, s1, body).value, rest));
  }

  lemma NoneOfBoth(a: set<Label>, b: set<Label>)
    ensures a + b == {} <==> a == {} && b == {}
  {
    assert a <= a + b && b <= a + b;
  }

  lemma {:induction false} FrameBreaks(lt: seq<WTy>, s: TState, c: Code, t: Tok, bt: BlockType, body: Code, next: Code,
                                       rest: seq<Tok>)
    requires Inv(s) && |s.cf| > 0 && Live(s) && body < c && next < c
    requires t == TBlock(bt) || t == TLoop(bt) || t == TIf(bt)
    requires Flatten(c) == [t] + Flatten(body) + [TEnd] + Flatten(next)
    requires Tick(lt, s, t).Some? && Nest(lt, Tick(lt, s, t).value, body).Some?
    requires Trans(lt, Nest(lt, Tick(lt, s, t).value, body).value, next).Some?
    ensures var s3 := Nest(lt, Tick(lt, s, t).value, body).value;
            AllBreaks(lt, s, Flatten(c) + rest) == {} <==>
            && (t.TIf? ==> bt.None?) && LivePaired(body) && LivePaired(next)
            && AllBreaks(lt, Trans(lt, s3, next).value, rest) == {}
    decreases c, 0
  {
    hide Inv, Step, Kept, Ready, Flatten, LivePaired;
    assert Flatten(c) + rest == [t] + (Flatten(body) + ([TEnd] + (Flatten(next) + rest)));
    var s1 := Tick(lt, s, t).value;
    QuietToken(lt, s, t, Flatten(body) + ([TEnd] + (Flatten(next) + rest)));
    OpenTick(lt, s, t, bt);
    FreshTop(s, bt);
    NestBreaks(lt, s, s1, bt, body, Flatten(next) + rest);
    NestedFrame(lt, s, s1, bt, body);
    BodyBreaks(lt, Nest(lt, s1, body).value, next, rest);
  }

  lemma FreshTop(s: TState, bt: BlockType)
    requires s.cur < |s.blocks|
    ensures Top(StepBlock(s, bt)).els.None? && Top(StepLoop(s, bt)).els.None?
  {
  }

  lemma {:induction false} TwoArmBreaks(lt: seq<WTy>, s: TState, c: Code, rest: seq<Tok>)
    requires Inv(s) && |s.cf| > 0 && Live(s) && c.IfElse? && Trans(lt, s, c).Some?
    ensures AllBreaks(lt, s, Flatten(c) + rest) == {} <==>
            && LivePaired(c.thn) && LivePaired(c.els) && LivePaired(c.next)
            && AllBreaks(lt, Trans(lt, s, c).value, rest) == {}
    decreases c, 0
  {
    hide Inv, Step, Kept, Ready, Flatten, Breaks, LivePaired;
    var IfElse(bt, thn, els, next) := c;
    var tail := Flatten(els) + ([TEnd] + (Flatten(next) + rest));
    RegroupElse(c, rest);
    var s1 := Tick(lt, s, TIf(bt)).value;
    QuietToken(lt, s, TIf(bt), Flatten(thn) + ([TElse] + tail));
    OpenTick(lt, s, TIf(bt), bt);
    BodyBreaks(lt, s1, thn, [TElse] + tail);
    BodyFrame(lt, s1, thn);
    var s2 := Trans(lt, s1, thn).value;
    var s3 := Tick(lt, s2, TElse).value;
    QuietToken(lt, s2, TElse, tail);
    ElseTick(lt, s, s1, bt, s2);
    NestBreaks(lt, s, s3, bt, els, Flatten(next) + rest);
    NestedFrame(lt, s, s3, bt, els);
    BodyBreaks(lt, Nest(lt, s3, els).value, next, rest);
  }

  /** For every structured function that is accepted, valid or not, phi pairs and edges agree if and only if every live
      if with a result has an else. */
  lemma PhisExact(f: Func)
    requires Translate(f, Flatten(f.body) + [TEnd]).Some?
    ensures PhiForm(Translate(f, Flatten(f.body) + [TEnd]).value.blocks) <==> LivePaired(f.body)
  {
    hide Inv, Start, SsaGraph, PhiForm, Step, FinishFunction, Matches, LivePaired;
    var lt, s0 := Locals(f), Start(f);
    StartInv(f);
    AcceptedGraph(f, Flatten(f.body) + [TEnd]);
    OwnTop(f);
    LoopFlatten(lt, s0, f.body, [TEnd]);
    BodyBreaks(lt, s0, f.body, [TEnd]);
    BodyFrame(lt, s0, f.body);
    LastToken(lt, Trans(lt, s0, f.body).value);
  }

  /** The graph of a valid function is in SSA form, and every phi agrees with the edges into its block. */
  lemma ValidGraph(f: Func)
    requires Valid(f)
    ensures Translate(f, Flatten(f.body) + [TEnd]).Some?
    ensures SsaGraph(Translate(f, Flatten(f.body) + [TEnd]).value.blocks)
    ensures PhiForm(Translate(f, Flatten(f.body) + [TEnd]).value.blocks)
  {
    hide Inv, Start, Check, Matches, SsaGraph, PhiForm, Step, FinishFunction, Live;
    ValidIsTranslated(f);
    CheckPaired(Ctx(Locals(f), [f.ret]), f.body, EMPTY);
    AcceptedGraph(f, Flatten(f.body) + [TEnd]);
    PhisExact(f);
  }

  // i32.const 1; if (result i32) i32.const 2 end; drop
  function BareIf(): Code {
    Plain(IConst(Val(I32, 1)), IfOnly(Some(I32), Plain(IConst(Val(I32, 2)), Done), Plain(IDrop, Done)))
  }

  /** The phi of that if has one pair and two edges, and the translator takes it. */
  lemma BareIfBreaks()
    ensures var f := Func([], [], None, BareIf());
            Translate(f, Flatten(f.body) + [TEnd]).Some? && !PhiForm(Translate(f, Flatten(f.body) + [TEnd]).value.blocks)
  {
    hide Translate, PhiForm, Taken, Flatten;
    var f := Func([], [], None, BareIf());
    BareIfTaken();
    AcceptedExact(f);
    PhisExact(f);
  }

  lemma BareIfTaken()
    ensures Taken(Func([], [], None, BareIf()))
  {
    var ctx, inner := Ctx([], [None]), Ctx([], [None, Some(I32)]);
    var one := Opds([Known(I32)], false);
    assert TopCtx(Func([], [], None, BareIf())) == ctx && Inner(ctx, Some(I32)) == inner;
    assert PushTy(EMPTY, I32) == one && PopAny(one).value.1 == EMPTY;
    assert CheckLive(false, inner, Plain(IConst(Val(I32, 2)), Done), EMPTY) == Some(one);
    assert CheckLive(false, ctx, Plain(IDrop, Done), one) == Some(EMPTY);
  }

  // ----- running into a phi without a pair -----

  lemma {:induction false} NoPair(inc: seq<Incoming>, from: Label)
    requires multiset(Froms(inc))[from] == 0
    ensures Lookup(inc, from).None?
  {
    if inc != [] {
      assert Froms(inc) == [inc[0].from] + Froms(inc[1..]);
      NoPair(inc[1..], from);
    }
  }

  /** The absent arm of an if with a result, in any later graph: the machine is stuck at the phi; only when nothing else
      reaches the end, so that the phi is erased, does it arrive there, where the operand is a zero. */
  lemma BareFall(p: Prog, s: TState, env: Env, mem: Env)
    requires Inv(s) && InRange(s) && |s.cf| > 0 && s.depth == 0 && StepEnd(s).Some? && Breaks(s) != {}
    requires Grows(StepEnd(s).value.blocks, p.blocks) && Steady(StepEnd(s).value.blocks, p.blocks)
    ensures var end, els := Top(s).end, Top(s).els.value;
            && end < |p.blocks|
            && Advance(p, Running(els, 0, env, mem)) == if p.blocks[end].phi.Some? then Stuck else Running(end, 0, env, mem)
  {
    hide Inv, InRange, StepEnd, CloseFrame, Froms;
    EndShape(s);
    EndBreaks(s);
    var g, end, els := StepEnd(s).value.blocks, Top(s).end, Top(s).els.value;
    assert BlkGrows(g[els], p.blocks[els]);
    assert p.blocks[els].insts[0] == Br(end) by {
      assert g[els].insts[0] == [Br(end)][0];
    }
    NoPair(p.blocks[end].incoming, els);
  }

  lemma OwnTop(f: Func)
    requires SameStacks(Opening(f.ret), Start(f))
    ensures |Start(f).cf| > 0 && Top(Start(f)).els.None?
  {
  }

  lemma LastToken(lt: seq<WTy>, s: TState)
    requires Inv(s) && |s.cf| > 0 && Top(s).els.None?
    ensures AllBreaks(lt, s, [TEnd]) == {}
  {
    hide Inv, Step;
    if Tick(lt, s, TEnd).Some? {
      assert [TEnd] + [] == [TEnd];
      BreaksCons(lt, s, TEnd, []);
    }
  }
}
