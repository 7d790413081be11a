/** Else and end keep the graph in SSA form, except at the one place where the translator breaks it: the end of
    an if with a result and no else. */
module SsaFrames {
  import opened Values
  import opened Cfg
  import opened Wasm
  import opened TranslatorSpec
  import opened Invariant
  import opened Steps
  import opened Ssa
  import opened SsaSteps
  import opened SsaBranches
  import opened SsaTokens

  /** A frame whose code is finished: every block is closed or waited for. */
  ghost predicate Shut(s: TState, av: seq<set<nat>>, c: TState, broken: set<Label>) {
    && |c.cf| > 0 && |c.blocks| == |av| && FENTRY < |av| && av[FENTRY] == {}
    && Form(c.blocks, c.next, av, broken) && Scopes(c, av) && Steady(s.blocks, c.blocks)
    && (forall b :: 0 <= b < |c.blocks| ==> Closed(c.blocks[b]) || Pending(c.cf, b))
    && |c.stack| == Top(c).outerStack
  }

  lemma CloseSsa(s: TState, av: seq<set<nat>>, broken: set<Label>)
    requires Inv(s) && InRange(s) && |s.cf| > 0 && InSsa(s, av, broken) && CloseFrame(s).Some?
    ensures Shut(s, av, CloseFrame(s).value, broken)
  {
    hide Inv, Core, InSsa, Shut, JumpTo;
    CloseFrameCore(s);
    var e, c := Top(s), CloseFrame(s).value;
    if e.reachable {
      hide InRange;
      LiveReady(s);
      LabelAim(s, av, broken, |s.cf| - 1);
      AimIs(s, av, BlockEntry(e.sig, e.end));
      JumpSsa(s, BlockEntry(e.sig, e.end), av, broken);
      ClosedLive(s, av, c, BlockEntry(e.sig, e.end), broken);
    } else {
      ClosedDead(s, av, broken);
    }
  }

  lemma LiveReady(s: TState)
    requires Inv(s) && |s.cf| > 0 && Live(s)
    ensures Ready(s) && Core(s) && s.cur < |s.blocks|
  {
  }

  lemma ClosedDead(s: TState, av: seq<set<nat>>, broken: set<Label>)
    requires Inv(s) && |s.cf| > 0 && InSsa(s, av, broken) && !Live(s)
    ensures Shut(s, av, s, broken)
  {
    hide Form, Core, Pending, Closed;
    SteadySelf(s.blocks);
  }

  lemma ClosedLive(s: TState, av: seq<set<nat>>, c: TState, l: BlockEntry, broken: set<Label>)
    requires InSsa(s, av, broken) && Core(s) && |s.cf| > 0 && (l.sig.Some? ==> CanPop(s))
    requires Left(Leaving(s, l), av, c, {}, broken) && |c.stack| == Top(s).outerStack && c.stack <= s.stack
    ensures Shut(s, av, c, broken)
  {
    hide Form, Out, Pending, Closed, Steady, Core, Covered;
    CutScopes(s, av, c);
  }

  /** Scopes only look at the operands below the floor of the top frame. */
  lemma CutScopes(s: TState, av: seq<set<nat>>, c: TState)
    requires Scopes(s, av) && Core(s) && |s.cf| > 0 && c.cf == s.cf && c.labels == s.labels
    requires Top(s).outerStack <= |s.stack| && c.stack == s.stack[..Top(s).outerStack]
    ensures Scopes(c, av)
  {
    FloorsBelow(s);
    hide Core;
    forall i | 0 <= i < |s.cf|
      ensures c.stack[..c.cf[i].outerStack] == s.stack[..s.cf[i].outerStack]
    {
    }
  }

  /** A graph that is only broken in some blocks is only broken in more. */
  lemma FormMore(g: Graph, n: nat, av: seq<set<nat>>, broken: set<Label>, more: set<Label>)
    requires Form(g, n, av, broken) && broken <= more
    ensures Form(g, n, av, more)
  {
    hide PhiAgrees, OneTerm, DefinedAt, UsesOk, Out, Exits;
  }

  // ----- else -----

  lemma OpenElseSsa(s: TState, av: seq<set<nat>>, c: TState, broken: set<Label>)
    requires Shut(s, av, c, broken) && Core(c) && Top(c).els.Some?
    ensures InSsa(OpenElse(c), av, broken) && OpenElse(c).blocks == c.blocks
  {
    hide Form, Closed, Steady;
    assert PendingOk(c.blocks, Top(c)) && Top(c).elseReachable by {
      assert FrameOk(Top(c), |c.cf| - 1, |c.stack|);
    }
    hide Core, PendingOk;
    var r, e := OpenElse(c), Top(c);
    ElseAccounted(c);
    assert c.stack[..e.outerStack] == c.stack;
    assert Scopes(r, av);
  }

  lemma ElseAccounted(c: TState)
    requires |c.cf| > 0 && Top(c).els.Some? && Top(c).elseReachable
    requires forall b :: 0 <= b < |c.blocks| ==> Closed(c.blocks[b]) || Pending(c.cf, b)
    ensures Accounted(OpenElse(c), {})
  {
    var r := OpenElse(c);
    forall b | Pending(c.cf, b) && b != Top(c).els.value
      ensures Pending(r.cf, b)
    {
      var i :| 0 <= i < |c.cf| && (c.cf[i].end == b || c.cf[i].els == Some(b));
      assert r.cf[i].end == c.cf[i].end && (i < |c.cf| - 1 ==> r.cf[i] == c.cf[i]);
    }
  }

  lemma ElseSsa(s: TState, av: seq<set<nat>>, broken: set<Label>)
    requires Inv(s) && InRange(s) && |s.cf| > 0 && InSsa(s, av, broken) && StepElse(s).Some?
    ensures InSsa(StepElse(s).value, av, broken) && Steady(s.blocks, StepElse(s).value.blocks)
  {
    hide CloseFrame, Inv, Core, InSsa, Shut;
    CloseFrameCore(s);
    CloseSsa(s, av, broken);
    OpenElseSsa(s, av, CloseFrame(s).value, broken);
    ShutSteady(s, av, CloseFrame(s).value, broken);
  }

  lemma ShutSteady(s: TState, av: seq<set<nat>>, c: TState, broken: set<Label>)
    requires Shut(s, av, c, broken)
    ensures Steady(s.blocks, c.blocks)
  {
  }

  // ----- end -----

  /** The blocks whose phi an end breaks: the end of an if with a result that has no else. */
  function Breaks(s: TState): set<Label>
    requires |s.cf| > 0
  {
    if Top(s).els.Some? && Top(s).sig.Some? then {Top(s).end} else {}
  }

  /** An entry's own blocks, and what is available in them. */
  ghost predicate OwnBlocks(g: Graph, av: seq<set<nat>>, e: CFEntry) {
    && e.end < |g| == |av| && g[e.end].insts == [] && g[e.end].sig == e.sig
    && (e.els.Some? ==> && e.els.value < e.end && g[e.els.value].insts == [] && av[e.els.value] == av[e.end])
  }

  lemma ToEndForm(p: TState, e: CFEntry, av: seq<set<nat>>, broken: set<Label>)
    requires GraphOk(p.blocks, p.next) && Form(p.blocks, p.next, av, broken) && OwnBlocks(p.blocks, av, e)
    ensures var s := ToEnd(p, e); var more := broken + if e.els.Some? && e.sig.Some? then {e.end} else {};
            && Form(s.blocks, s.next, av, more) && Steady(p.blocks, s.blocks)
            && s.next == p.next && SameStacks(p, s) && s.cur == e.end && |s.blocks| == |p.blocks|
            && s.blocks[e.end] == p.blocks[e.end]
  {
    var more := broken + if e.els.Some? && e.sig.Some? then {e.end} else {};
    hide Form, GraphOk, Steady;
    SteadySelf(p.blocks);
    FormMore(p.blocks, p.next, av, broken, more);
    if e.els.Some? {
      var s1 := At(p, e.els.value);
      assert Out(s1.blocks, av, e.els.value) >= av[e.end];
      assert Succs(Br(e.end)) == [e.end];
      PlainForm(s1, av, Br(e.end), more);
    }
  }

  lemma EraseForm(g: Graph, n: nat, av: seq<set<nat>>, broken: set<Label>, end: Label)
    requires GraphOk(g, n) && Form(g, n, av, broken) && end < |g| && g[end].insts == [] && g[end].incoming == []
    ensures var g' := g[end := g[end].(phi := None)]; Form(g', n, av, broken) && Steady(g, g')
  {
    var g' := g[end := g[end].(phi := None)];
    forall b | 0 <= b < |g|
      ensures g'[b].insts == g[b].insts && g'[b].incoming == g[b].incoming && g'[b].sig == g[b].sig
      ensures Exits(g'[b]) == Exits(g[b]) && (b != end ==> Out(g', av, b) == Out(g, av, b))
    {
    }
    assert Exits(g[end]) == [] && !Closed(g[end]);
    assert forall r: nat, b: nat, k: int :: DefinedAt(g', r, b, k) ==> DefinedAt(g, r, b, k);
    ErasePhis(g, g', broken);
    hide Exits, Out, PhiAgrees, Phis;
    forall t, k | 0 <= t < |g'| && 0 <= k < |g'[t].incoming| && g'[t].incoming[k].from < |g'|
      ensures RegsOf(g'[t].incoming[k].v) <= Out(g', av, g'[t].incoming[k].from)
    {
      assert BlkOk(g, n, g[t]) && FromClosed(g, g[t].incoming[k]);
    }
  }

  lemma ErasePhis(g: Graph, g': Graph, broken: set<Label>)
    requires |g'| == |g| && Phis(g, broken)
    requires forall b :: 0 <= b < |g| ==>
               g'[b].incoming == g[b].incoming && g'[b].sig == g[b].sig && Exits(g'[b]) == Exits(g[b])
    ensures Phis(g', broken)
  {
    hide Exits, Froms;
    forall t | 0 <= t < |g'| && g'[t].sig.Some? && t !in broken
      ensures PhiAgrees(g', t)
    {
      assert PhiAgrees(g, t);
    }
  }

  /** The result of a finished frame: one more register that is available in its end block. */
  lemma ResultForm(s: TState, sig: BlockType, av: seq<set<nat>>, broken: set<Label>)
    requires s.cur < |s.blocks| == |av| && GraphOk(s.blocks, s.next) && Form(s.blocks, s.next, av, broken)
    requires s.blocks[s.cur].insts == []
    ensures var r := PushResult(s, sig, s.cur);
            && Form(r.blocks, r.next, av, broken) && Steady(s.blocks, r.blocks) && r.next == s.next && r.cur == s.cur
            && |r.blocks| == |s.blocks| && (forall b :: 0 <= b < |r.blocks| ==> r.blocks[b].insts == s.blocks[b].insts)
            && r.cf == s.cf && r.labels == s.labels && s.stack <= r.stack
            && Reads(r.stack[|s.stack|..], Out(r.blocks, av, r.cur))
  {
    hide Form, GraphOk, Steady;
    SteadySelf(s.blocks);
    if sig.Some? && !(s.blocks[s.cur].incoming != [] && s.blocks[s.cur].phi.Some?) {
      if s.blocks[s.cur].incoming == [] {
        EraseForm(s.blocks, s.next, av, broken, s.cur);
      } else {
        assert s.blocks[s.cur := s.blocks[s.cur].(phi := None)] == s.blocks;
      }
    }
  }

  lemma EndSsa(s: TState, av: seq<set<nat>>, broken: set<Label>)
    requires Inv(s) && InRange(s) && |s.cf| > 0 && InSsa(s, av, broken) && s.depth == 0 && StepEnd(s).Some?
    ensures InSsa(StepEnd(s).value, av, broken + Breaks(s)) && Steady(s.blocks, StepEnd(s).value.blocks)
  {
    hide CloseFrame, Inv, Core, InSsa, Shut, ToEnd, PushResult;
    BelowReachable(s);
    CloseFrameCore(s);
    CloseSsa(s, av, broken);
    PopFrameCore(CloseFrame(s).value);
    CompleteSsa(s, av, CloseFrame(s).value, broken);
  }

  lemma BelowReachable(s: TState)
    requires Inv(s)
    ensures |s.cf| > 1 ==> s.cf[|s.cf| - 2].reachable
  {
  }

  lemma CompleteSsa(s: TState, av: seq<set<nat>>, c: TState, broken: set<Label>)
    requires Shut(s, av, c, broken) && Core(c) && Top(c).outerBlocks == |c.cf| - 1 && Grows(s.blocks, c.blocks)
    requires |c.cf| > 1 ==> c.cf[|c.cf| - 2].reachable
    ensures Top(c).outerBlocks <= |c.labels| && (Top(c).els.Some? ==> Top(c).els.value < |c.blocks|)
    ensures Top(c).end < |c.blocks|
    ensures var r := PushResult(ToEnd(PopFrame(c), Top(c)), Top(c).sig, Top(c).end);
            InSsa(r, av, broken + Breaks(c)) && Steady(s.blocks, r.blocks)
  {
    hide Form, Core, Steady, Pending, Closed, Out, Grows, PushResult, ToEnd, GraphOk, Shut, InSsa, Scopes, PendingOk, OwnBlocks,
      Accounted, Covered, Reads;
    OwnFacts(s, av, c, broken);
    TopAlone(c);
    PopFrameCore(c);
    var e, p := Top(c), PopFrame(c);
    ToEndForm(p, e, av, broken);
    EndOpen(c);
    var q := ToEnd(p, e);
    ResultForm(q, e.sig, av, broken + Breaks(c));
    var r := PushResult(q, e.sig, e.end);
    SteadyTrans(s.blocks, c.blocks, q.blocks);
    SteadyTrans(s.blocks, q.blocks, r.blocks) by {
      GrowsTrans(s.blocks, c.blocks, q.blocks);
    }
    FloorsTop(c);
    EndAccounted(c, r);
    EndScopes(av, c, r);
    EndJoins(av, r, broken + Breaks(c));
  }

  lemma FloorsTop(c: TState)
    requires Core(c) && |c.cf| > 0 && |c.stack| == Top(c).outerStack
    ensures forall i :: 0 <= i < |c.cf| ==> c.cf[i].outerStack <= |c.stack|
  {
    FloorsBelow(c);
  }

  /** The end block before its result is pushed. */
  lemma EndOpen(c: TState)
    requires Core(c) && |c.cf| > 0 && Top(c).outerBlocks == |c.cf| - 1
    ensures Top(c).outerBlocks <= |c.labels| && (Top(c).els.Some? ==> Top(c).els.value < |c.blocks|)
    ensures var q := ToEnd(PopFrame(c), Top(c));
            && q.cur == Top(c).end < |q.blocks| && GraphOk(q.blocks, q.next) && q.blocks[q.cur].insts == []
            && Grows(c.blocks, q.blocks)
  {
    TopAlone(c);
    PopFrameCore(c);
    var p := PopFrame(c);
    GrowsSelf(c.blocks);
    ToEndCore(p, p, Top(c));
    hide Pending, CurOpen, Frames, Regs, Entries, Grows, GraphOk, ToEnd;
  }

  lemma EndJoins(av: seq<set<nat>>, r: TState, broken: set<Label>)
    requires r.cur < |r.blocks| == |av| && FENTRY < |av| && av[FENTRY] == {} && Form(r.blocks, r.next, av, broken)
    requires Accounted(r, {}) && Scopes(r, av) && Covered(r, av, Out(r.blocks, av, r.cur))
    ensures InSsa(r, av, broken)
  {
  }

  lemma OwnFacts(s: TState, av: seq<set<nat>>, c: TState, broken: set<Label>)
    requires Shut(s, av, c, broken) && Core(c)
    ensures |c.labels| == |c.cf| > 0 && |c.blocks| == |av| && OwnBlocks(c.blocks, av, Top(c))
    ensures Form(c.blocks, c.next, av, broken) && Steady(s.blocks, c.blocks) && FENTRY < |av| && av[FENTRY] == {}
    ensures PendingOk(c.blocks, Top(c)) && GraphOk(c.blocks, c.next)
    ensures Scopes(c, av) && |c.stack| == Top(c).outerStack
    ensures forall b :: 0 <= b < |c.blocks| ==> Closed(c.blocks[b]) || Pending(c.cf, b)
  {
    hide Form, Steady;
    assert PendingOk(c.blocks, Top(c));
  }

  lemma EndAccounted(c: TState, r: TState)
    requires |c.cf| > 0 && PendingOk(c.blocks, Top(c)) && Top(c).outerBlocks <= |c.labels|
    requires forall b :: 0 <= b < |c.blocks| ==> Closed(c.blocks[b]) || Pending(c.cf, b)
    requires var q := ToEnd(PopFrame(c), Top(c));
             |r.blocks| == |q.blocks| && forall b :: 0 <= b < |r.blocks| ==> r.blocks[b].insts == q.blocks[b].insts
    requires r.cf == c.cf[..|c.cf| - 1] && r.cur == Top(c).end && (|r.cf| > 0 ==> Top(r).reachable)
    ensures Accounted(r, {})
  {
    forall b | Pending(c.cf, b) && b != Top(c).end && Top(c).els != Some(b)
      ensures Pending(r.cf, b)
    {
      var i :| 0 <= i < |c.cf| && (c.cf[i].end == b || c.cf[i].els == Some(b));
      assert r.cf[i] == c.cf[i];
    }
  }

  lemma EndScopes(av: seq<set<nat>>, c: TState, r: TState)
    requires Scopes(c, av) && |c.cf| > 0 && |c.stack| == Top(c).outerStack && |r.blocks| == |av|
    requires forall i :: 0 <= i < |c.cf| ==> c.cf[i].outerStack <= |c.stack|
    requires r.cf == c.cf[..|c.cf| - 1] && r.labels == c.labels[..|c.cf| - 1] && r.cur == Top(c).end && r.cur < |av|
    requires c.stack <= r.stack && Reads(r.stack[|c.stack|..], Out(r.blocks, av, r.cur))
    ensures Scopes(r, av) && Covered(r, av, Out(r.blocks, av, r.cur))
  {
    assert Out(r.blocks, av, r.cur) >= av[Top(c).end];
    hide Out;
    assert c.stack[..|c.stack|] == c.stack;
    forall i | 0 <= i < |r.cf|
      ensures r.stack[..r.cf[i].outerStack] == c.stack[..r.cf[i].outerStack]
    {
    }
    forall k | 0 <= k < |r.stack|
      ensures RegsOf(r.stack[k]) <= Out(r.blocks, av, r.cur)
    {
      if k < |c.stack| {
        assert r.stack[k] == c.stack[k];
      } else {
        assert r.stack[k] == r.stack[|c.stack|..][k - |c.stack|];
      }
    }
  }

  /** An end that breaks a phi really does: the edge from the empty else arm has no pair. */
  lemma EndBreaks(s: TState)
    requires Inv(s) && InRange(s) && |s.cf| > 0 && s.depth == 0 && StepEnd(s).Some? && Breaks(s) != {}
    ensures var g, end, els := StepEnd(s).value.blocks, Top(s).end, Top(s).els.value;
            && end < |g| && els < |g| && Closed(g[els]) && g[end].sig.Some?
            && multiset(Froms(g[end].incoming))[els] == 0 && multiset(Exits(g[els]))[end] == 1
  {
    hide CloseFrame, Inv, Core, ToEnd, PushResult;
    CloseFrameCore(s);
    var c := CloseFrame(s).value;
    PopFrameCore(c);
    BareEdge(c);
  }

  lemma BareEdge(c: TState)
    requires Core(c) && |c.cf| > 0 && Breaks(c) != {}
    ensures Top(c).outerBlocks <= |c.labels| && Top(c).els.value < |c.blocks| && Top(c).end < |c.blocks|
    ensures var r := PushResult(ToEnd(PopFrame(c), Top(c)), Top(c).sig, Top(c).end);
            var g, end, els := r.blocks, Top(c).end, Top(c).els.value;
            && end < |g| && els < |g| && Closed(g[els]) && g[end].sig.Some?
            && multiset(Froms(g[end].incoming))[els] == 0 && multiset(Exits(g[els]))[end] == 1
  {
    assert PendingOk(c.blocks, Top(c));
    PopFrameCore(c);
    FromOpen(c.blocks, c.next, Top(c).end, Top(c).els.value);
    hide Core, Froms;
  }
}
