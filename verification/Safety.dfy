/** What the form of the graph is for: no run of an accepted function reads a register before it is defined, and none
    enters a block whose phi has no value for the edge taken. */
module Safety {
  import opened Values
  import opened Cfg
  import opened Wasm
  import opened TranslatorSpec
  import opened Invariant
  import opened Steps
  import opened Structure
  import opened Acceptance
  import opened Correctness
  import opened Ssa
  import opened SsaSteps
  import opened SsaBranches
  import opened SsaTokens
  import opened Dominance
  import opened WellFormed

  predicate Has(o: Opd, env: Env) { o.Reg? ==> o.id in env }

  /** All operands of an instruction are defined. */
  predicate CanRead(i: Inst, env: Env) {
    match i
    case Store(_, v) => Has(v, env)
    case Bin(_, _, a, b) => Has(a, env) && Has(b, env)
    case ZExt(_, a) => Has(a, env)
    case Select(_, c, a, b) => Has(c, env) && Has(a, env) && Has(b, env)
    case CondBr(c, _, _) => Has(c, env)
    case Switch(c, _, _) => Has(c, env)
    case Ret(r) => r.Some? ==> Has(r.value, env)
    case _ => true
  }

  /** The block is there, and its phi, if it has one, has a defined value for this edge. */
  predicate CanEnter(g: Graph, from: Label, t: Label, env: Env) {
    t < |g| && (g[t].phi.Some? ==> Lookup(g[t].incoming, from).Some? && Has(Lookup(g[t].incoming, from).value, env))
  }

  /** Where a terminator can go. */
  predicate GoesTo(i: Inst, t: Label) {
    match i
    case Br(u) => t == u
    case CondBr(_, u, v) => t == u || t == v
    case Switch(_, ts, d) => t == d || t in ts
    case _ => false
  }

  // ----- a run follows a path -----

  /** The machine has come along a path, and has all registers that are defined on it. */
  ghost predicate Along(g: Graph, path: seq<Label>, cs: CState) {
    && cs.Running? && IsPath(g, path) && path[|path| - 1] == cs.b && cs.i < |g[cs.b].insts|
    && forall r :: DefinedOn(g, path, r, cs.i) ==> r in cs.env
  }

  /** One terminator per block, at its end. */
  predicate Ended(g: Graph) {
    forall b :: 0 <= b < |g| ==> Closed(g[b]) && forall k :: 0 <= k < |g[b].insts| - 1 ==> !IsTerm(g[b].insts[k])
  }

  lemma {:induction false} DefsIn(insts: seq<Inst>, r: nat)
    requires r in Defs(insts)
    ensures exists k :: 0 <= k < |insts| && Dst(insts[k]) == Some(r)
    decreases |insts|
  {
    var front := insts[..|insts| - 1];
    if r in Defs(front) {
      DefsIn(front, r);
      var k :| 0 <= k < |front| && Dst(front[k]) == Some(r);
      assert insts[k] == front[k];
    }
  }

  /** Operands of an instruction on the path. */
  lemma ReadsAlong(g: Graph, path: seq<Label>, cs: CState)
    requires UsesDominated(g) && Along(g, path, cs)
    ensures CanRead(g[cs.b].insts[cs.i], cs.env)
  {
    var i := g[cs.b].insts[cs.i];
    forall r | r in Uses(i)
      ensures r in cs.env
    {
      assert Dominated(g, r, cs.b, cs.i);
    }
    assert forall o: Opd :: o.Reg? ==> o.id in RegsOf(o);
  }

  /** At a terminator everything of its block is defined. */
  lemma AtEndAlong(g: Graph, path: seq<Label>, cs: CState, r: nat, k: int)
    requires Along(g, path, cs) && Ended(g) && IsTerm(g[cs.b].insts[cs.i]) && DefinedOn(g, path, r, k)
    ensures r in cs.env
  {
    var m, j :| 0 <= m < |path| && DefinedAt(g, r, path[m], j) && (m < |path| - 1 || j < k);
    assert cs.i == |g[cs.b].insts| - 1 && Dst(g[cs.b].insts[cs.i]).None?;
    assert DefinedOn(g, path, r, cs.i);
  }

  /** A phi that agrees with its edges has a value for each. */
  lemma {:induction false} PairFound(inc: seq<Incoming>, from: Label) returns (k: nat)
    requires multiset(Froms(inc))[from] > 0
    ensures k < |inc| && Lookup(inc, from) == Some(inc[k].v) && inc[k].from == from
  {
    assert |Froms(inc)| == |inc|;
    if inc[0].from == from {
      k := 0;
    } else {
      assert Froms(inc) == [inc[0].from] + Froms(inc[1..]);
      var j := PairFound(inc[1..], from);
      k := j + 1;
    }
  }

  lemma EntersAlong(g: Graph, path: seq<Label>, cs: CState, t: Label)
    requires SsaGraph(g) && Ended(g) && Along(g, path, cs) && GoesTo(g[cs.b].insts[cs.i], t)
    ensures t < |g| && t in Exits(g[cs.b]) && cs.i == |g[cs.b].insts| - 1
    ensures PhiForm(g) && g[t].sig.Some? ==> CanEnter(g, cs.b, t, cs.env)
  {
    var i := g[cs.b].insts[cs.i];
    hide UsesDominated, Single, Dominated, DefinedOn, PhiForm;
    assert IsTerm(i);
    ExitOf(i, t);
    var e :| 0 <= e < |Exits(g[cs.b])| && Exits(g[cs.b])[e] == t;
    if PhiForm(g) && g[t].sig.Some? {
      PhiOf(g, t, cs.b);
      var k := PairFound(g[t].incoming, cs.b);
      var v := g[t].incoming[k].v;
      if v.Reg? { IncomingAlong(g, path, cs, t, k); }
    }
  }

  lemma ExitOf(i: Inst, t: Label)
    requires GoesTo(i, t)
    ensures t in Succs(i)
  {
    match i
    case Br(u) =>
    case CondBr(_, u, v) => assert Succs(i)[0] == u && Succs(i)[1] == v;
    case Switch(_, ts, d) =>
      assert Succs(i)[0] == d;
      if t in ts {
        var k :| 0 <= k < |ts| && ts[k] == t;
        assert Succs(i)[k + 1] == t;
      }
  }

  lemma PhiOf(g: Graph, t: Label, b: Label)
    requires PhiForm(g) && t < |g| && b < |g| && g[t].sig.Some? && t in Exits(g[b])
    ensures multiset(Froms(g[t].incoming))[b] > 0
  {
    assert PhiAgrees(g, t);
    assert t in multiset(Exits(g[b]));
  }

  lemma IncomingAlong(g: Graph, path: seq<Label>, cs: CState, t: Label, k: nat)
    requires UsesDominated(g) && Ended(g) && Along(g, path, cs) && IsTerm(g[cs.b].insts[cs.i])
    requires t < |g| && k < |g[t].incoming| && g[t].incoming[k].from == cs.b && g[t].incoming[k].v.Reg?
    ensures Has(g[t].incoming[k].v, cs.env)
  {
    var r := g[t].incoming[k].v.id;
    assert r in RegsOf(g[t].incoming[k].v);
    assert Dominated(g, r, cs.b, |g[cs.b].insts|);
    AtEndAlong(g, path, cs, r, |g[cs.b].insts|);
  }

  // ----- one step -----

  lemma InBlock(p: Prog, path: seq<Label>, cs: CState)
    requires var g := p.blocks;
             Ended(g) && Along(g, path, cs) && !IsTerm(g[cs.b].insts[cs.i]) && Advance(p, cs).Running?
    ensures Along(p.blocks, path, Advance(p, cs))
  {
    var g, cs', i := p.blocks, Advance(p, cs), p.blocks[cs.b].insts[cs.i];
    assert cs'.b == cs.b && cs'.i == cs.i + 1 && forall r :: r in cs.env || Dst(i) == Some(r) ==> r in cs'.env;
    assert cs.i < |g[cs.b].insts| - 1;
    hide Advance;
    forall r | DefinedOn(g, path, r, cs'.i)
      ensures r in cs'.env
    {
      var m, j :| 0 <= m < |path| && DefinedAt(g, r, path[m], j) && (m < |path| - 1 || j < cs'.i);
      if m < |path| - 1 || j < cs.i { assert DefinedOn(g, path, r, cs.i); }
    }
  }

  lemma OverEdge(p: Prog, path: seq<Label>, cs: CState) returns (t: Label)
    requires var g := p.blocks;
             && SsaGraph(g) && Ended(g) && Along(g, path, cs) && IsTerm(g[cs.b].insts[cs.i])
             && Advance(p, cs).Running?
    ensures Along(p.blocks, path + [t], Advance(p, cs))
  {
    var g, cs' := p.blocks, Advance(p, cs);
    t := Target(p, cs);
    hide Advance, SsaGraph, UsesDominated, DefinedOn, PhiForm, CanEnter, Exits;
    EntersAlong(g, path, cs, t);
    Longer(g, path, t);
    forall r | DefinedOn(g, path + [t], r, 0)
      ensures r in cs'.env
    {
      DefinedBefore(g, path, t, r);
      if g[t].phi != Some(r) { AtEndAlong(g, path, cs, r, |g[cs.b].insts|); }
    }
  }

  lemma Longer(g: Graph, path: seq<Label>, t: Label)
    requires IsPath(g, path) && t < |g| && t in Exits(g[path[|path| - 1]])
    ensures IsPath(g, path + [t])
  {
    hide Exits;
    var path' := path + [t];
    forall m | 0 <= m < |path'| - 1
      ensures path'[m + 1] in Exits(g[path'[m]])
    {
      if m < |path| - 1 { assert path'[m + 1] == path[m + 1] && path'[m] == path[m]; }
    }
  }

  lemma DefinedBefore(g: Graph, path: seq<Label>, t: Label, r: nat)
    requires IsPath(g, path) && t < |g| && DefinedOn(g, path + [t], r, 0)
    ensures g[t].phi == Some(r) || DefinedOn(g, path, r, |g[path[|path| - 1]].insts|)
  {
    var path' := path + [t];
    var m, j :| 0 <= m < |path'| && DefinedAt(g, r, path'[m], j) && (m < |path'| - 1 || j < 0);
    if m < |path| {
      assert path'[m] == path[m] && DefinedAt(g, r, path[m], j);
      assert m < |path| - 1 || j < |g[path[|path| - 1]].insts|;
    }
  }

  /** Where a terminator went. */
  lemma Target(p: Prog, cs: CState) returns (t: Label)
    requires cs.Running? && cs.b < |p.blocks| && cs.i < |p.blocks[cs.b].insts| && IsTerm(p.blocks[cs.b].insts[cs.i])
    requires Advance(p, cs).Running?
    ensures GoesTo(p.blocks[cs.b].insts[cs.i], t) && t < |p.blocks|
    ensures var cs' := Advance(p, cs);
            && cs'.b == t && cs'.i == 0 && (forall r :: r in cs.env ==> r in cs'.env)
            && (p.blocks[t].phi.Some? ==> p.blocks[t].phi.value in cs'.env)
  {
    t := Advance(p, cs).b;
  }

  lemma {:induction false} Follows(p: Prog, n: nat) returns (path: seq<Label>)
    requires SsaGraph(p.blocks) && Ended(p.blocks) && FENTRY < |p.blocks| && p.blocks[FENTRY].phi.None?
    requires RunN(p, ENTRY, n).Running?
    ensures Along(p.blocks, path, RunN(p, ENTRY, n))
  {
    hide SsaGraph, Advance, Along, Ended;
    if n == 0 {
      path := [FENTRY];
      RunZero(p, ENTRY);
      EntryAlong(p.blocks);
    } else {
      RunNext(p, ENTRY, n - 1);
      var cs := RunN(p, ENTRY, n - 1);
      StillRuns(p, cs);
      path := Follows(p, n - 1);
      path := Extended(p, path, cs);
    }
  }

  lemma Extended(p: Prog, path: seq<Label>, cs: CState) returns (path': seq<Label>)
    requires SsaGraph(p.blocks) && Ended(p.blocks) && Along(p.blocks, path, cs) && Advance(p, cs).Running?
    ensures Along(p.blocks, path', Advance(p, cs))
  {
    hide SsaGraph, Advance;
    if IsTerm(p.blocks[cs.b].insts[cs.i]) {
      var t := OverEdge(p, path, cs);
      path' := path + [t];
    } else {
      InBlock(p, path, cs);
      path' := path;
    }
  }

  lemma StillRuns(p: Prog, cs: CState)
    requires Advance(p, cs).Running?
    ensures cs.Running?
  {
  }

  lemma EntryAlong(g: Graph)
    requires Ended(g) && FENTRY < |g| && g[FENTRY].phi.None?
    ensures Along(g, [FENTRY], ENTRY)
  {
  }

  // ----- the theorem -----

  /** The blocks of an accepted function: phis only where a result is asked for, and none at the entry. */
  lemma AcceptedBlocks(f: Func, ts: seq<Tok>)
    requires Translate(f, ts).Some?
    ensures var g := Translate(f, ts).value.blocks;
            && SsaGraph(g) && Ended(g) && FENTRY < |g| && g[FENTRY].phi.None?
            && forall t :: 0 <= t < |g| && g[t].phi.Some? ==> g[t].sig.Some?
  {
    hide Inv, Start, FinishFunction, SsaGraph, PhiForm, Matches, Form, InSsa, Steady, GraphOk;
    StartInv(f);
    AcceptedGraph(f, ts);
    var s0, lt := Start(f), Locals(f);
    var s := TokenLoop(lt, s0, ts).value;
    var av := ReachedSsa(f, ts);
    InvFacts(s);
    SsaScopes(s, av, AllBreaks(lt, s0, ts));
    ReturnSsa(f, s, av, AllBreaks(lt, s0, ts));
    var s' := FinishFunction(f, s).value;
    SigOfPhi(s'.blocks, s'.next);
    EntryBlock(f);
    var av0 := StartSsa(f);
    var av1 := LoopSsaForm(lt, s0, ts, av0, {});
    GrowsTrans(s0.blocks, s.blocks, s'.blocks);
    EntryGrows(s0.blocks, s'.blocks, s'.next);
    EndedIs(s'.blocks);
  }

  lemma EndedIs(g: Graph)
    requires SsaGraph(g)
    ensures Ended(g)
  {
    hide UsesDominated, Single, Exits;
  }

  lemma SigOfPhi(g: Graph, n: nat)
    requires GraphOk(g, n)
    ensures forall t :: 0 <= t < |g| && g[t].phi.Some? ==> g[t].sig.Some?
  {
    forall t | 0 <= t < |g| && g[t].phi.Some?
      ensures g[t].sig.Some?
    {
      assert BlkOk(g, n, g[t]);
    }
  }

  lemma EntryBlock(f: Func)
    ensures FENTRY < |Start(f).blocks| && Start(f).blocks[FENTRY].sig == None
  {
    hide Core, CurOpen, StoreLocals;
    OpeningBuilds(f.ret);
    StoreBuilds(Opening(f.ret), Opening(f.ret), f, |f.params| + |f.extra|);
    assert BlkGrows(Opening(f.ret).blocks[FENTRY], Start(f).blocks[FENTRY]);
  }

  lemma EntryGrows(g: Graph, g': Graph, n: nat)
    requires FENTRY < |g| && g[FENTRY].sig == None && Grows(g, g') && GraphOk(g', n)
    ensures FENTRY < |g'| && g'[FENTRY].phi.None?
  {
    assert BlkGrows(g[FENTRY], g'[FENTRY]) && BlkOk(g', n, g'[FENTRY]);
  }

  /** Whatever tokens are accepted, for any arguments and at any time of a run: the machine stands at an instruction, and
      all operands of the instruction are defined. */
  lemma ReadsDefined(f: Func, ts: seq<Tok>, args: seq<Val>, n: nat)
    requires Translate(f, ts).Some?
    ensures var g := Translate(f, ts).value.blocks; var cs := RunN(Prog(g, args), ENTRY, n);
            cs.Running? ==> cs.b < |g| && cs.i < |g[cs.b].insts| && CanRead(g[cs.b].insts[cs.i], cs.env)
  {
    hide Translate, SsaGraph, CanRead;
    AcceptedBlocks(f, ts);
    var g := Translate(f, ts).value.blocks;
    var p := Prog(g, args);
    if RunN(p, ENTRY, n).Running? {
      var path := Follows(p, n);
      SsaUses(g);
      ReadsAlong(g, path, RunN(p, ENTRY, n));
    }
  }

  lemma SsaUses(g: Graph)
    requires SsaGraph(g)
    ensures UsesDominated(g)
  {
    hide UsesDominated, Single, Exits;
  }

  /** And if every live if with a result has an else: wherever control can go from there, the phi has a defined value. */
  lemma PhisDefined(f: Func, args: seq<Val>, n: nat, t: Label)
    requires Translate(f, Flatten(f.body) + [TEnd]).Some? && LivePaired(f.body)
    ensures var g := Translate(f, Flatten(f.body) + [TEnd]).value.blocks; var cs := RunN(Prog(g, args), ENTRY, n);
            cs.Running? ==>
              cs.b < |g| && cs.i < |g[cs.b].insts| && (GoesTo(g[cs.b].insts[cs.i], t) ==> CanEnter(g, cs.b, t, cs.env))
  {
    hide Translate, SsaGraph, CanEnter, PhiForm, GoesTo, LivePaired, Flatten;
    var ts := Flatten(f.body) + [TEnd];
    AcceptedBlocks(f, ts);
    PhisExact(f);
    var g := Translate(f, ts).value.blocks;
    var p := Prog(g, args);
    var cs := RunN(p, ENTRY, n);
    if cs.Running? {
      var path := Follows(p, n);
      if GoesTo(g[cs.b].insts[cs.i], t) {
        EntersAlong(g, path, cs, t);
        if g[t].sig.None? { NoPhiEnter(g, cs.b, t, cs.env); }
      }
    }
  }

  lemma NoPhiEnter(g: Graph, b: Label, t: Label, env: Env)
    requires t < |g| && g[t].phi.None?
    ensures CanEnter(g, b, t, env)
  {
  }
}
