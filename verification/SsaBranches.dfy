/** Leaving a block with a result for the phis of its targets keeps the graph in SSA form. */
module SsaBranches {
  import opened Values
  import opened Cfg
  import opened Wasm
  import opened TranslatorSpec
  import opened Invariant
  import opened Steps
  import opened Ssa
  import opened SsaSteps

  /** Handing v over to ts adds as many pairs to a block as it occurs in ts. */
  lemma {:induction false} AddAllFroms(g: Graph, ts: seq<Label>, v: Opd, from: Label, t: Label, a: Label)
    requires forall k :: 0 <= k < |ts| ==> ts[k] < |g|
    requires t < |g|
    ensures multiset(Froms(AddAll(g, ts, v, from)[t].incoming))[a] ==
            multiset(Froms(g[t].incoming))[a] + if a == from then multiset(ts)[t] else 0
    decreases |ts|
  {
    if ts != [] {
      var g1 := WithIncoming(g, ts[0], v, from);
      AddAllFroms(g1, ts[1..], v, from, t, a);
      assert ts == [ts[0]] + ts[1..];
      if t == ts[0] {
        assert Froms(g1[t].incoming) == Froms(g[t].incoming) + [from];
      }
    }
  }

  /** Only pairs are added. */
  ghost predicate PairsAdded(g: Graph, g': Graph, v: Opd, from: Label) {
    |g'| == |g| && forall b :: 0 <= b < |g| ==> Received(g[b], g'[b], v, from)
  }

  lemma AddAllPairs(g: Graph, ts: seq<Label>, v: Opd, from: Label)
    requires forall k :: 0 <= k < |ts| ==> ts[k] < |g|
    ensures PairsAdded(g, AddAll(g, ts, v, from), v, from)
  {
    forall b | 0 <= b < |g|
      ensures Received(g[b], AddAll(g, ts, v, from)[b], v, from)
    {
      AddAllBlock(g, ts, v, from, b);
    }
  }

  lemma PairsKeep(g: Graph, g': Graph, v: Opd, from: Label, n: nat, av: seq<set<nat>>)
    requires PairsAdded(g, g', v, from) && from < |g|
    requires OneTerms(g) && Single(g, n) && Certified(g, av) && RegsOf(v) <= Out(g, av, from)
    ensures OneTerms(g') && Single(g', n) && Certified(g', av)
    ensures forall b :: 0 <= b < |g| ==> Out(g', av, b) == Out(g, av, b) && Exits(g'[b]) == Exits(g[b])
  {
    forall b | 0 <= b < |g|
      ensures g'[b].insts == g[b].insts && g'[b].phi == g[b].phi && Out(g', av, b) == Out(g, av, b)
      ensures Exits(g'[b]) == Exits(g[b])
    {
      assert Received(g[b], g'[b], v, from);
    }
    assert forall r: nat, b: nat, k: int :: DefinedAt(g', r, b, k) ==> DefinedAt(g, r, b, k);
    hide Exits, Out;
    forall t, k | 0 <= t < |g'| && 0 <= k < |g'[t].incoming| && g'[t].incoming[k].from < |g'|
      ensures RegsOf(g'[t].incoming[k].v) <= Out(g', av, g'[t].incoming[k].from)
    {
      assert Received(g[t], g'[t], v, from);
      if k < |g[t].incoming| {
        assert g'[t].incoming[k] == g[t].incoming[k];
      }
    }
  }

  /** The targets of a terminator are the blocks that get its pairs, as often. */
  ghost predicate SameTargets(g: Graph, ts: seq<Label>, term: Inst) {
    && (forall k :: 0 <= k < |ts| ==> ts[k] < |g| && g[ts[k]].sig.Some?)
    && (forall k :: 0 <= k < |Succs(term)| ==> Succs(term)[k] < |g|)
    && (forall t :: 0 <= t < |g| && g[t].sig.Some? ==> multiset(Succs(term))[t] == multiset(ts)[t])
  }

  lemma HandOverPhis(s: TState, ts: seq<Label>, v: Opd, term: Inst, broken: set<Label>)
    requires s.cur < |s.blocks| && GraphOk(s.blocks, s.next) && Phis(s.blocks, broken) && !Closed(s.blocks[s.cur])
    requires IsTerm(term) && SameTargets(s.blocks, ts, term)
    ensures Phis(HandOver(s, ts, v, term).blocks, broken) && Steady(s.blocks, HandOver(s, ts, v, term).blocks)
  {
    var g, g1 := s.blocks, AddAll(s.blocks, ts, v, s.cur);
    var g' := HandOver(s, ts, v, term).blocks;
    AddAllPairs(g, ts, v, s.cur);
    HandOverShape(s, ts, v, term);
    hide Exits, Froms, GraphOk, Closed, HandOver, Received;
    forall t, a | 0 <= t < |g| && 0 <= a < |g|
      ensures multiset(Froms(g'[t].incoming))[a] ==
              multiset(Froms(g[t].incoming))[a] + if a == s.cur then multiset(ts)[t] else 0
    {
      AddAllFroms(g, ts, v, s.cur, t, a);
    }
    forall t | 0 <= t < |g'| && g'[t].sig.Some? && t !in broken
      ensures PhiAgrees(g', t)
    {
      assert PhiAgrees(g, t);
      FromOpen(g, s.next, t, s.cur);
    }
  }

  lemma HandOverShape(s: TState, ts: seq<Label>, v: Opd, term: Inst)
    requires s.cur < |s.blocks| && !Closed(s.blocks[s.cur]) && IsTerm(term)
    requires forall k :: 0 <= k < |ts| ==> ts[k] < |s.blocks|
    ensures var g, g1, g' := s.blocks, AddAll(s.blocks, ts, v, s.cur), HandOver(s, ts, v, term).blocks;
            && |g'| == |g| && g' == Append(g1, s.cur, term) && !Closed(g1[s.cur])
            && Exits(g'[s.cur]) == Succs(term) && Exits(g[s.cur]) == []
            && (forall a :: 0 <= a < |g| ==> g'[a].incoming == g1[a].incoming && g'[a].sig == g[a].sig)
            && (forall a :: 0 <= a < |g| && a != s.cur ==> Exits(g'[a]) == Exits(g[a]))
  {
    AddAllPairs(s.blocks, ts, v, s.cur);
    forall b | 0 <= b < |s.blocks|
      ensures Received(s.blocks[b], AddAll(s.blocks, ts, v, s.cur)[b], v, s.cur)
    {
    }
  }

  /** Everything a graph in SSA form has, while av certifies it. */
  ghost predicate Form(g: Graph, n: nat, av: seq<set<nat>>, broken: set<Label>) {
    OneTerms(g) && Phis(g, broken) && Single(g, n) && Certified(g, av)
  }

  lemma HandOverForm(s: TState, av: seq<set<nat>>, ts: seq<Label>, v: Opd, term: Inst, broken: set<Label>)
    requires s.cur < |s.blocks| && GraphOk(s.blocks, s.next) && !Closed(s.blocks[s.cur]) && Form(s.blocks, s.next, av, broken)
    requires IsTerm(term) && SameTargets(s.blocks, ts, term)
    requires Uses(term) + RegsOf(v) <= Out(s.blocks, av, s.cur)
    requires forall k :: 0 <= k < |Succs(term)| ==> av[Succs(term)[k]] <= Out(s.blocks, av, s.cur)
    ensures Form(HandOver(s, ts, v, term).blocks, s.next, av, broken)
    ensures Steady(s.blocks, HandOver(s, ts, v, term).blocks)
  {
    hide Certified, Single, OneTerms, Phis, Steady, HandOver, GraphOk, Out, PairsAdded;
    var g, g1 := s.blocks, AddAll(s.blocks, ts, v, s.cur);
    HandOverPhis(s, ts, v, term, broken);
    HandOverShape(s, ts, v, term);
    AddAllPairs(g, ts, v, s.cur);
    PairsKeep(g, g1, v, s.cur, s.next, av);
    AppendTerms(g1, s.cur, term);
    AppendSingle(g1, s.cur, term, s.next, s.next);
    AppendCertified(g1, av, s.cur, term);
  }

  lemma PlainForm(s: TState, av: seq<set<nat>>, term: Inst, broken: set<Label>)
    requires s.cur < |s.blocks| && GraphOk(s.blocks, s.next) && !Closed(s.blocks[s.cur]) && Form(s.blocks, s.next, av, broken)
    requires IsTerm(term) && Uses(term) <= Out(s.blocks, av, s.cur)
    requires forall k :: 0 <= k < |Succs(term)| ==>
               && Succs(term)[k] < |s.blocks| && (s.blocks[Succs(term)[k]].sig.None? || Succs(term)[k] in broken)
               && av[Succs(term)[k]] <= Out(s.blocks, av, s.cur)
    ensures Form(Emit(s, term).blocks, s.next, av, broken)
    ensures Steady(s.blocks, Emit(s, term).blocks)
  {
    hide Certified, Single, OneTerms, Phis, Steady, GraphOk, Out;
    assert Emit(s, term).blocks == Append(s.blocks, s.cur, term);
    SteadySelf(s.blocks);
    AppendPhis(s.blocks, s.next, s.cur, term, broken);
    AppendTerms(s.blocks, s.cur, term);
    AppendSingle(s.blocks, s.cur, term, s.next, s.next);
    AppendCertified(s.blocks, av, s.cur, term);
    SteadyAppend(s.blocks, s.blocks, s.cur, term);
  }

  lemma SteadySelf(g: Graph)
    ensures Steady(g, g)
  {
  }

  lemma SteadyTrans(g: Graph, g': Graph, g'': Graph)
    requires Steady(g, g') && Grows(g, g') && Steady(g', g'')
    ensures Steady(g, g'')
  {
    forall t, a | 0 <= t < |g| && 0 <= a < |g| && Closed(g[a])
      ensures multiset(Froms(g''[t].incoming))[a] == multiset(Froms(g[t].incoming))[a]
    {
      assert BlkGrows(g[a], g'[a]);
    }
  }

}
