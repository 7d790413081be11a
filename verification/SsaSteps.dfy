/** Straight-line emission keeps the graph in SSA form. */
module SsaSteps {
  import opened Values
  import opened Cfg
  import opened Wasm
  import opened TranslatorSpec
  import opened Invariant
  import opened Steps
  import opened Ssa

  /** Blocks that were closed send no further pairs. */
  ghost predicate Steady(g: Graph, g': Graph) {
    && |g| <= |g'|
    && forall t, a :: 0 <= t < |g| && 0 <= a < |g| && Closed(g[a]) ==>
         multiset(Froms(g'[t].incoming))[a] == multiset(Froms(g[t].incoming))[a]
  }

  /** The certificate for blocks made since o: what was available there. */
  function Extend(av: seq<set<nat>>, A: set<nat>, n: nat): (av': seq<set<nat>>)
    requires |av| <= n
    ensures |av'| == n && av'[..|av|] == av && forall b :: |av| <= b < n ==> av'[b] == A
  {
    av + seq(n - |av|, _ => A)
  }

  /** What is available at the insertion point of o. */
  function Base(o: TState, av: seq<set<nat>>): set<nat>
    requires o.cur < |o.blocks| == |av|
  {
    Out(o.blocks, av, o.cur)
  }

  ghost predicate Grown(o: TState, av: seq<set<nat>>, s: TState) {
    o.cur < |o.blocks| == |av| && |o.blocks| <= |s.blocks| && s.cur < |s.blocks|
  }

  function AvOf(o: TState, av: seq<set<nat>>, s: TState): (av': seq<set<nat>>)
    requires Grown(o, av, s)
    ensures |av'| == |s.blocks|
  {
    Extend(av, Base(o, av), |s.blocks|)
  }

  /** What is available at the insertion point of s, which was built from o. */
  function Now(o: TState, av: seq<set<nat>>, s: TState): set<nat>
    requires Grown(o, av, s)
  {
    Out(s.blocks, AvOf(o, av, s), s.cur)
  }

  /** s was built from o by straight-line emission, in SSA form throughout. */
  ghost predicate Neat(o: TState, av: seq<set<nat>>, s: TState, todo: set<Label>, broken: set<Label>) {
    && Builds(o, s) && Grown(o, av, s) && Live(s)
    && OneTerms(s.blocks) && Accounted(s, todo) && Phis(s.blocks, broken) && Single(s.blocks, s.next)
    && Steady(o.blocks, s.blocks)
    && Certified(s.blocks, AvOf(o, av, s)) && Base(o, av) <= Now(o, av, s)
  }

  lemma SteadyAppend(g: Graph, g': Graph, b: Label, i: Inst)
    requires b < |g'| && Steady(g, g')
    ensures Steady(g, Append(g', b, i))
  {
    forall t | 0 <= t < |g|
      ensures Append(g', b, i)[t].incoming == g'[t].incoming
    {
    }
  }

  lemma SteadyFresh(g: Graph, g': Graph, b: Blk)
    requires Steady(g, g')
    ensures Steady(g, g' + [b])
  {
    assert forall t :: 0 <= t < |g| ==> (g' + [b])[t] == g'[t];
  }

  lemma NeatCore(o: TState, av: seq<set<nat>>, s: TState, todo: set<Label>, broken: set<Label>)
    requires Neat(o, av, s, todo, broken)
    ensures Live(s) && Grown(o, av, s) && Builds(o, s) && GraphOk(s.blocks, s.next) && !Closed(s.blocks[s.cur]) && !Pending(s.cf, s.cur)
    ensures Base(o, av) <= Now(o, av, s) && Accounted(s, todo)
  {
  }

  /** An instruction that is not a terminator and defines nothing, or the next register. */
  lemma NeatInst(o: TState, av: seq<set<nat>>, s: TState, i: Inst, n: nat, todo: set<Label>, broken: set<Label>)
    requires s.cur < |s.blocks| && Neat(o, av, s, todo, broken) && !IsTerm(i) && Uses(i) <= Now(o, av, s)
    requires (Dst(i) == None && n == s.next) || (Dst(i) == Some(s.next) && n == s.next + 1)
    ensures var s' := Emit(s, i).(next := n);
            Neat(o, av, s', todo, broken) && Now(o, av, s') == Now(o, av, s) + DstSet(i)
  {
    hide Builds, Certified, Phis, Single, OneTerms, Accounted, Steady, Out, GraphOk;
    NeatCore(o, av, s, todo, broken);
    var s' := Emit(s, i).(next := n);
    assert s'.blocks == Append(s.blocks, s.cur, i);
    if Dst(i) == None { EmitBuilds(o, s, i); } else { EmitDefBuilds(o, s, i); }
    AppendTerms(s.blocks, s.cur, i);
    AppendPhis(s.blocks, s.next, s.cur, i, broken);
    AppendSingle(s.blocks, s.cur, i, s.next, n);
    AppendCertified(s.blocks, AvOf(o, av, s), s.cur, i);
    SteadyAppend(o.blocks, s.blocks, s.cur, i);
    AppendAccounted(s, i, n, todo);
  }

  lemma AppendAccounted(s: TState, i: Inst, n: nat, todo: set<Label>)
    requires s.cur < |s.blocks| && Accounted(s, todo) && !Closed(s.blocks[s.cur])
    ensures Accounted(Emit(s, i).(next := n), todo)
  {
  }

  lemma NeatNew(o: TState, av: seq<set<nat>>, s: TState, sig: BlockType, todo: set<Label>, broken: set<Label>)
    requires s.cur < |s.blocks| && Neat(o, av, s, todo, broken)
    ensures Neat(o, av, NewBlock(s, sig), todo + {|s.blocks|}, broken)
    ensures Now(o, av, NewBlock(s, sig)) == Now(o, av, s) && !Pending(o.cf, |s.blocks|) && |o.blocks| <= |s.blocks|
  {
    hide Builds, Certified, Phis, Single, OneTerms, Steady, Out, GraphOk, Extend;
    NeatCore(o, av, s, todo, broken);
    var s' := NewBlock(s, sig);
    var b := s'.blocks[|s.blocks|];
    NewBlockBuilds(o, s, sig);
    assert AvOf(o, av, s') == AvOf(o, av, s) + [Base(o, av)];
    FreshTerms(s.blocks, b);
    FreshPhis(s.blocks, s.next, b, broken);
    FreshSingle(s.blocks, s.next, b, s'.next);
    FreshCertified(s.blocks, AvOf(o, av, s), s.next, b, Base(o, av), broken);
    SteadyFresh(o.blocks, s.blocks, b);
  }

  lemma FreshTerms(g: Graph, b: Blk)
    requires OneTerms(g) && b.insts == []
    ensures OneTerms(g + [b])
  {
  }

  /** Close the insertion block with a branch to blocks without phis that were made since o, and go on in one
      that is still empty. */
  lemma NeatMove(o: TState, av: seq<set<nat>>, s: TState, term: Inst, b: Label, todo: set<Label>, broken: set<Label>)
    requires s.cur < |s.blocks| && Neat(o, av, s, todo, broken) && IsTerm(term) && Uses(term) <= Now(o, av, s)
    requires forall k :: 0 <= k < |Succs(term)| ==> Fresh(o, s, Succs(term)[k], broken)
    requires |o.blocks| <= b < |s.blocks| && b != s.cur && s.blocks[b].insts == [] && !Pending(o.cf, b)
    ensures var s' := At(Emit(s, term), b);
            Neat(o, av, s', todo - {b}, broken) && Now(o, av, s') == Base(o, av) + PhiSet(s.blocks[b])
  {
    hide Builds, Certified, Phis, Single, OneTerms, Steady, GraphOk, Accounted, Pending, Closed;
    NeatCore(o, av, s, todo, broken);
    var s' := At(Emit(s, term), b);
    MoveAccounted(s, term, b, todo);
    assert s'.blocks == Append(s.blocks, s.cur, term);
    MoveBuilds(o, s, term, b);
    AppendTerms(s.blocks, s.cur, term);
    AppendPhis(s.blocks, s.next, s.cur, term, broken);
    AppendSingle(s.blocks, s.cur, term, s.next, s.next);
    AppendCertified(s.blocks, AvOf(o, av, s), s.cur, term);
    SteadyAppend(o.blocks, s.blocks, s.cur, term);
  }

  lemma MoveAccounted(s: TState, term: Inst, b: Label, todo: set<Label>)
    requires s.cur < |s.blocks| && Accounted(s, todo) && IsTerm(term) && b < |s.blocks| && b != s.cur
    ensures Accounted(At(Emit(s, term), b), if Live(s) then todo - {b} else todo)
  {
  }

  /** A branch target made since o, without a phi that would need a pair. */
  predicate Fresh(o: TState, s: TState, t: Label, broken: set<Label>) {
    |o.blocks| <= t < |s.blocks| && (s.blocks[t].sig.None? || t in broken)
  }

  // ----- numeric instructions -----

  lemma NeatBin(o: TState, av: seq<set<nat>>, s: TState, op: LOp, a: Opd, b: Opd, todo: set<Label>, broken: set<Label>)
    requires s.cur < |s.blocks| && Neat(o, av, s, todo, broken) && RegsOf(a) + RegsOf(b) <= Now(o, av, s)
    ensures Neat(o, av, EmitBin(s, op, a, b), todo, broken)
    ensures Now(o, av, EmitBin(s, op, a, b)) == Now(o, av, s) + {s.next}
  {
    hide Neat, Now;
    NeatInst(o, av, s, Inst.Bin(s.next, op, a, b), s.next + 1, todo, broken);
  }

  lemma NeatTrapIf(o: TState, av: seq<set<nat>>, s: TState, c: Opd, broken: set<Label>)
    requires s.cur < |s.blocks| && Neat(o, av, s, {}, broken) && RegsOf(c) <= Now(o, av, s)
    ensures Neat(o, av, TrapIf(s, c), {}, broken) && Now(o, av, TrapIf(s, c)) == Base(o, av)
  {
    hide Neat, Now, Builds, Pending;
    var t := |s.blocks|;
    NeatNew(o, av, s, None, {}, broken);
    assert {} + {t} == {t};
    NeatNew(o, av, NewBlock(s, None), None, {t}, broken);
    var s1 := NewBlock(NewBlock(s, None), None);
    NeatMove(o, av, s1, CondBr(c, t, t + 1), t, {t} + {t + 1}, broken);
    assert {t} + {t + 1} - {t} == {t + 1};
    var s2 := At(Emit(s1, CondBr(c, t, t + 1)), t);
    NeatInst(o, av, s2, CallThrow, s2.next, {t + 1}, broken);
    NeatMove(o, av, Emit(s2, CallThrow), Unreachable, t + 1, {t + 1}, broken);
    assert {t + 1} - {t + 1} == {};
  }

  lemma NeatZeroDiv(o: TState, av: seq<set<nat>>, s: TState, b: Opd, broken: set<Label>)
    requires s.cur < |s.blocks| && Neat(o, av, s, {}, broken) && RegsOf(b) <= Now(o, av, s)
    ensures Neat(o, av, TrapZeroDiv(s, b), {}, broken) && Now(o, av, TrapZeroDiv(s, b)) == Base(o, av)
  {
    hide Neat, Now, TrapIf, EmitBin;
    NeatBin(o, av, s, LCmp(Eq), b, Const(Zero(TypeOf(b))), {}, broken);
    NeatTrapIf(o, av, EmitBin(s, LCmp(Eq), b, Const(Zero(TypeOf(b)))), Reg(s.next, I1), broken);
  }

  lemma NeatPair(o: TState, av: seq<set<nat>>, s: TState, t: Ty, pred: Pred, join: LOp, a: Opd, b: Opd, todo: set<Label>,
                 broken: set<Label>)
    requires s.cur < |s.blocks| && Neat(o, av, s, todo, broken) && RegsOf(a) + RegsOf(b) <= Now(o, av, s)
    ensures Neat(o, av, PairTest(s, t, pred, join, a, b), todo, broken)
    ensures Now(o, av, s) + {s.next + 2} <= Now(o, av, PairTest(s, t, pred, join, a, b))
  {
    hide Neat, Now, EmitBin;
    NeatBin(o, av, s, LCmp(pred), a, Const(MinSigned(t)), todo, broken);
    var s1 := EmitBin(s, LCmp(pred), a, Const(MinSigned(t)));
    NeatBin(o, av, s1, LCmp(pred), b, Const(MinusOne(t)), todo, broken);
    NeatBin(o, av, EmitBin(s1, LCmp(pred), b, Const(MinusOne(t))), join, Reg(s.next, I1), Reg(s1.next, I1), todo, broken);
  }

  lemma NeatSZeroDiv(o: TState, av: seq<set<nat>>, s: TState, a: Opd, b: Opd, broken: set<Label>)
    requires s.cur < |s.blocks| && Neat(o, av, s, {}, broken) && RegsOf(a) + RegsOf(b) <= Now(o, av, s)
    ensures Neat(o, av, TrapSZeroDiv(s, a, b), {}, broken) && Now(o, av, TrapSZeroDiv(s, a, b)) == Base(o, av)
  {
    hide Neat, Now, EmitBin, PairTest, TrapIf;
    NeatPair(o, av, s, TypeOf(a), Eq, LAnd, a, b, {}, broken);
    var s1 := PairTest(s, TypeOf(a), Eq, LAnd, a, b);
    NeatBin(o, av, s1, LCmp(Eq), b, Const(Zero(TypeOf(b))), {}, broken);
    var s2 := EmitBin(s1, LCmp(Eq), b, Const(Zero(TypeOf(b))));
    NeatBin(o, av, s2, LOr, Reg(s1.next, I1), Reg(s1.next - 1, I1), {}, broken);
    NeatTrapIf(o, av, SZeroTest(s, a, b), Reg(s.next + 4, I1), broken);
  }

  // ----- the signed remainder -----

  lemma NeatMore(o: TState, av: seq<set<nat>>, s: TState, todo: set<Label>, broken: set<Label>, more: set<Label>)
    requires Neat(o, av, s, todo, broken) && broken <= more
    ensures Neat(o, av, s, todo, more)
  {
    hide Builds, Certified, PhiAgrees, Single, OneTerms, Steady;
  }

  /** SRemJoin without its push. */
  function Joined(s: TState, t: IntTy, a: Opd, b: Opd, pre: Label, end: Label): (r: TState)
    requires s.cur < |s.blocks| && end < |s.blocks|
    ensures forall phi :: SRemJoin(s, t, a, b, pre, end, phi) == Push(r, Reg(phi, t))
  {
    var s2 := At(Emit(EmitBin(s, LSRem, a, b), Br(end)), end);
    AddIncoming(AddIncoming(s2, end, Reg(s.next, TypeOf(a)), s.cur), end, Const(Zero(t)), pre)
  }

  lemma NeatFork(o: TState, av: seq<set<nat>>, s: TState, t: IntTy, a: Opd, b: Opd, broken: set<Label>)
    requires s.cur < |s.blocks| && Neat(o, av, s, {}, broken) && RegsOf(a) + RegsOf(b) <= Now(o, av, s)
    ensures var end := |s.blocks| + 1; var f := SRemFork(s, t, a, b);
            && !Pending(o.cf, end) && |o.blocks| <= end
            && Neat(o, av, f, {end}, broken + {end}) && Now(o, av, f) == Base(o, av)
  {
    hide Neat, Now, Builds, Pending, PairTest;
    var thn, end := |s.blocks|, |s.blocks| + 1;
    NeatNew(o, av, s, None, {}, broken);
    assert {} + {thn} == {thn};
    NeatNew(o, av, NewBlock(s, None), Some(t), {thn}, broken);
    var s1 := NewBlock(NewBlock(s, None), Some(t));
    NeatPair(o, av, s1, t, Ne, LOr, a, b, {thn} + {end}, broken);
    var s2 := PairTest(s1, t, Ne, LOr, a, b);
    NeatMore(o, av, s2, {thn} + {end}, broken, broken + {end});
    ForkBlocks(s, t, a, b);
    NeatMove(o, av, s2, CondBr(Reg(s2.next - 1, I1), thn, end), thn, {thn} + {end}, broken + {end});
    assert {thn} + {end} - {thn} == {end};
  }

  lemma ForkBlocks(s: TState, t: IntTy, a: Opd, b: Opd)
    requires s.cur < |s.blocks|
    ensures var s2 := PairTest(NewBlock(NewBlock(s, None), Some(t)), t, Ne, LOr, a, b);
            && |s2.blocks| == |s.blocks| + 2 && s2.blocks[|s.blocks|] == Blk(None, None, [], [])
            && s2.cur == s.cur && s2.next == s.next + 4
  {
  }

  /** The pairs of the join: one for the edge from the division block, one for the edge from before it. */
  function WithPairs(g: Graph, end: Label, v: Opd, thn: Label, z: Opd, pre: Label): Graph
    requires end < |g|
  {
    g[end := g[end].(incoming := [In(v, thn), In(z, pre)])]
  }

  lemma PairsPhis(g: Graph, end: Label, v: Opd, thn: Label, z: Opd, pre: Label, broken: set<Label>)
    requires end < |g| && thn < |g| && pre < |g| && thn != pre && end != thn && end != pre
    requires Phis(g, broken + {end}) && Exits(g[pre]) == [thn, end] && Exits(g[thn]) == [end] && g[end].incoming == []
    requires forall a :: 0 <= a < |g| && a != pre && a != thn ==> end !in Exits(g[a])
    ensures Phis(WithPairs(g, end, v, thn, z, pre), broken)
  {
    var g' := WithPairs(g, end, v, thn, z, pre);
    forall a | 0 <= a < |g|
      ensures g'[a].insts == g[a].insts && Exits(g'[a]) == Exits(g[a]) && (a != end ==> g'[a].incoming == g[a].incoming)
    {
    }
    hide Exits, Froms;
    PairsEnd(g', end, thn, pre, v, z);
    forall t | 0 <= t < |g'| && g'[t].sig.Some? && t !in broken
      ensures PhiAgrees(g', t)
    {
      if t != end {
        assert PhiAgrees(g, t);
      }
    }
  }

  lemma PairsEnd(g: Graph, end: Label, thn: Label, pre: Label, v: Opd, z: Opd)
    requires end < |g| && thn < |g| && pre < |g| && thn != pre && end != thn
    requires Exits(g[pre]) == [thn, end] && Exits(g[thn]) == [end] && g[end].incoming == [In(v, thn), In(z, pre)]
    requires forall a :: 0 <= a < |g| && a != pre && a != thn ==> end !in Exits(g[a])
    ensures PhiAgrees(g, end)
  {
    assert Froms(g[end].incoming) == [thn, pre];
    hide Exits, Froms;
    assert multiset([thn, pre]) == multiset{thn, pre} && multiset([thn, end]) == multiset{thn, end} && multiset([end]) == multiset{end};
    forall a | 0 <= a < |g|
      ensures multiset([thn, pre])[a] == multiset(Exits(g[a]))[end]
    {
    }
  }

  lemma PairsCertified(g: Graph, av: seq<set<nat>>, end: Label, v: Opd, thn: Label, z: Opd, pre: Label)
    requires end < |g| && thn < |g| && pre < |g| && Certified(g, av) && g[end].incoming == []
    requires RegsOf(v) <= Out(g, av, thn) && RegsOf(z) == {}
    ensures Certified(WithPairs(g, end, v, thn, z, pre), av)
    ensures Out(WithPairs(g, end, v, thn, z, pre), av, end) == Out(g, av, end)
  {
    var g' := WithPairs(g, end, v, thn, z, pre);
    forall a | 0 <= a < |g|
      ensures g'[a].insts == g[a].insts && Exits(g'[a]) == Exits(g[a]) && Out(g', av, a) == Out(g, av, a)
    {
    }
    hide Exits, Out;
    forall t, k | 0 <= t < |g'| && 0 <= k < |g'[t].incoming| && g'[t].incoming[k].from < |g'|
      ensures RegsOf(g'[t].incoming[k].v) <= Out(g', av, g'[t].incoming[k].from)
    {
      if t == end {
        assert g'[t].incoming[k] == if k == 0 then In(v, thn) else In(z, pre);
      } else {
        assert g'[t] == g[t];
      }
    }
  }

  lemma PairsRest(g: Graph, end: Label, v: Opd, thn: Label, z: Opd, pre: Label, n: nat, og: Graph)
    requires end < |g| && OneTerms(g) && Single(g, n) && Steady(og, g) && |og| <= end
    ensures var g' := WithPairs(g, end, v, thn, z, pre); OneTerms(g') && Single(g', n) && Steady(og, g')
  {
    var g' := WithPairs(g, end, v, thn, z, pre);
    assert forall r: nat, b: nat, k: int :: DefinedAt(g', r, b, k) ==> DefinedAt(g, r, b, k);
    assert forall b :: 0 <= b < |g| ==> g'[b].insts == g[b].insts;
    assert forall t :: 0 <= t < |og| ==> g'[t] == g[t];
  }

  /** The graph between the fork and the join, seen from before the fork. */
  lemma JoinEdges(s: TState, t: IntTy, a: Opd, b: Opd, broken: set<Label>)
    requires s.cur < |s.blocks| && Phis(s.blocks, broken) && !Closed(s.blocks[s.cur])
    ensures var f, thn, end := SRemFork(s, t, a, b), |s.blocks|, |s.blocks| + 1;
            && f.cur == thn && f.next == s.next + 4
            && var s2 := At(Emit(EmitBin(f, LSRem, a, b), Br(end)), end);
            && |s2.blocks| == |s.blocks| + 2 && s2.blocks[end] == Blk(Some(t), Some(s.next), [], [])
            && Exits(s2.blocks[s.cur]) == [thn, end] && Exits(s2.blocks[thn]) == [end]
            && forall c :: 0 <= c < |s2.blocks| && c != s.cur && c != thn ==> end !in Exits(s2.blocks[c])
  {
    var f, thn, end := SRemFork(s, t, a, b), |s.blocks|, |s.blocks| + 1;
    var s2 := At(Emit(EmitBin(f, LSRem, a, b), Br(end)), end);
    assert Exits(s2.blocks[s.cur]) == [thn, end] && Exits(s2.blocks[thn]) == [end] && Exits(s2.blocks[end]) == [];
    forall c | 0 <= c < |s2.blocks| && c != s.cur && c != thn
      ensures end !in Exits(s2.blocks[c])
    {
      if c < |s.blocks| {
        assert s2.blocks[c] == s.blocks[c];
      }
    }
  }

  /** The finished join, from the state in which its block has become the insertion point. */
  lemma NeatPairs(o: TState, av: seq<set<nat>>, s2: TState, v: Opd, thn: Label, z: Opd, pre: Label, broken: set<Label>)
    requires s2.cur < |s2.blocks| && thn < |s2.blocks| && pre < |s2.blocks| && Neat(o, av, s2, {}, broken + {s2.cur})
    requires var g, end := s2.blocks, s2.cur;
             && |o.blocks| <= end && thn >= |o.blocks| && thn != pre && end != thn && end != pre
             && g[end].sig.Some? && g[end].phi.Some? && g[end].incoming == []
             && Exits(g[pre]) == [thn, end] && Exits(g[thn]) == [end]
             && (forall a :: 0 <= a < |g| && a != pre && a != thn ==> end !in Exits(g[a]))
             && RegsOf(v) <= Out(g, AvOf(o, av, s2), thn) && RegsOf(z) == {}
    ensures var s3 := AddIncoming(AddIncoming(s2, s2.cur, v, thn), s2.cur, z, pre);
            Neat(o, av, s3, {}, broken) && Now(o, av, s3) == Now(o, av, s2)
  {
    hide Builds, Certified, Phis, Single, OneTerms, Steady, Exits, Out, AddIncoming, WithPairs, Accounted, Closed, Pending, GraphOk;
    PairsShape(s2, v, thn, z, pre);
    NeatCore(o, av, s2, {}, broken + {s2.cur});
    PairsAccounted(s2, v, thn, z, pre);
    JoinBuilds(o, s2, v, thn, z, pre);
    PairsPhis(s2.blocks, s2.cur, v, thn, z, pre, broken);
    PairsCertified(s2.blocks, AvOf(o, av, s2), s2.cur, v, thn, z, pre);
    PairsRest(s2.blocks, s2.cur, v, thn, z, pre, s2.next, o.blocks);
  }

  lemma PairsShape(s: TState, v: Opd, thn: Label, z: Opd, pre: Label)
    requires s.cur < |s.blocks| && thn < |s.blocks| && pre < |s.blocks| && s.blocks[s.cur].incoming == []
    requires Exits(s.blocks[pre]) != [] && Exits(s.blocks[thn]) != []
    ensures var s3 := AddIncoming(AddIncoming(s, s.cur, v, thn), s.cur, z, pre);
            && s3 == s.(blocks := WithPairs(s.blocks, s.cur, v, thn, z, pre))
            && |s3.blocks| == |s.blocks|
    ensures Closed(s.blocks[pre]) && Closed(s.blocks[thn])
  {
    var inc := s.blocks[s.cur].incoming;
    assert inc + [In(v, thn)] + [In(z, pre)] == [In(v, thn), In(z, pre)];
    assert AddIncoming(AddIncoming(s, s.cur, v, thn), s.cur, z, pre).blocks == WithPairs(s.blocks, s.cur, v, thn, z, pre);
  }

  lemma PairsAccounted(s: TState, v: Opd, f: Label, v': Opd, f': Label)
    requires s.cur < |s.blocks| && Accounted(s, {})
    ensures Accounted(AddIncoming(AddIncoming(s, s.cur, v, f), s.cur, v', f'), {})
  {
  }

  lemma NeatSRem(o: TState, av: seq<set<nat>>, s: TState, t: IntTy, a: Opd, b: Opd, broken: set<Label>)
    requires s.cur < |s.blocks| && Neat(o, av, s, {}, broken) && RegsOf(a) + RegsOf(b) <= Base(o, av)
    ensures var j := Joined(SRemFork(s, t, a, b), t, a, b, s.cur, |s.blocks| + 1);
            Neat(o, av, j, {}, broken) && s.next in Now(o, av, j)
  {
    hide Neat, Now, Builds, Pending, PairTest, SRemFork, Out, Exits;
    var f, thn, end := SRemFork(s, t, a, b), |s.blocks|, |s.blocks| + 1;
    NeatKnown(o, av, s, broken);
    NeatFork(o, av, s, t, a, b, broken);
    JoinEdges(s, t, a, b, broken);
    SRemForkShape(s, t, a, b);
    NeatBin(o, av, f, LSRem, a, b, {end}, broken + {end});
    var s1 := EmitBin(f, LSRem, a, b);
    NeatMove(o, av, s1, Br(end), end, {end}, broken + {end});
    var s2 := At(Emit(s1, Br(end)), end);
    assert {end} - {end} == {};
    NeatCore(o, av, s1, {end}, broken + {end});
    JoinOut(o, av, s1, end);
    NeatPairs(o, av, s2, Reg(f.next, TypeOf(a)), thn, Const(Zero(t)), s.cur, broken);
  }

  lemma NeatKnown(o: TState, av: seq<set<nat>>, s: TState, broken: set<Label>)
    requires Neat(o, av, s, {}, broken)
    ensures Phis(s.blocks, broken) && s.cur < |s.blocks| && !Closed(s.blocks[s.cur]) && |o.blocks| <= |s.blocks|
    ensures Base(o, av) <= Now(o, av, s)
  {
  }

  /** Leaving a block does not change what was available at its end. */
  lemma JoinOut(o: TState, av: seq<set<nat>>, s1: TState, end: Label)
    requires Grown(o, av, s1) && end < |s1.blocks|
    ensures var s2 := At(Emit(s1, Br(end)), end);
            Grown(o, av, s2) && Out(s2.blocks, AvOf(o, av, s2), s1.cur) == Now(o, av, s1)
  {
    DefsAppend(s1.blocks[s1.cur].insts, Br(end));
  }

  /** A binary operator, up to its push, and the register of its result. */
  lemma NeatBinary(o: TState, av: seq<set<nat>>, s: TState, t: IntTy, op: BinOp, a: Opd, b: Opd, broken: set<Label>)
    requires s.cur < |s.blocks| && Neat(o, av, s, {}, broken) && RegsOf(a) + RegsOf(b) <= Base(o, av)
    ensures var r := EmitBinary(s, t, op, a, b); var s' := r.(stack := s.stack);
            Neat(o, av, s', {}, broken) && RegsOf(r.stack[|r.stack| - 1]) <= Now(o, av, s')
  {
    hide Neat, Now, TrapZeroDiv, TrapSZeroDiv, EmitSRem, BinPush, Base;
    NeatKnown(o, av, s, broken);
    match op
    case Add => NeatOp(o, av, s, LAdd, a, b, broken);
    case Sub => NeatOp(o, av, s, LSub, a, b, broken);
    case Mul => NeatOp(o, av, s, LMul, a, b, broken);
    case DivU => NeatZeroDiv(o, av, s, b, broken); NeatOp(o, av, TrapZeroDiv(s, b), LUDiv, a, b, broken);
    case RemU => NeatZeroDiv(o, av, s, b, broken); NeatOp(o, av, TrapZeroDiv(s, b), LURem, a, b, broken);
    case DivS => NeatSZeroDiv(o, av, s, a, b, broken); NeatOp(o, av, TrapSZeroDiv(s, a, b), LSDiv, a, b, broken);
    case RemS => NeatRem(o, av, s, t, a, b, broken);
  }

  lemma NeatRem(o: TState, av: seq<set<nat>>, s: TState, t: IntTy, a: Opd, b: Opd, broken: set<Label>)
    requires s.cur < |s.blocks| && Neat(o, av, s, {}, broken) && RegsOf(a) + RegsOf(b) <= Base(o, av)
    ensures var r := EmitSRem(s, t, a, b); var s' := r.(stack := s.stack);
            Neat(o, av, s', {}, broken) && RegsOf(r.stack[|r.stack| - 1]) <= Now(o, av, s')
  {
    hide Neat, Now, TrapZeroDiv, SRemFork, SRemJoin, Joined, Base;
    NeatKnown(o, av, s, broken);
    NeatZeroDiv(o, av, s, b, broken);
    var s0 := TrapZeroDiv(s, b);
    SRemForkShape(s0, t, a, b);
    NeatSRem(o, av, s0, t, a, b, broken);
    var j := Joined(SRemFork(s0, t, a, b), t, a, b, s0.cur, |s0.blocks| + 1);
    assert EmitSRem(s, t, a, b) == Push(j, Reg(s0.next, t));
    NeatStack(o, av, s, j, broken);
  }

  lemma NeatOp(o: TState, av: seq<set<nat>>, s: TState, op: LOp, a: Opd, b: Opd, broken: set<Label>)
    requires s.cur < |s.blocks| && Neat(o, av, s, {}, broken) && RegsOf(a) + RegsOf(b) <= Now(o, av, s)
    ensures var r := BinPush(s, op, a, b); var s' := r.(stack := s.stack);
            Neat(o, av, s', {}, broken) && RegsOf(r.stack[|r.stack| - 1]) <= Now(o, av, s')
  {
    hide Neat, Now;
    NeatBin(o, av, s, op, a, b, {}, broken);
    assert BinPush(s, op, a, b).(stack := s.stack) == EmitBin(s, op, a, b);
  }

  lemma NeatStack(o: TState, av: seq<set<nat>>, s: TState, s': TState, broken: set<Label>)
    requires Neat(o, av, s, {}, broken) && Neat(o, av, s', {}, broken)
    ensures s'.stack == s.stack
  {
  }
}
