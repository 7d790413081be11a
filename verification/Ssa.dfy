/** The emitted graph is well-formed SSA: what that means, and what each building step keeps of it. */
module Ssa {
  import opened Values
  import opened Cfg
  import opened Wasm
  import opened TranslatorSpec
  import opened Invariant
  import opened Steps

  // ----- one terminator -----

  /** Nothing follows a terminator. */
  predicate OneTerm(b: Blk) { forall k :: 0 <= k < |b.insts| - 1 ==> !IsTerm(b.insts[k]) }

  ghost predicate OneTerms(g: Graph) { forall b :: 0 <= b < |g| ==> OneTerm(g[b]) }

  /** Every block has its terminator, except the insertion block, the blocks the frames wait for, and
      the blocks of todo. */
  ghost predicate Accounted(s: TState, todo: set<Label>) {
    forall b :: 0 <= b < |s.blocks| ==> Closed(s.blocks[b]) || (b == s.cur && Live(s)) || Pending(s.cf, b) || b in todo
  }

  // ----- phis and edges -----

  /** The edges out of a block. */
  function Exits(b: Blk): seq<Label> {
    if Closed(b) then Succs(b.insts[|b.insts| - 1]) else []
  }

  function Froms(inc: seq<Incoming>): seq<Label> {
    seq(|inc|, k requires 0 <= k < |inc| => inc[k].from)
  }

  /** As many incoming pairs from every block as there are edges from it. */
  ghost predicate PhiAgrees(g: Graph, t: Label)
    requires t < |g|
  {
    forall a :: 0 <= a < |g| ==> multiset(Froms(g[t].incoming))[a] == multiset(Exits(g[a]))[t]
  }

  /** All edges lead to blocks, and every block made with a phi, unless it is in broken, has one pair
      for each edge. */
  ghost predicate Phis(g: Graph, broken: set<Label>) {
    && (forall a, k :: 0 <= a < |g| && 0 <= k < |Exits(g[a])| ==> Exits(g[a])[k] < |g|)
    && (forall t :: 0 <= t < |g| && g[t].sig.Some? && t !in broken ==> PhiAgrees(g, t))
  }

  // ----- single definition -----

  function Dst(i: Inst): Option<nat> {
    match i
    case Load(d, _) => Some(d)
    case Bin(d, _, _, _) => Some(d)
    case ZExt(d, _) => Some(d)
    case Select(d, _, _, _) => Some(d)
    case _ => None
  }

  /** Register r is defined in block b by instruction k, or by the phi for k = -1. */
  predicate DefinedAt(g: Graph, r: nat, b: nat, k: int) {
    && b < |g| && -1 <= k < |g[b].insts|
    && (if k == -1 then g[b].phi == Some(r) else Dst(g[b].insts[k]) == Some(r))
  }

  ghost predicate Single(g: Graph, n: nat) {
    && (forall r: nat, b: nat, k: int :: DefinedAt(g, r, b, k) ==> r < n)
    && (forall r: nat, b: nat, k: int, b': nat, k': int :: DefinedAt(g, r, b, k) && DefinedAt(g, r, b', k') ==> b == b' && k == k')
  }

  // ----- availability -----

  function RegsOf(o: Opd): set<nat> { if o.Reg? then {o.id} else {} }

  function Uses(i: Inst): set<nat> {
    match i
    case Store(_, v) => RegsOf(v)
    case Bin(_, _, a, b) => RegsOf(a) + RegsOf(b)
    case ZExt(_, a) => RegsOf(a)
    case Select(_, c, a, b) => RegsOf(c) + RegsOf(a) + RegsOf(b)
    case CondBr(c, _, _) => RegsOf(c)
    case Switch(c, _, _) => RegsOf(c)
    case Ret(r) => if r.Some? then RegsOf(r.value) else {}
    case _ => {}
  }

  function DstSet(i: Inst): set<nat> { if Dst(i).Some? then {Dst(i).value} else {} }

  function Defs(insts: seq<Inst>): set<nat>
    decreases |insts|
  {
    if insts == [] then {} else Defs(insts[..|insts| - 1]) + DstSet(insts[|insts| - 1])
  }

  /** Every instruction reads only registers of start and of the instructions before it. */
  predicate UsesOk(start: set<nat>, insts: seq<Inst>)
    decreases |insts|
  {
    insts == [] ||
    (UsesOk(start, insts[..|insts| - 1]) && Uses(insts[|insts| - 1]) <= start + Defs(insts[..|insts| - 1]))
  }

  function PhiSet(b: Blk): set<nat> { if b.phi.Some? then {b.phi.value} else {} }

  /** The registers available at the end of a block, for av those that are at its start. */
  function Out(g: Graph, av: seq<set<nat>>, b: Label): set<nat>
    requires b < |g| && b < |av|
  {
    av[b] + PhiSet(g[b]) + Defs(g[b].insts)
  }

  /** av certifies availability: it is empty at the function's entry, holds along every edge, covers every use in
      every block, and every incoming pair at the end of its predecessor. */
  ghost predicate Certified(g: Graph, av: seq<set<nat>>) {
    && |av| == |g|
    && (forall a, k :: 0 <= a < |g| && 0 <= k < |Exits(g[a])| && Exits(g[a])[k] < |g| ==> av[Exits(g[a])[k]] <= Out(g, av, a))
    && (forall b :: 0 <= b < |g| ==> UsesOk(av[b] + PhiSet(g[b]), g[b].insts))
    && (forall t, k :: 0 <= t < |g| && 0 <= k < |g[t].incoming| && g[t].incoming[k].from < |g| ==>
          RegsOf(g[t].incoming[k].v) <= Out(g, av, g[t].incoming[k].from))
  }

  // ----- appending an instruction -----

  function Append(g: Graph, b: Label, i: Inst): Graph
    requires b < |g|
  {
    g[b := g[b].(insts := g[b].insts + [i])]
  }

  lemma AppendTerms(g: Graph, b: Label, i: Inst)
    requires b < |g| && OneTerms(g) && !Closed(g[b])
    ensures OneTerms(Append(g, b, i))
  {
    assert OneTerm(g[b]);
  }

  lemma FromOpen(g: Graph, n: nat, t: Label, b: Label)
    requires GraphOk(g, n) && t < |g| && b < |g| && !Closed(g[b])
    ensures multiset(Froms(g[t].incoming))[b] == 0
  {
    assert BlkOk(g, n, g[t]);
    forall k | 0 <= k < |g[t].incoming|
      ensures Froms(g[t].incoming)[k] != b
    {
      assert FromClosed(g, g[t].incoming[k]);
    }
  }

  /** A terminator into blocks without phis, or an ordinary instruction. */
  lemma AppendPhis(g: Graph, n: nat, b: Label, i: Inst, broken: set<Label>)
    requires b < |g| && GraphOk(g, n) && Phis(g, broken) && !Closed(g[b])
    requires IsTerm(i) ==> forall k :: 0 <= k < |Succs(i)| ==>
               Succs(i)[k] < |g| && (g[Succs(i)[k]].sig.None? || Succs(i)[k] in broken)
    ensures Phis(Append(g, b, i), broken)
  {
    hide Exits, Froms, Append, GraphOk, Closed;
    var g' := Append(g, b, i);
    AppendShape(g, b, i);
    forall t | 0 <= t < |g'| && g'[t].sig.Some? && t !in broken
      ensures PhiAgrees(g', t)
    {
      assert PhiAgrees(g, t);
      FromOpen(g, n, t, b);
      assert t !in Exits(g'[b]);
    }
  }

  lemma AppendShape(g: Graph, b: Label, i: Inst)
    requires b < |g| && !Closed(g[b])
    ensures var g' := Append(g, b, i);
            && |g'| == |g| && Exits(g'[b]) == (if IsTerm(i) then Succs(i) else []) && Exits(g[b]) == []
            && (forall a :: 0 <= a < |g| && a != b ==> Exits(g'[a]) == Exits(g[a]))
            && (forall a :: 0 <= a < |g| ==> g'[a] == g[a].(insts := g'[a].insts))
  {
  }

  lemma AppendSingle(g: Graph, b: Label, i: Inst, n: nat, n': nat)
    requires b < |g| && Single(g, n) && (Dst(i) == None || Dst(i) == Some(n)) && n <= n' && (Dst(i) == Some(n) ==> n < n')
    ensures Single(Append(g, b, i), n')
  {
    var g' := Append(g, b, i);
    forall r: nat, c: nat, k: int | DefinedAt(g', r, c, k)
      ensures DefinedAt(g, r, c, k) || (r == n < n' && c == b && k == |g[b].insts| && Dst(i) == Some(r))
    {
    }
  }

  lemma DefsAppend(body: seq<Inst>, i: Inst)
    ensures Defs(body + [i]) == Defs(body) + DstSet(i)
  {
    assert (body + [i])[..|body|] == body;
  }

  lemma UsesAppend(start: set<nat>, body: seq<Inst>, i: Inst)
    requires UsesOk(start, body) && Uses(i) <= start + Defs(body)
    ensures UsesOk(start, body + [i])
  {
    assert (body + [i])[..|body|] == body;
  }

  lemma AppendCertified(g: Graph, av: seq<set<nat>>, b: Label, i: Inst)
    requires b < |g| && Certified(g, av) && !Closed(g[b]) && Uses(i) <= Out(g, av, b)
    requires IsTerm(i) ==> forall k :: 0 <= k < |Succs(i)| && Succs(i)[k] < |g| ==> av[Succs(i)[k]] <= Out(g, av, b)
    ensures Certified(Append(g, b, i), av)
    ensures Out(Append(g, b, i), av, b) == Out(g, av, b) + DstSet(i)
  {
    var g' := Append(g, b, i);
    DefsAppend(g[b].insts, i);
    UsesAppend(av[b] + PhiSet(g[b]), g[b].insts, i);
    assert forall a :: 0 <= a < |g| ==> Out(g, av, a) <= Out(g', av, a);
    assert forall a :: 0 <= a < |g| && a != b ==> Exits(g'[a]) == Exits(g[a]);
    assert Exits(g'[b]) == if IsTerm(i) then Succs(i) else [];
  }

  // ----- a fresh block -----

  lemma FreshPhis(g: Graph, n: nat, b: Blk, broken: set<Label>)
    requires GraphOk(g, n) && Phis(g, broken) && b.incoming == [] && b.insts == []
    ensures Phis(g + [b], broken)
  {
    var g' := g + [b];
    assert Exits(b) == [];
    assert forall a :: 0 <= a < |g| ==> g'[a] == g[a];
    forall t | 0 <= t < |g'| && g'[t].sig.Some? && t !in broken
      ensures PhiAgrees(g', t)
    {
      hide Exits, Froms;
      if t < |g| {
        assert PhiAgrees(g, t);
        FromKnown(g, n, t, |g|);
      } else {
        assert g'[t] == b && |Froms(b.incoming)| == 0;
        forall a | 0 <= a < |g|
          ensures t !in Exits(g[a])
        {
        }
      }
    }
  }

  lemma FromKnown(g: Graph, n: nat, t: Label, b: Label)
    requires GraphOk(g, n) && t < |g| && b >= |g|
    ensures multiset(Froms(g[t].incoming))[b] == 0
  {
    assert BlkOk(g, n, g[t]);
    forall k | 0 <= k < |g[t].incoming|
      ensures Froms(g[t].incoming)[k] != b
    {
      assert FromClosed(g, g[t].incoming[k]);
    }
  }

  lemma FreshSingle(g: Graph, n: nat, b: Blk, n': nat)
    requires Single(g, n) && b.insts == [] && (b.phi == None || b.phi == Some(n)) && n <= n' && (b.phi == Some(n) ==> n < n')
    ensures Single(g + [b], n')
  {
    forall r: nat, c: nat, k: int | DefinedAt(g + [b], r, c, k)
      ensures DefinedAt(g, r, c, k) || (r == n < n' && c == |g| && k == -1 && b.phi == Some(r))
    {
    }
  }

  lemma FreshCertified(g: Graph, av: seq<set<nat>>, n: nat, b: Blk, A: set<nat>, broken: set<Label>)
    requires Certified(g, av) && b.insts == [] && b.incoming == [] && GraphOk(g, n) && Phis(g, broken)
    ensures Certified(g + [b], av + [A])
    ensures forall a :: 0 <= a < |g| ==> Out(g + [b], av + [A], a) == Out(g, av, a)
  {
    var g', av' := g + [b], av + [A];
    assert Exits(b) == [];
    forall t, k | 0 <= t < |g'| && 0 <= k < |g'[t].incoming| && g'[t].incoming[k].from < |g'|
      ensures RegsOf(g'[t].incoming[k].v) <= Out(g', av', g'[t].incoming[k].from)
    {
      assert t < |g| && BlkOk(g, n, g[t]) && FromClosed(g, g[t].incoming[k]);
    }
  }
}
