/** From availability to dominance: along every path from the entry block, a register that is read has been
    defined before. */
module Dominance {
  import opened Values
  import opened Cfg
  import opened TranslatorSpec
  import opened Ssa

  /** A path of control from the function's entry block. */
  ghost predicate IsPath(g: Graph, path: seq<Label>) {
    && path != [] && path[0] == FENTRY
    && (forall i :: 0 <= i < |path| ==> path[i] < |g|)
    && (forall i :: 0 <= i < |path| - 1 ==> path[i + 1] in Exits(g[path[i]]))
  }

  /** Register r has been defined on the way: in an earlier block, or before instruction k of the last one. */
  ghost predicate DefinedOn(g: Graph, path: seq<Label>, r: nat, k: int) {
    exists i, j :: 0 <= i < |path| && DefinedAt(g, r, path[i], j) && (i < |path| - 1 || j < k)
  }

  /** Every path to block b defines r before instruction k of b. */
  ghost predicate Dominated(g: Graph, r: nat, b: Label, k: int) {
    forall path: seq<Label> :: IsPath(g, path) && path[|path| - 1] == b ==> DefinedOn(g, path, r, k)
  }

  lemma {:induction false} DefsAt(g: Graph, b: Label, k: nat, r: nat) returns (j: nat)
    requires b < |g| && k <= |g[b].insts| && r in Defs(g[b].insts[..k])
    ensures j < k && DefinedAt(g, r, b, j)
    decreases k
  {
    var body := g[b].insts[..k];
    assert body[..k - 1] == g[b].insts[..k - 1];
    if r in Defs(body[..k - 1]) {
      j := DefsAt(g, b, k - 1, r);
    } else {
      j := k - 1;
    }
  }

  lemma {:induction false} UsesAt(start: set<nat>, insts: seq<Inst>, k: nat)
    requires UsesOk(start, insts) && k < |insts|
    ensures Uses(insts[k]) <= start + Defs(insts[..k])
    decreases |insts|
  {
    if k < |insts| - 1 {
      UsesAt(start, insts[..|insts| - 1], k);
      assert insts[..|insts| - 1][..k] == insts[..k];
    }
  }

  /** What is available at the start of a block has been defined in an earlier block of every path to it. */
  lemma {:induction false} AvailableOn(g: Graph, av: seq<set<nat>>, path: seq<Label>, r: nat)
    requires Certified(g, av) && FENTRY < |g| && av[FENTRY] == {} && IsPath(g, path)
    requires r in av[path[|path| - 1]]
    ensures exists i, j :: 0 <= i < |path| - 1 && DefinedAt(g, r, path[i], j)
    decreases |path|
  {
    var n := |path| - 1;
    if n > 0 {
      var a, t := path[n - 1], path[n];
      assert path[n - 1 + 1] in Exits(g[a]);
      var k :| 0 <= k < |Exits(g[a])| && Exits(g[a])[k] == t;
      assert av[t] <= Out(g, av, a);
      if r in av[a] {
        var front := path[..n];
        AvailableOn(g, av, front, r);
        var i, j :| 0 <= i < |front| - 1 && DefinedAt(g, r, front[i], j);
        assert front[i] == path[i];
      } else if r in PhiSet(g[a]) {
        assert DefinedAt(g, r, path[n - 1], -1);
      } else {
        assert g[a].insts[..|g[a].insts|] == g[a].insts;
        var j := DefsAt(g, a, |g[a].insts|, r);
        assert DefinedAt(g, r, path[n - 1], j);
      }
    }
  }

  /** What is available before instruction k of a block dominates that point. */
  lemma AvailableDominates(g: Graph, av: seq<set<nat>>, b: Label, k: nat, r: nat)
    requires Certified(g, av) && FENTRY < |g| && av[FENTRY] == {} && b < |g| && k <= |g[b].insts|
    requires r in av[b] + PhiSet(g[b]) + Defs(g[b].insts[..k])
    ensures Dominated(g, r, b, k)
  {
    forall path: seq<Label> | IsPath(g, path) && path[|path| - 1] == b
      ensures DefinedOn(g, path, r, k)
    {
      if r in av[b] {
        AvailableOn(g, av, path, r);
      } else if r in PhiSet(g[b]) {
        assert DefinedAt(g, r, path[|path| - 1], -1);
      } else {
        var j := DefsAt(g, b, k, r);
        assert DefinedAt(g, r, path[|path| - 1], j);
      }
    }
  }

  /** Every read of an instruction, and every incoming value at the end of its block, is dominated by the
      definition it reads. */
  ghost predicate UsesDominated(g: Graph) {
    && (forall b, k, r :: 0 <= b < |g| && 0 <= k < |g[b].insts| && r in Uses(g[b].insts[k]) ==> Dominated(g, r, b, k))
    && (forall t, k, r :: 0 <= t < |g| && 0 <= k < |g[t].incoming| && r in RegsOf(g[t].incoming[k].v) ==>
          && g[t].incoming[k].from < |g|
          && Dominated(g, r, g[t].incoming[k].from, |g[g[t].incoming[k].from].insts|))
  }

  lemma CertifiedDominates(g: Graph, av: seq<set<nat>>)
    requires Certified(g, av) && FENTRY < |g| && av[FENTRY] == {}
    requires forall t, k :: 0 <= t < |g| && 0 <= k < |g[t].incoming| ==> g[t].incoming[k].from < |g|
    ensures UsesDominated(g)
  {
    forall b, k, r | 0 <= b < |g| && 0 <= k < |g[b].insts| && r in Uses(g[b].insts[k])
      ensures Dominated(g, r, b, k)
    {
      UsesAt(av[b] + PhiSet(g[b]), g[b].insts, k);
      AvailableDominates(g, av, b, k, r);
    }
    forall t, k, r | 0 <= t < |g| && 0 <= k < |g[t].incoming| && r in RegsOf(g[t].incoming[k].v)
      ensures Dominated(g, r, g[t].incoming[k].from, |g[g[t].incoming[k].from].insts|)
    {
      var a := g[t].incoming[k].from;
      assert RegsOf(g[t].incoming[k].v) <= Out(g, av, a);
      assert g[a].insts[..|g[a].insts|] == g[a].insts;
      AvailableDominates(g, av, a, |g[a].insts|, r);
    }
  }
}
