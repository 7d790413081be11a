/** What every token keeps: the shape of the control stack, the pending blocks it names, the freshness
    of registers and the source of every phi entry. */
module Invariant {
  import opened Values
  import opened Cfg
  import opened Wasm
  import opened TranslatorSpec

  /** The control stack and the label stack grow together; entry i sits at depth i; floors are ordered;
      only the top can be unreachable; an entry has an else block exactly while it is an if. */
  ghost predicate Frames(s: TState) {
    && |s.labels| == |s.cf|
    && (forall i :: 0 <= i < |s.cf| ==> FrameOk(s.cf[i], i, |s.stack|))
    && (forall i, j :: 0 <= i < j < |s.cf| ==> s.cf[i].outerStack <= s.cf[j].outerStack)
    && (forall i :: 0 <= i < |s.cf| - 1 ==> s.cf[i].reachable)
  }

  predicate FrameOk(e: CFEntry, depth: nat, height: nat) {
    && e.outerBlocks == depth
    && e.outerStack <= height
    && e.elseReachable
    && (e.els.Some? <==> e.kind == CfIf)
  }

  /** The lower of the blocks an entry still has to fill. */
  function Low(e: CFEntry): Label { if e.els.Some? then e.els.value else e.end }

  /** The end block of an entry is empty and keeps its phi; so is its else block, which has no phi. */
  predicate PendingOk(g: Graph, e: CFEntry) {
    && e.end < |g|
    && g[e.end].insts == []
    && g[e.end].sig == e.sig
    && (e.sig.Some? ==> g[e.end].phi.Some?)
    && (e.els.Some? ==> e.els.value < e.end && g[e.els.value].insts == [] && g[e.els.value].sig == None)
  }

  predicate LabelOk(g: Graph, e: CFEntry, l: BlockEntry) {
    && l.block < |g|
    && if e.kind == CfLoop then l.sig == None && g[l.block].sig == None else l == BlockEntry(e.sig, e.end)
  }

  predicate FromClosed(g: Graph, inc: Incoming) { inc.from < |g| && Closed(g[inc.from]) }

  ghost predicate BlkOk(g: Graph, n: nat, b: Blk) {
    && (b.sig.None? ==> b.phi.None?)
    && (b.phi.None? ==> b.incoming == [])
    && (b.phi.Some? ==> b.phi.value < n)
    && forall k :: 0 <= k < |b.incoming| ==> FromClosed(g, b.incoming[k])
  }

  ghost predicate GraphOk(g: Graph, n: nat) {
    forall b :: 0 <= b < |g| ==> BlkOk(g, n, g[b])
  }

  ghost predicate Entries(g: Graph, cf: seq<CFEntry>, labels: seq<BlockEntry>) {
    && |labels| == |cf|
    && (forall i :: 0 <= i < |cf| ==> PendingOk(g, cf[i]))
    && (forall i, j :: 0 <= i < j < |cf| ==> cf[i].end < Low(cf[j]))
    && (forall i :: 0 <= i < |cf| ==> LabelOk(g, cf[i], labels[i]))
  }

  predicate RegBelow(o: Opd, n: nat) { o.Reg? ==> o.id < n }

  /** Registers on the stack are older than the next one; those below a frame are older than its phi. */
  ghost predicate Regs(s: TState)
    requires Entries(s.blocks, s.cf, s.labels) && Frames(s)
  {
    && (forall k :: 0 <= k < |s.stack| ==> RegBelow(s.stack[k], s.next))
    && (forall i, k :: 0 <= i < |s.cf| && 0 <= k < s.cf[i].outerStack && s.cf[i].sig.Some? ==>
          RegBelow(s.stack[k], s.blocks[s.cf[i].end].phi.value))
  }

  ghost predicate Core(s: TState) {
    && s.cur < |s.blocks|
    && Frames(s)
    && GraphOk(s.blocks, s.next)
    && Entries(s.blocks, s.cf, s.labels)
    && Regs(s)
  }

  lemma CoreInRange(s: TState)
    requires Core(s)
    ensures InRange(s)
  {
    forall i | 0 <= i < |s.cf|
      ensures s.cf[i].end < |s.blocks| && s.labels[i].block < |s.blocks|
      ensures s.cf[i].els.Some? ==> s.cf[i].els.value < |s.blocks|
    {
      assert PendingOk(s.blocks, s.cf[i]) && LabelOk(s.blocks, s.cf[i], s.labels[i]);
    }
  }

  ghost predicate Pending(cf: seq<CFEntry>, b: Label) {
    exists i :: 0 <= i < |cf| && (cf[i].end == b || cf[i].els == Some(b))
  }

  /** The insertion point can take an instruction and is no block an entry still waits for. */
  ghost predicate CurOpen(s: TState)
    requires s.cur < |s.blocks|
  {
    !Closed(s.blocks[s.cur]) && !Pending(s.cf, s.cur)
  }

  ghost predicate Inv(s: TState) {
    && Core(s)
    && (Live(s) ==> CurOpen(s) && s.depth == 0)
    && (!Live(s) ==> |s.stack| == Top(s).outerStack)
  }

  // ----- the building steps -----

  lemma EmitGraph(s: TState, i: Inst)
    requires s.cur < |s.blocks| && !Closed(s.blocks[s.cur])
    requires GraphOk(s.blocks, s.next)
    ensures GraphOk(Emit(s, i).blocks, s.next) && Grows(s.blocks, Emit(s, i).blocks)
  {
    var g, g' := s.blocks, Emit(s, i).blocks;
    forall b | 0 <= b < |g|
      ensures BlkOk(g', s.next, g'[b])
    {
      assert BlkOk(g, s.next, g[b]);
      forall k | 0 <= k < |g'[b].incoming|
        ensures FromClosed(g', g'[b].incoming[k])
      {
        assert FromClosed(g, g[b].incoming[k]);
      }
    }
  }

  lemma EmitEntries(s: TState, ins: Inst)
    requires s.cur < |s.blocks| && !Pending(s.cf, s.cur) && Entries(s.blocks, s.cf, s.labels)
    ensures Entries(Emit(s, ins).blocks, s.cf, s.labels)
    ensures forall i :: 0 <= i < |s.cf| ==> Emit(s, ins).blocks[s.cf[i].end] == s.blocks[s.cf[i].end]
  {
    var g, g' := s.blocks, Emit(s, ins).blocks;
    forall i | 0 <= i < |s.cf|
      ensures PendingOk(g', s.cf[i]) && LabelOk(g', s.cf[i], s.labels[i]) && g'[s.cf[i].end] == g[s.cf[i].end]
    {
      assert PendingOk(g, s.cf[i]) && LabelOk(g, s.cf[i], s.labels[i]);
    }
  }

  lemma EmitCore(s: TState, i: Inst)
    requires Core(s) && CurOpen(s)
    ensures Core(Emit(s, i)) && Grows(s.blocks, Emit(s, i).blocks)
    ensures !IsTerm(i) ==> CurOpen(Emit(s, i))
    ensures IsTerm(i) ==> Closed(Emit(s, i).blocks[s.cur])
  {
    EmitGraph(s, i);
    EmitEntries(s, i);
  }

  lemma BumpCore(s: TState, n: nat)
    requires Core(s) && n >= s.next
    ensures Core(s.(next := n))
  {
    var s' := s.(next := n);
    forall b | 0 <= b < |s.blocks|
      ensures BlkOk(s'.blocks, n, s'.blocks[b])
    {
      assert BlkOk(s.blocks, s.next, s.blocks[b]);
    }
    forall k | 0 <= k < |s.stack|
      ensures RegBelow(s.stack[k], s'.next)
    {
      assert RegBelow(s.stack[k], s.next);
    }
  }

  lemma EmitDefCore(s: TState, i: Inst)
    requires Core(s) && CurOpen(s) && !IsTerm(i)
    ensures Core(EmitDef(s, i)) && CurOpen(EmitDef(s, i)) && Grows(s.blocks, EmitDef(s, i).blocks)
  {
    EmitCore(s, i);
    BumpCore(Emit(s, i), s.next + 1);
  }

  lemma NewBlockCore(s: TState, sig: BlockType)
    requires Core(s)
    ensures Core(NewBlock(s, sig)) && Grows(s.blocks, NewBlock(s, sig).blocks)
    ensures CurOpen(s) ==> CurOpen(NewBlock(s, sig))
    ensures !Pending(s.cf, |s.blocks|)
  {
    var s' := NewBlock(s, sig);
    var g, g' := s.blocks, s'.blocks;
    forall b | 0 <= b < |g'|
      ensures BlkOk(g', s'.next, g'[b])
    {
      if b < |s.blocks| {
        assert BlkOk(g, s.next, g[b]);
        forall k | 0 <= k < |g[b].incoming|
          ensures FromClosed(g', g[b].incoming[k])
        {
          assert FromClosed(g, g[b].incoming[k]);
        }
      }
    }
    forall i | 0 <= i < |s.cf|
      ensures PendingOk(g', s'.cf[i]) && LabelOk(g', s'.cf[i], s'.labels[i]) && g'[s.cf[i].end] == g[s.cf[i].end]
      ensures s.cf[i].end != |g| && s.cf[i].els != Some(|g|)
    {
      assert PendingOk(g, s.cf[i]) && LabelOk(g, s.cf[i], s.labels[i]);
    }
    forall k | 0 <= k < |s.stack|
      ensures RegBelow(s.stack[k], s'.next)
    {
      assert RegBelow(s.stack[k], s.next);
    }
  }

  lemma PushCore(s: TState, o: Opd)
    requires Core(s) && RegBelow(o, s.next)
    ensures Core(Push(s, o))
  {
    var s' := Push(s, o);
    forall i | 0 <= i < |s.cf|
      ensures FrameOk(s'.cf[i], i, |s'.stack|)
    {
      assert FrameOk(s.cf[i], i, |s.stack|);
    }
    forall i, k | 0 <= i < |s.cf| && 0 <= k < s.cf[i].outerStack && s.cf[i].sig.Some?
      ensures RegBelow(s'.stack[k], s'.blocks[s'.cf[i].end].phi.value)
    {
      assert FrameOk(s.cf[i], i, |s.stack|);
      assert RegBelow(s.stack[k], s.blocks[s.cf[i].end].phi.value);
    }
  }

  /** Cutting the stack down to a height no frame is above. */
  lemma CutCore(s: TState, h: nat)
    requires Core(s) && h <= |s.stack| && (|s.cf| > 0 ==> Top(s).outerStack <= h)
    ensures Core(s.(stack := s.stack[..h]))
  {
    var s' := s.(stack := s.stack[..h]);
    forall i | 0 <= i < |s.cf|
      ensures FrameOk(s'.cf[i], i, |s'.stack|)
    {
      assert FrameOk(s.cf[i], i, |s.stack|);
    }
  }

  lemma DropCore(s: TState)
    requires Core(s) && CanPop(s)
    ensures Core(Drop(s)) && RegBelow(TopOpd(s), s.next)
  {
    CutCore(s, |s.stack| - 1);
  }
}
