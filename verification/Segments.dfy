/** Element and data segments: a chain of checks, then the copies; and the second phase of the table, which replaces
    the stored indices by addresses and type hashes. */
module Segments {
  import opened Values
  import opened Leb

  const WORD: int := 0x1_0000_0000

  type U32 = n: int | 0 <= n < 0x1_0000_0000

  /** A segment: what is written, from an offset on. */
  datatype Segment<T> = Segment(offset: U32, items: seq<T>)

  // ----- writing in order -----

  predicate FitsIn<T>(w: Segment<T>, size: nat) { w.offset + |w.items| <= size }

  predicate AllFit<T>(ws: seq<Segment<T>>, size: nat) {
    forall k :: 0 <= k < |ws| ==> FitsIn(ws[k], size)
  }

  function Put<T>(s: seq<T>, w: Segment<T>): (r: seq<T>)
    requires FitsIn(w, |s|)
    ensures |r| == |s|
  {
    s[..w.offset] + w.items + s[w.offset + |w.items|..]
  }

  function PutAll<T>(s: seq<T>, ws: seq<Segment<T>>): (r: seq<T>)
    requires AllFit(ws, |s|)
    ensures |r| == |s|
    decreases |ws|
  {
    if ws == [] then s else Put(PutAll(s, ws[..|ws| - 1]), ws[|ws| - 1])
  }

  /** The last segment that covers a slot decides what stands there. */
  function LastWrite<T>(ws: seq<Segment<T>>, i: nat): Option<T>
    decreases |ws|
  {
    if ws == [] then None
    else
      var w := ws[|ws| - 1];
      if w.offset <= i < w.offset + |w.items| then Some(w.items[i - w.offset]) else LastWrite(ws[..|ws| - 1], i)
  }

  /** Some segment covers the slot, and none after it does. */
  lemma {:induction false} LastWriter<T>(ws: seq<Segment<T>>, i: nat) returns (k: nat)
    ensures LastWrite(ws, i).None? <==> forall j :: 0 <= j < |ws| ==> !(ws[j].offset <= i < ws[j].offset + |ws[j].items|)
    ensures LastWrite(ws, i).Some? ==>
              && k < |ws| && ws[k].offset <= i < ws[k].offset + |ws[k].items|
              && LastWrite(ws, i).value == ws[k].items[i - ws[k].offset]
              && forall j :: k < j < |ws| ==> !(ws[j].offset <= i < ws[j].offset + |ws[j].items|)
    decreases |ws|
  {
    k := 0;
    if ws != [] {
      k := LastWriter(ws[..|ws| - 1], i);
      var w := ws[|ws| - 1];
      if w.offset <= i < w.offset + |w.items| { k := |ws| - 1; }
    }
  }

  lemma {:induction false} PutAllLast<T>(s: seq<T>, ws: seq<Segment<T>>, i: nat)
    requires AllFit(ws, |s|) && i < |s|
    ensures PutAll(s, ws)[i] == if LastWrite(ws, i).Some? then LastWrite(ws, i).value else s[i]
    decreases |ws|
  {
    if ws != [] {
      PutAllLast(s, ws[..|ws| - 1], i);
    }
  }

  /** One segment copied into place. */
  method CopyItems<T>(a: array<T>, w: Segment<T>)
    requires FitsIn(w, a.Length)
    modifies a
    ensures a[..] == Put(old(a[..]), w)
  {
    var i := 0;
    while i < |w.items|
      invariant 0 <= i <= |w.items|
      invariant a[..] == old(a[..])[..w.offset] + w.items[..i] + old(a[..])[w.offset + i..]
    {
      a[w.offset + i] := w.items[i];
      i := i + 1;
    }
  }

  method CopyAll<T>(a: array<T>, ws: seq<Segment<T>>)
    requires AllFit(ws, a.Length)
    modifies a
    ensures a[..] == PutAll(old(a[..]), ws)
  {
    var i := 0;
    while i < |ws|
      invariant 0 <= i <= |ws|
      invariant a[..] == PutAll(old(a[..]), ws[..i])
    {
      assert ws[..i + 1][..i] == ws[..i];
      CopyItems(a, ws[i]);
      i := i + 1;
    }
    assert ws[..|ws|] == ws;
  }

  // ----- tables -----

  /** The checks that are emitted for the element segments: the offset against the size, then every slot, added with
      the wrap-around of 32 bits. */
  method TableChecks(size: U32, segs: seq<Segment<nat>>) returns (ok: bool)
    ensures ok == AllFit(segs, size)
  {
    var i := 0;
    while i < |segs|
      invariant 0 <= i <= |segs| && AllFit(segs[..i], size)
    {
      var w := segs[i];
      if w.offset > size { return false; }
      var e := 0;
      while e < |w.items|
        invariant 0 <= e <= |w.items| && w.offset + e <= size
      {
        if (w.offset + e) % WORD >= size {
          assert !FitsIn(segs[i], size);
          return false;
        }
        e := e + 1;
      }
      assert segs[..i + 1] == segs[..i] + [w];
      i := i + 1;
    }
    assert segs[..|segs|] == segs;
    return true;
  }

  /** Function indices as they are stored first: one more than the index, so that null stays free. */
  function Stored(w: Segment<nat>): Segment<nat> {
    Segment(w.offset, seq(|w.items|, k requires 0 <= k < |w.items| => w.items[k] + 1))
  }

  function AllStored(segs: seq<Segment<nat>>): (ws: seq<Segment<nat>>)
    ensures |ws| == |segs| && forall size: nat :: AllFit(segs, size) ==> AllFit(ws, size)
  {
    seq(|segs|, k requires 0 <= k < |segs| => Stored(segs[k]))
  }

  /** The module's element initialiser: all checks of all segments come before the first copy. */
  method InitTable(ptrs: array<nat>, segs: seq<Segment<nat>>) returns (ok: bool)
    requires ptrs.Length < WORD
    modifies ptrs
    ensures ok == AllFit(segs, ptrs.Length)
    ensures ok ==> ptrs[..] == PutAll(old(ptrs[..]), AllStored(segs))
    ensures !ok ==> ptrs[..] == old(ptrs[..])
  {
    ok := TableChecks(ptrs.Length, segs);
    if ok {
      CopyAll(ptrs, AllStored(segs));
    }
  }

  /** A function of the module: the address of its code, zero when it was left out, and its type hash. */
  datatype FuncDef = FuncDef(address: nat, hash: nat)

  predicate Indexed(p: nat, count: nat) { 0 < p <= count }

  /** The slot holds the index of a function that was left out. */
  predicate Missing(p: nat, funcs: seq<FuncDef>) { Indexed(p, |funcs|) && funcs[p - 1].address == 0 }

  /** A slot after the second phase, which looked at it or did not. */
  predicate Remapped(p: nat, t: nat, seen: bool, funcs: seq<FuncDef>, p': nat, t': nat) {
    if seen && Indexed(p, |funcs|) then p' == funcs[p - 1].address && t' == funcs[p - 1].hash else p' == p && t' == t
  }

  /** The second phase: slots below the declared initial size that hold an index get the function's address and
      hash. It stops at the first function that was left out, where the source throws. */
  method Remap(ptrs: array<nat>, types: array<nat>, initial: nat, funcs: seq<FuncDef>) returns (stop: nat)
    requires ptrs != types && initial <= ptrs.Length == types.Length
    modifies ptrs, types
    ensures stop <= initial
    ensures stop < initial ==> var p := old(ptrs[stop]); 0 < p <= |funcs| && funcs[p - 1].address == 0
    ensures forall i :: 0 <= i < stop && 0 < old(ptrs[i]) <= |funcs| ==> funcs[old(ptrs[i]) - 1].address != 0
    ensures forall i :: 0 <= i < ptrs.Length ==>
              Remapped(old(ptrs[i]), old(types[i]), i < stop, funcs, ptrs[i], types[i])
  {
    stop := 0;
    while stop < initial
      invariant 0 <= stop <= initial
      invariant forall k :: 0 <= k < stop ==> !Missing(old(ptrs[k]), funcs)
      invariant forall k :: 0 <= k < ptrs.Length ==>
                  Remapped(old(ptrs[k]), old(types[k]), k < stop, funcs, ptrs[k], types[k])
    {
      var p := ptrs[stop];
      assert p == old(ptrs[stop]);
      if p != 0 && p <= |funcs| {
        var def := funcs[p - 1];
        if def.address == 0 { return; }
        ptrs[stop] := def.address;
        types[stop] := def.hash;
      }
      stop := stop + 1;
    }
  }

  datatype Outcome = Linked | BadIndex | DoesNotFit | OptedOut(at: nat)

  /** All functions named by a segment exist. */
  predicate Known(segs: seq<Segment<nat>>, count: nat) {
    forall k, e :: 0 <= k < |segs| && 0 <= e < |segs[k].items| ==> segs[k].items[e] < count
  }

  lemma {:induction false} LastStored(segs: seq<Segment<nat>>, i: nat)
    ensures LastWrite(AllStored(segs), i) ==
            if LastWrite(segs, i).Some? then Some(LastWrite(segs, i).value + 1) else None
    decreases |segs|
  {
    if segs != [] {
      var n := |segs| - 1;
      assert AllStored(segs)[..n] == AllStored(segs[..n]);
      LastStored(segs[..n], i);
    }
  }

  lemma {:induction false} LastKnown(segs: seq<Segment<nat>>, count: nat, i: nat)
    requires Known(segs, count)
    ensures LastWrite(segs, i).Some? ==> LastWrite(segs, i).value < count
    decreases |segs|
  {
    if segs != [] {
      var front := segs[..|segs| - 1];
      assert forall k :: 0 <= k < |front| ==> front[k] == segs[k];
      LastKnown(front, count, i);
    }
  }

  /** What the first phase leaves in a slot. */
  function Middle(before: seq<nat>, segs: seq<Segment<nat>>, i: nat): nat
    requires i < |before|
  {
    var w := LastWrite(segs, i);
    if w.Some? then w.value + 1 else before[i]
  }

  /** Both phases. A function index out of bounds is refused while the section is read, and a segment that does not fit
      by the checks: nothing has changed then. Else every slot has what the last segment over it wrote, or what it had;
      and below the initial size, up to the first function that was left out, indices have become addresses and hashes. */
  method InstantiateTable(ptrs: array<nat>, types: array<nat>, initial: nat, segs: seq<Segment<nat>>, funcs: seq<FuncDef>)
    returns (r: Outcome)
    requires ptrs != types && initial <= ptrs.Length == types.Length < WORD
    modifies ptrs, types
    ensures r.BadIndex? <==> exists k, e :: 0 <= k < |segs| && 0 <= e < |segs[k].items| && segs[k].items[e] >= |funcs|
    ensures r.DoesNotFit? <==>
            && (forall k, e :: 0 <= k < |segs| && 0 <= e < |segs[k].items| ==> segs[k].items[e] < |funcs|)
            && exists k :: 0 <= k < |segs| && segs[k].offset + |segs[k].items| > ptrs.Length
    ensures r.BadIndex? || r.DoesNotFit? ==> ptrs[..] == old(ptrs[..]) && types[..] == old(types[..])
    ensures r.Linked? ==> forall i :: 0 <= i < initial ==> !Missing(Middle(old(ptrs[..]), segs, i), funcs)
    ensures r.OptedOut? ==>
              && r.at < initial
              && (var p := Middle(old(ptrs[..]), segs, r.at); 0 < p <= |funcs| && funcs[p - 1].address == 0)
              && forall i :: 0 <= i < r.at ==> !Missing(Middle(old(ptrs[..]), segs, i), funcs)
    ensures r.Linked? || r.OptedOut? ==>
              var stop := if r.OptedOut? then r.at else initial;
              forall i :: 0 <= i < ptrs.Length ==>
                Remapped(Middle(old(ptrs[..]), segs, i), old(types[i]), i < stop, funcs, ptrs[i], types[i])
  {
    if !Known(segs, |funcs|) { return BadIndex; }
    ghost var before := ptrs[..];
    var fits := InitTable(ptrs, segs);
    if !fits { return DoesNotFit; }
    forall i | 0 <= i < ptrs.Length
      ensures ptrs[i] == Middle(before, segs, i)
    {
      assert ptrs[i] == ptrs[..][i];
      PutAllLast(before, AllStored(segs), i);
      LastStored(segs, i);
    }
    var stop := Remap(ptrs, types, initial, funcs);
    r := if stop == initial then Linked else OptedOut(stop);
  }

  /** All is well: the indices exist, the segments fit, no slot looks like an index before, and no listed function was left
      out. Then every slot below the initial size that a segment covers ends up with the nonzero address, and the hash, of
      the function its last writer names. */
  method InstantiateWell(ptrs: array<nat>, types: array<nat>, initial: nat, segs: seq<Segment<nat>>, funcs: seq<FuncDef>)
    requires ptrs != types && initial <= ptrs.Length == types.Length < WORD
    requires forall k, e :: 0 <= k < |segs| && 0 <= e < |segs[k].items| ==>
               segs[k].items[e] < |funcs| && funcs[segs[k].items[e]].address != 0
    requires forall k :: 0 <= k < |segs| ==> segs[k].offset + |segs[k].items| <= ptrs.Length
    requires forall i :: 0 <= i < ptrs.Length ==> ptrs[i] == 0 || ptrs[i] > |funcs|
    modifies ptrs, types
    ensures forall i, k :: 0 <= i < initial && WrittenBy(segs, i, k) ==>
              var f := segs[k].items[i - segs[k].offset];
              f < |funcs| && ptrs[i] == funcs[f].address != 0 && types[i] == funcs[f].hash
    ensures forall i :: 0 <= i < ptrs.Length && (forall k :: !WrittenBy(segs, i, k)) ==>
              ptrs[i] == old(ptrs[i]) && types[i] == old(types[i])
  {
    ghost var before := ptrs[..];
    var r := InstantiateTable(ptrs, types, initial, segs, funcs);
    forall i | 0 <= i < |before|
      ensures !Missing(Middle(before, segs, i), funcs)
      ensures forall k :: WrittenBy(segs, i, k) ==> LastWrite(segs, i) == Some(segs[k].items[i - segs[k].offset])
      ensures (forall k :: !WrittenBy(segs, i, k)) ==> LastWrite(segs, i).None?
    {
      assert before[i] == old(ptrs[i]);
      var k := LastWriter(segs, i);
      assert LastWrite(segs, i).Some? ==> WrittenBy(segs, i, k);
    }
    assert r.Linked?;
  }

  /** Segment k is the last that covers slot i. */
  ghost predicate WrittenBy(segs: seq<Segment<nat>>, i: nat, k: int) {
    && 0 <= k < |segs| && segs[k].offset <= i < segs[k].offset + |segs[k].items|
    && forall j :: k < j < |segs| ==> !(segs[j].offset <= i < segs[j].offset + |segs[j].items|)
  }

  /** A slot below the initial size that a segment covers ends up with the address and the hash of the last function
      written there. A slot that none covers is left alone, if its old pointer is null or above the number of functions;
      a smaller one is taken for an index. */
  lemma SlotMeaning(before: seq<nat>, segs: seq<Segment<nat>>, funcs: seq<FuncDef>, i: nat, t: nat, p': nat, t': nat)
    requires i < |before| && Known(segs, |funcs|) && Remapped(Middle(before, segs, i), t, true, funcs, p', t')
    ensures match LastWrite(segs, i)
            case Some(f) => f < |funcs| && p' == funcs[f].address && t' == funcs[f].hash
            case None =>
              if Indexed(before[i], |funcs|) then p' == funcs[before[i] - 1].address && t' == funcs[before[i] - 1].hash
              else p' == before[i] && t' == t
  {
    LastKnown(segs, |funcs|, i);
  }

  // ----- data -----

  const PAGE: int := 65536

  /** The emitted test: the offset is not negative as an i32, and the end, added with wrap-around, is not above the
      memory's size in bytes, multiplied with wrap-around. */
  predicate DataCheck(offset: U32, size: U32, pages: U32) {
    !(offset >= WORD / 2) && !((offset + size) % WORD > pages * PAGE % WORD)
  }

  /** The memory's size as the test computes it: 65536 pages are 0. */
  function WrappedSize(pages: U32): U32 { pages * PAGE % WORD }

  /** What the test decides: it accepts a segment exactly when the segment starts in the lower half of the address space
      and its end is within that size, before or after it wraps. */
  lemma DataCheckExact(offset: U32, size: U32, pages: U32)
    ensures DataCheck(offset, size, pages) <==>
            && offset < WORD / 2
            && (offset + size <= WrappedSize(pages) || WORD <= offset + size <= WORD + WrappedSize(pages))
    ensures pages <= PAGE ==> WrappedSize(pages) == if pages == PAGE then 0 else pages * PAGE
  {
  }

  /** The inputs on which the test does what it is for, which is to accept the segments of the lower half that fit. */
  predicate Decides(offset: U32, size: U32, pages: U32) {
    offset >= WORD / 2
    || if pages < PAGE then !(WORD <= offset + size <= WORD + pages * PAGE) else offset + size == 0 || offset + size >= WORD
  }

  lemma DataCheckFits(offset: U32, size: U32, pages: U32)
    requires pages <= PAGE
    ensures (DataCheck(offset, size, pages) <==> offset < WORD / 2 && offset + size <= pages * PAGE)
            <==> Decides(offset, size, pages)
    ensures pages < PAGE && size <= WORD / 2 ==> Decides(offset, size, pages)
  {
    DataCheckExact(offset, size, pages);
  }

  /** A long segment can pass without fitting, and of 65536 pages a segment that fits can be refused. */
  lemma DataCheckLimits()
    ensures DataCheck(0x7fff_ffff, 0x8000_0001, 1) && !(0x7fff_ffff + 0x8000_0001 <= 1 * PAGE)
    ensures !DataCheck(0, 1, 65536) && 0 + 1 <= 65536 * PAGE
  {
  }

  predicate LowerHalf(w: Segment<Byte>) { w.offset < WORD / 2 }

  /** Overrun: the checks have passed, and the copy of a segment would leave the memory. */
  datatype DataOutcome = Copied | Refused | Overrun(at: nat)

  /** Sizes are read as 32-bit integers. */
  predicate Sized(segs: seq<Segment<Byte>>) { forall k :: 0 <= k < |segs| ==> |segs[k].items| < WORD }

  predicate Passes(w: Segment<Byte>, pages: U32)
    requires |w.items| < WORD
  {
    DataCheck(w.offset, |w.items|, pages)
  }

  /** The module's data initialiser: all checks before the first copy; nothing is copied for an empty segment. */
  method InitData(mem: array<Byte>, pages: U32, segs: seq<Segment<Byte>>) returns (r: DataOutcome)
    requires pages <= PAGE && mem.Length == pages * PAGE && Sized(segs)
    modifies mem
    ensures r.Refused? <==> exists k :: 0 <= k < |segs| && !Passes(segs[k], pages)
    ensures r.Refused? ==> mem[..] == old(mem[..])
    ensures r.Copied? ==> AllFit(segs, mem.Length) && mem[..] == PutAll(old(mem[..]), segs)
    ensures r.Overrun? ==>
              && r.at < |segs| && !FitsIn(segs[r.at], mem.Length)
              && AllFit(segs[..r.at], mem.Length) && mem[..] == PutAll(old(mem[..]), segs[..r.at])
  {
    var i := 0;
    while i < |segs|
      invariant 0 <= i <= |segs|
      invariant forall k :: 0 <= k < i ==> Passes(segs[k], pages)
      invariant mem[..] == old(mem[..])
    {
      if !Passes(segs[i], pages) { return Refused; }
      i := i + 1;
    }
    assert segs[..0] == [];
    i := 0;
    while i < |segs|
      invariant 0 <= i <= |segs| && AllFit(segs[..i], mem.Length)
      invariant mem[..] == PutAll(old(mem[..]), segs[..i])
    {
      assert segs[..i + 1][..i] == segs[..i];
      if !FitsIn(segs[i], mem.Length) { return Overrun(i); }
      if |segs[i].items| > 0 {
        CopyItems(mem, segs[i]);
      } else {
        PutNothing(mem[..], segs[i]);
      }
      i := i + 1;
    }
    assert segs[..|segs|] == segs;
    return Copied;
  }

  /** Below 65536 pages, and with segments of at most half the address space, the checks let pass exactly the segments
      that all fit and start in the lower half: then there is no overrun. */
  lemma NoOverrun(pages: U32, segs: seq<Segment<Byte>>)
    requires pages < PAGE && forall k :: 0 <= k < |segs| ==> |segs[k].items| <= WORD / 2
    ensures (forall k :: 0 <= k < |segs| ==> Passes(segs[k], pages)) <==>
            AllFit(segs, pages * PAGE) && forall k :: 0 <= k < |segs| ==> LowerHalf(segs[k])
  {
    forall k | 0 <= k < |segs|
      ensures Passes(segs[k], pages) <==> FitsIn(segs[k], pages * PAGE) && LowerHalf(segs[k])
    {
      DataCheckFits(segs[k].offset, |segs[k].items|, pages);
    }
  }

  lemma PutNothing<T>(s: seq<T>, w: Segment<T>)
    requires FitsIn(w, |s|) && w.items == []
    ensures Put(s, w) == s
  {
  }

  /** After a successful initialisation every byte is the one the last segment over it holds, or the old one. */
  lemma DataBytes(before: seq<Byte>, segs: seq<Segment<Byte>>, i: nat)
    requires AllFit(segs, |before|) && i < |before|
    ensures PutAll(before, segs)[i] == if LastWrite(segs, i).Some? then LastWrite(segs, i).value else before[i]
  {
    PutAllLast(before, segs, i);
  }
}
