/** The main result in the terms of the standard alone: a function that the typing rules type is translated, and its graph
    does what the function does. */
module Meaning {
  import opened Values
  import opened Cfg
  import opened Wasm
  import opened TranslatorSpec
  import opened Acceptance
  import opened NumericSim
  import opened Correctness
  import opened Declarative

  /** The locals as the machine keeps them. */
  function Memory(lo: seq<Val>): Env { map x: nat | x < |lo| :: lo[x] }

  /** For every well-typed function, all arguments and all fuel: the graph returns the value that the call returns, or traps
      when it traps, with the same locals; and when the call went round loops more often than the fuel allows, the graph has
      made that many steps and still runs. */
  lemma Preserved(f: Func, args: seq<Val>, fuel: nat) returns (n: nat)
    requires WellTyped(f)
    requires |args| == |f.params| && forall i :: 0 <= i < |args| ==> args[i].ty == f.params[i]
    ensures Translate(f, Flatten(f.body) + [TEnd]).Some?
    ensures var p := Prog(Translate(f, Flatten(f.body) + [TEnd]).value.blocks, args);
            var cs := RunN(p, Running(FENTRY, 0, map[], map[]), n);
            match Invoke(f, args, fuel)
            case Ok(v, lo) => cs == Returned(v, Memory(lo))
            case Trapping(lo) => cs == Trapped(Memory(lo))
            case Diverging => cs.Running? && n >= fuel
            case Bad => false
  {
    hide Translate, Invoke, RunN, Valid, WellTyped, Flatten;
    ValidExact(f);
    ValidIsTranslated(f);
    n := CallPreserved(f, args, fuel);
  }

  /** The call never comes to an end if and only if the graph never does. */
  lemma ForEver(f: Func, args: seq<Val>)
    requires WellTyped(f)
    requires |args| == |f.params| && forall i :: 0 <= i < |args| ==> args[i].ty == f.params[i]
    ensures Translate(f, Flatten(f.body) + [TEnd]).Some?
    ensures var p := Prog(Translate(f, Flatten(f.body) + [TEnd]).value.blocks, args);
            Diverges(f, args) <==> RunsForever(p)
  {
    hide Translate, Valid, WellTyped, Flatten, Diverges, RunsForever;
    ValidExact(f);
    ValidIsTranslated(f);
    DivergencePreserved(f, args);
  }
}
