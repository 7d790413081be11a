# The WebAssembly translator of wembed, modelled and proved

wembed compiles a WebAssembly module with LLVM. Its heart is a one-pass translator, `module::parse_section_code`, that
turns the structured stack code of a function into a control-flow graph with phi nodes. It keeps an operand stack, a
stack of open frames, a stack of labels and a counter for dead code, and it never looks back at what it emitted. This
project models that translator, the arithmetic it emits, the integer decoder it reads with, and the initialisation of
tables and memory, and proves what each of them is for.

## What is proved

**Meaning.** `Meaning.Preserved` and `Meaning.ForEver`, from `Correctness.CallPreserved`, `HaltReflected` and
`DivergencePreserved`: for every well-typed function and all arguments, the emitted graph, run from its entry with phis
resolved by the incoming edge, returns the value that the structured semantics returns, traps exactly when that traps,
runs for ever exactly when that does, and leaves the same locals. Loops go round any number of times. The graph machine
never gets stuck. Well-typed is what the declarative rules of the standard type; `Declarative.ValidExact` shows that the
validation algorithm decides this relation. The laws of the integer operators themselves are in `Arithmetic` and `Division`.

**Form of the graph.** `WellFormed.AcceptedGraph`: whatever tokens the translator accepts, valid or not, every block of
the graph ends in exactly one terminator with nothing after it, branch targets exist, registers are defined once, and
every use is dominated by its definition (on paths, with phi uses at the end of the incoming block). The pairs of every
phi match the edges into its block, as multisets, if and only if no `if` with a result was closed without an `else`.
`WellFormed.PhisExact` says so of the code itself: for every accepted function, phis and edges agree if and only if each
live `if` with a result has an `else`. `WellFormed.ValidGraph` shows that valid functions meet this.
`WellFormed.OperandsDominated` says of every state on the way, in live and in dead code, that the operands on the stack are
defined on every path to the insertion point. `Safety.ReadsDefined` and `Safety.PhisDefined` say what this form is for: no
run of an accepted function, valid or not, reads an undefined register, and, if each live `if` with a result has an `else`,
none enters a block whose phi has no value for the edge.

**Acceptance and typing.** `Acceptance.ValidIsTranslated`: every valid function is translated without a throw or a failed
assertion. `Typing.AcceptedExact` gives the accepted functions themselves, as an equivalence: those whose live code passes
validation without two checks, the types of numeric operands and the `else` of an `if` with a result.
`Typing.FunctionExact` adds these checks: accepted, and they hold, if and only if the live code validates. The checks are
missed: `Typing.WidthBlind` is an accepted function with an `i32.add` of two `i64` values, `WellFormed.BareIfBreaks` one with
an `if` that has a result and no `else`.

**Dead code.** `Structure.DeadBodySkipped`: a dead body changes nothing at all. `Skipping.SameImmediates`: for every opcode
the skip loop consumes the bytes the live decoder consumes, if and only if the reserved byte, where there is one, is below
128; `Skipping.SkipArrives` carries that over any stretch of code, and `Skipping.SkipDead` is the loop itself.
`Encoding.SkipBody` says, from the bytes of the binary format alone, that it stops right after any body it is started in.

**Arithmetic.** Wrap-around, comparisons, division and remainder, rotations, the meaning of floats, the eight
trapping and eight saturating float-to-int conversions, and minimum and maximum of floats, on all bit patterns.

**LEB128, tables, data.** Round trips with exact cursor consumption for minimal and padded encodings; initialisation of
tables and memory that is all or nothing and resolves overlaps to the last writer.

## How the model is built

- `Values`, `Cfg`: values, and a small LLVM-like graph with its executor. A block is an instruction sequence with an
  optional phi; a register is a number; locals are memory cells.
- `Wasm`: structured code, its flattening to tokens, validation (section 3.3.5 of the WebAssembly Core Specification 1.0)
  and execution (sections 4.4.5 and 4.4.6). Execution takes a fuel that only loop back-edges consume.
- `TranslatorSpec`: the state of the translator and one function per opcode. `Translator` is the translator itself: a
  class with the source's fields, whose methods take the source's steps in the source's order, each proved equal to the
  function for its opcode; `TranslateFunction` holds the loop over the tokens.
- `Declarative`: the typing rules as a relation, and the algorithm of `Wasm` as its decision procedure. `Meaning`: the main
  result.
- `Invariant`, `Steps`: what every token keeps. `Structure`: the token loop along the structure of the code. `Acceptance`,
  `Typing`: validation against the translator.
- `Simulation`, `NumericSim`, `Lines`, `Edges`, `FrameSim`, `Preservation`, `Correctness`: the simulation, from one
  instruction to whole calls.
- `Ssa`, `SsaSteps`, `SsaBranches`, `SsaTokens`, `SsaFrames`, `Dominance`, `WellFormed`, `Safety`: the form of the graph.
- `Arithmetic`, `Division`, `Rotations`, `Floats`, `FloatBits`, `Truncation`, `MinMax`: arithmetic. `Powers`, `Bits`: powers
  of two and masks. `Leb`, `Skipping`, `Encoding`: bytes. `Segments`: tables and memory.

A float is its three fields (sign, exponent, mantissa), which `FloatBits` masks out of its bits with the constants of the
source; its value is exact, as an integer multiple of the smallest subnormal. A word of a rotation is a sequence of bits.

`dafny verify --resource-limit 2000000 --verification-time-limit 0 dfyconfig.toml` checks the project.

## Model

| member | source | states |
|---|---|---|
| Meaning.Preserved | src/module.cpp:1121-1987 | for every function the typing rules type, all arguments and all fuel: it is translated, and the graph returns the call's value, or traps when it traps, with the same locals, or has made as many steps as the fuel and still runs |
| Meaning.ForEver | src/module.cpp:1121-1987 | for every such function the call runs for ever if and only if the graph does |
| Declarative.ValidExact | src/module.cpp:1177-1980 | the validation algorithm accepts exactly the functions the declarative typing rules of section 3.3 type, and these are the functions the translator is for |
| Declarative.Sound | src/module.cpp:1177-1462 | code the algorithm accepts has the type, by the rules, of any operands its result stands for |
| Declarative.Complete | src/module.cpp:1177-1462 | code the rules type is accepted by the algorithm, with a result that stands for these operands |
| Correctness.CallPreserved | src/module.cpp:1121-1987 | for every valid function, all arguments and all fuel, the graph reaches the very result of the call (value, trap, locals); a call that ran out of fuel has used at least that many machine steps |
| Correctness.HaltReflected | src/module.cpp:1121-1987 | a graph that halts after n steps halts in the result the call has with any fuel above n; it is never stuck |
| Correctness.DivergencePreserved | src/module.cpp:1121-1987 | the call diverges if and only if the graph runs for ever |
| Correctness.EntrySim | src/module.cpp:1144-1173 | after the stores of the entry block the memory cells hold the arguments and then the zeros of the declared locals |
| Correctness.ReturnSim | src/module.cpp:1974-1980 | arriving in the end block with the function's result returns that result with the locals as they are |
| Preservation.BodySim | src/module.cpp:1177-1462 | for every validated body and any fuel, the graph emitted for it simulates its execution: it falls through, branches to a label with the right result and unwound operands, traps or returns as the body does |
| Preservation.LoopRounds | src/module.cpp:1296-1307 | any number of rounds of a loop is simulated from the head block, whose label takes no result |
| Preservation.LoopSeq | src/module.cpp:1296-1307 | a loop and what follows it |
| Preservation.BlockSeq | src/module.cpp:1288-1294 | a block and what follows it |
| Preservation.IfElseSeq | src/module.cpp:1309-1346 | both arms of an if, joined in the end block, and what follows |
| Preservation.IfOnlySeq | src/module.cpp:1309-1321 | an if whose missing arm goes straight to the end, and what follows |
| FrameSim.EndSim | src/module.cpp:1348-1386 | the outcome of a nested body becomes that of the construct around it: a branch to depth 0 and falling off the end both arrive after the end with the frame's result, a deeper branch passes on one level less |
| FrameSim.ArriveSim | src/module.cpp:1369-1386 | landing in the end block leaves the operands below the frame and the result, which is the phi |
| FrameSim.FallSim | src/module.cpp:1362-1367 | the absent arm of an if without a result goes from the else block to the end block; WellFormed.BareFall says what happens with a result |
| FrameSim.IfHeadSim | src/module.cpp:1309-1321 | the condition leads to the then block unless it is zero, and then to the else block |
| FrameSim.PlainSim | src/module.cpp:1284-1770 | every instruction without a body is simulated by what was emitted for it |
| Edges.EnterPhi | src/module.cpp:1396-1404 | over an edge that hands over a value the phi of the target takes that value |
| Edges.EdgeSim | src/module.cpp:1395-1462 | a terminator that leads to a label lands there with the handed-over result and the operands outside that label's frame, now and after all later growth of the graph |
| Edges.BrIfSim | src/module.cpp:1407-1420 | br_if goes to its label unless the condition is zero, and else on in the fresh block with the result still on the stack |
| Edges.BrTableSim | src/module.cpp:1422-1452 | br_table goes to the target its index selects, and to the default from the number of targets on, whatever the repetitions |
| Lines.LocalSim | src/module.cpp:1553-1574 | get_local, set_local and tee_local, and const, drop and nop: loads and stores of the right cell |
| Lines.SelectSim | src/module.cpp:1536-1541 | select yields the first operand unless the condition is zero, and then the second |
| Lines.NumSim | src/module.cpp:1710-1770 | integer operators, comparisons and tests put the specified value on the stack or trap |
| NumericSim.BinarySim | src/module.cpp:503-552 | the code emitted for each integer operator computes the result of section 4.3.2, over as many blocks as it takes, or traps where that has none |
| NumericSim.SRemSim | src/module.cpp:518-552 | the fork and join of the signed remainder yield zero for the least value by minus one without dividing, and trap on zero |
| Arithmetic.SumLaw | src/module.cpp:1759-1759 | the result of add is the pattern of the width that differs from the exact sum, signed or not, by a multiple of two to the width |
| Arithmetic.DifferenceLaw | src/module.cpp:1760-1760 | the same for sub and the exact difference |
| Arithmetic.ProductLaw | src/module.cpp:1761-1761 | the same for mul and the exact product |
| Arithmetic.UnsignedDivisionLaw | src/module.cpp:503-516 | unsigned quotient and remainder trap exactly on zero; else dividend = quotient * divisor + remainder, with a remainder below the divisor |
| Arithmetic.SignedComparisons | src/module.cpp:1710-1730 | on the patterns of any two numbers of the signed range the signed comparisons, eq and ne compare the numbers |
| Arithmetic.UnsignedComparisons | src/module.cpp:1710-1730 | on the patterns of any two numbers below two to the width the unsigned comparisons, eq and ne compare the numbers |
| Simulation.SZeroDivSim | src/module.cpp:244-266 | the guard of signed division traps exactly on a zero divisor or the quotient that does not fit |
| Simulation.ZeroDivSim | src/module.cpp:239-243 | the guard of unsigned division traps exactly on a zero divisor |
| Simulation.TrapIfStep | src/module.cpp:202-219 | a conditional trap throws when its condition holds and else goes on with nothing changed |
| FrameSim.UnreachableSim | src/module.cpp:1388-1393 | unreachable traps |
| WellFormed.AcceptedGraph | src/module.cpp:1177-1980 | for every accepted token sequence the graph has one terminator per block and nothing after it, single definitions and dominated uses; phi pairs and edges agree as multisets if and only if no if with a result was closed without an else |
| WellFormed.PhisExact | src/module.cpp:1323-1386 | for every accepted function, valid or not, phi pairs and edges agree if and only if every live if with a result has an else: a condition on the code alone |
| WellFormed.BareIfBreaks | src/module.cpp:1362-1367 | a concrete function with such an if that is accepted and whose phi lacks a pair |
| WellFormed.BareFall | src/module.cpp:1362-1381 | running through the absent arm of an if with a result: stuck at the phi, or, when nothing else reaches the end and the phi was erased, on with the zero |
| WellFormed.ValidGraph | src/module.cpp:1177-1980 | the graph of every valid function is in that form and all its phis agree with the edges; erased phis have no edge into their block |
| WellFormed.TokenSsa | src/module.cpp:1184-1462 | every token in every reachable state keeps the graph in SSA form, and breaks at most the one phi of an if closed without an else |
| WellFormed.OperandsDominated | src/module.cpp:1112-1462 | in every state reached on any tokens, in live and in dead code, each operand on the stack is defined on every path to the insertion point |
| Safety.ReadsDefined | src/module.cpp:1177-1980 | no run of an accepted function, valid or not and on any arguments, reads a register before it is defined, or runs past the end of a block |
| Safety.PhisDefined | src/module.cpp:1323-1462 | if each live if with a result has an else, then wherever control can go at any time of a run the phi has a defined value for that edge |
| Safety.AcceptedBlocks | src/module.cpp:1177-1980 | each block of an accepted function ends in a terminator and has no other; a phi stands only in a block that was made with a result, and never in the entry |
| WellFormed.BodyBreaks | src/module.cpp:1362-1367 | a live body breaks no phi if and only if every if with a result has an else, up to where its code is dead |
| WellFormed.LeavesDead | src/module.cpp:1388-1462 | a live frame is dead after unreachable, br, br_table and return, and after no other instruction without a body |
| SsaFrames.EndSsa | src/module.cpp:1348-1386 | end keeps SSA form, whether it pushes the phi or erases it and pushes a zero |
| SsaFrames.ElseSsa | src/module.cpp:1323-1346 | else keeps SSA form |
| SsaFrames.EndBreaks | src/module.cpp:1362-1367 | an end that closes an if with a result and no else leaves an edge without a pair |
| SsaSteps.NeatSRem | src/module.cpp:534-551 | the join of the signed remainder is in SSA form with a pair for each of its two edges |
| SsaBranches.HandOverPhis | src/module.cpp:1431-1449 | handing a result to all targets of a terminator adds exactly one pair for each edge, with repeated br_table targets counted |
| Steps.StepKept | src/module.cpp:1184-1462 | every token keeps the invariant of the stacks: as many labels as frames, frame i opened at label depth i, floors non-decreasing and at most the stack height (equal in a dead frame), only the top frame dead, depth zero while it is live; and the graph only grows |
| Structure.StackDiscipline | src/module.cpp:103-119 | in every state reached on any tokens there are as many labels as frames, frame i was opened at label depth i, floors do not decrease and are at most the height of the operands, only the top frame can be dead and then has no operands, and no dead nesting is counted while it is live |
| Steps.SkipInv | src/module.cpp:1112-1119 | cutting the stack to the floor and marking the frame dead keeps the invariant |
| Steps.BrTableKept | src/module.cpp:1422-1452 | br_table keeps the invariant and only adds to the graph |
| Acceptance.ValidIsTranslated | src/module.cpp:1121-1980 | every valid function is translated: no throw, no failed assertion, all tokens used, the insertion point in the end block, all stacks empty again |
| Acceptance.BodyAccepted | src/module.cpp:1177-1462 | for every validated body the translator gets through and both end agreeing on labels, on reachability and on the types of all live operands |
| Acceptance.PlainAccepted | src/module.cpp:1284-1770 | an instruction that validates is accepted and leaves the operand types validation computes |
| Typing.FunctionExact | src/module.cpp:1177-1980 | a function that is accepted and passes the two checks the translator lacks, which are conditions on the code alone, is one whose live code validates, and the other way round |
| Typing.AcceptedExact | src/module.cpp:1177-1980 | the accepted functions are exactly those whose live code passes validation without the two missing checks |
| Typing.GuardsExact | src/module.cpp:1710-1754 | for every body the two forms of validation of live code differ by the two missing checks and by nothing else |
| Typing.ValidIsLive | src/module.cpp:1184-1283 | a function that validates also does so with its dead code taken as it is |
| Typing.BodyExact | src/module.cpp:1177-1462 | any body in any reachable state is accepted if and only if its live code passes those checks; and then the operand types above the floor of the open frame are the ones they compute |
| Typing.PlainExact | src/module.cpp:1284-1770 | a live instruction is accepted if and only if it passes those checks, and leaves the operand types they compute |
| Typing.BrTableExact | src/module.cpp:1422-1452 | br_table is accepted if and only if all labels have one type and the operands have it |
| Typing.NumOperands | src/module.cpp:239-263 | the operand types each numeric operator accepts: two of one type, integers for the signed division, the opcode's own for eqz |
| Typing.EndExact | src/module.cpp:1348-1360 | a frame can be closed if and only if exactly its result is left above its floor, or it is dead |
| Typing.WidthBlind | src/module.cpp:1750-1761 | an i32 addition of two i64 operands is accepted although it does not validate |
| Structure.LoopFlatten | src/module.cpp:1177-1201 | the flat loop over the tokens of a body does what a traversal of its structure does |
| Structure.DeadBodySkipped | src/module.cpp:1184-1283 | once a frame is dead, its body changes neither stacks nor graph, and the loop stops at the frame's own else or end |
| Structure.DeadToken | src/module.cpp:1184-1201 | a dead token only counts nesting |
| Structure.BodyFrame | src/module.cpp:1177-1462 | a body touches no frame or label around it and no operand below its floor |
| Structure.NestFrame | src/module.cpp:1348-1386 | after the end of a nested frame the frames and labels are those from before it and exactly its result is added |
| Translator.FunctionTranslator.constructor | inc/wembed/module.hpp:75-108 | a fresh translator has empty stacks, no blocks and nothing dead |
| Translator.FunctionTranslator.Peek | src/module.cpp:121-127 | the top operand, or a throw when the current frame has none |
| Translator.FunctionTranslator.Pop | src/module.cpp:141-149 | removes the top operand unless the current frame has none, and then changes nothing |
| Translator.FunctionTranslator.PopTyped | src/module.cpp:151-167 | succeeds exactly on an operand of the wanted type and removes it |
| Translator.FunctionTranslator.PushCFEntry | src/module.cpp:103-109 | opens a frame over the present operands and labels |
| Translator.FunctionTranslator.PushBlockEntry | src/module.cpp:111-113 | adds a label |
| Translator.FunctionTranslator.BranchTarget | src/module.cpp:115-119 | the label counted from the innermost, or a throw |
| Translator.FunctionTranslator.SkipRest | src/module.cpp:1112-1119 | the operands are cut to the floor and the frame is dead, or it throws |
| Translator.FunctionTranslator.BuildTrapIf | src/module.cpp:202-219 | a conditional branch to a fresh throwing block, and emission goes on in a second fresh block |
| Translator.FunctionTranslator.BuildSRem | src/module.cpp:518-552 | guard, fork, division block and join with two phi pairs |
| Translator.FunctionTranslator.Numeric | src/module.cpp:1542-1770 | pops two operands of one type, whatever the opcode's, and pushes the result |
| Translator.FunctionTranslator.SelectOp | src/module.cpp:1536-1541 | the step of select, or a throw, and no other change |
| Translator.FunctionTranslator.BlockOp | src/module.cpp:1288-1294 | the step of block |
| Translator.FunctionTranslator.LoopOp | src/module.cpp:1296-1307 | the step of loop: the label is the head block and has no result |
| Translator.FunctionTranslator.IfOp | src/module.cpp:1309-1321 | the step of if, or a throw |
| Translator.FunctionTranslator.ElseOp | src/module.cpp:1323-1346 | the step of else, or a throw or failed assertion |
| Translator.FunctionTranslator.EndOp | src/module.cpp:1348-1386 | the step of end, with the missing else arm and the erased phi, or a throw |
| Translator.FunctionTranslator.JumpOp | src/module.cpp:1395-1405 | result to the target's phi and branch |
| Translator.FunctionTranslator.BrIfOp | src/module.cpp:1407-1420 | the step of br_if, or a throw |
| Translator.FunctionTranslator.BrTableOp | src/module.cpp:1422-1452 | the step of br_table, or a throw |
| Translator.FunctionTranslator.BrTableCases | src/module.cpp:1440-1449 | the loop over the targets adds every case with its pair in order, and fails exactly on a target of another type |
| Translator.FunctionTranslator.LeaveOp | src/module.cpp:1388-1462 | the steps of unreachable, br and return |
| Translator.FunctionTranslator.LocalOp | src/module.cpp:1553-1574 | the steps of get_local, set_local and tee_local, or a throw |
| Translator.FunctionTranslator.Token | src/module.cpp:1184-1462 | one round of the loop, in live or in dead code |
| Translator.FunctionTranslator.Open | src/module.cpp:1136-1173 | the end block with its phi, the outermost frame, the entry block and its stores |
| Translator.FunctionTranslator.TranslateFunction | src/module.cpp:1136-1980 | for any tokens it succeeds exactly when the specification does, with the same state: the graph that the theorems above speak of |
| Division.SignedDivisionLaw | src/module.cpp:508-552 | where the signed quotient does not trap, dividend = quotient * divisor + remainder with a remainder smaller than the divisor and of the dividend's sign; remainder and quotient trap on zero; the least value by minus one traps the quotient and has remainder zero |
| Division.QuotientOverflow | src/module.cpp:258-262 | the one quotient out of range is the least value divided by minus one |
| Division.TruncLaw | src/module.cpp:508-511 | division truncating toward zero and its remainder |
| Rotations.RotlBit | src/module.cpp:479-492 | bit i of a left rotation by any count is bit (i - count) modulo the width |
| Rotations.RotrBit | src/module.cpp:494-501 | bit i of a right rotation by any count is bit (i + count) modulo the width |
| Rotations.RotlAdd | src/module.cpp:485-492 | rotating twice is rotating by the sum of the counts, also when the sum wraps |
| Rotations.RotateBack | src/module.cpp:485-501 | right and left rotation by the same count undo each other |
| Rotations.Masked | src/module.cpp:479-483 | a count masked with the width less one is its remainder by the width |
| Truncation.TrapExact | src/module.cpp:1616-1637 | for all eight conversions and every bit pattern the test traps if and only if the value is NaN, infinite, or truncates out of the target range |
| Truncation.LowerBound | src/module.cpp:1630-1637 | no float lies strictly between the hand-picked lower constant and the type's minimum minus one |
| Truncation.SatTruncClamps | src/module.cpp:1910-1934 | zero on NaN and else the truncated value clamped to the target range, whatever the out-of-range conversion yields |
| Truncation.SatTruncRefines | src/module.cpp:1910-1934 | equal to the trapping conversion where that does not trap, saturated at infinities, always in range |
| Truncation.FloatMeaning | inc/wembed/utils.hpp:43-86 | a float with exponent k above the bias truncates to its significand times two to the k, without what is then behind the point |
| Truncation.SmallFloats | inc/wembed/utils.hpp:43-86 | a float with an exponent below the bias truncates to zero |
| Truncation.TargetRange | src/module.cpp:1910-1925 | the ranges of the four integer targets as powers of two |
| Floats.NextAbove | src/module.cpp:1630-1637 | why the lower constants can be as far off as they are: a float above a power of two is above it by at least one step of the mantissa |
| FloatBits.Masked | inc/wembed/utils.hpp:43-86 | on the bits of any float each mask extracts its field and nothing else |
| FloatBits.FieldsOfRaw | inc/wembed/utils.hpp:52-62 | sign, exponent and mantissa are read back from the bits by the masks |
| FloatBits.RawOfFields | inc/wembed/utils.hpp:52-62 | every bit pattern of the width is the bits of the float the masks read from it |
| FloatBits.TestsExact | src/module.cpp:1619-1620 | the masked test of the exponent finds exactly the NaNs and the infinities, and with the test of the mantissa exactly the NaNs |
| FloatBits.QuietExact | src/module.cpp:554-573 | masking out the mantissa and setting the quiet bit keeps sign and exponent and makes the quiet bit the payload |
| MinMax.MinMaxKeys | src/module.cpp:583-642 | on values that are not NaN the selects pick the operand that is lower, or higher, in the total order with -0 below +0 |
| MinMax.Associative | src/module.cpp:583-642 | both operations are associative on all bit patterns |
| MinMax.Commutative | src/module.cpp:583-642 | both are commutative on values that are not NaN |
| MinMax.Dual | src/module.cpp:583-642 | each is the other under a flip of the sign bits, on all bit patterns |
| MinMax.NanResult | src/module.cpp:554-611 | the result is NaN exactly when an operand is; then it is the right NaN operand, or else the left, made quiet on its bits, and its payload is the quiet bit alone |
| MinMax.Zeros | src/module.cpp:592-611 | of the two zeros, in either order, the minimum is -0 and the maximum +0 |
| Leb.Reader.Groups | inc/wembed/module.hpp:172-179 | the loop reads to the first byte below 128 and assembles the groups, reduced to the width |
| Leb.Reader.ParseUleb128 | inc/wembed/module.hpp:171-181 | the value of the encoding at the cursor, and the cursor right after it |
| Leb.Reader.ParseSleb128 | inc/wembed/module.hpp:183-196 | the signed value, and exactly when the sign extension shifts an int too far |
| Leb.UnsignedRoundTrip | inc/wembed/module.hpp:171-181 | wherever an encoding of v stands in the code, minimal or padded, followed by anything, decoding yields v and ends right after it |
| Leb.SignedRoundTrip | inc/wembed/module.hpp:183-196 | the same for signed values, and decoding is defined if and only if v is not negative, or the encoding has at most four bytes, or it fills the width; always for i32 |
| Leb.ReadBack | inc/wembed/module.hpp:171-181 | parse_uleb128 on an encoding of v, minimal or padded up to the width and followed by anything, returns v and leaves the cursor right after it |
| Leb.ReadBackSigned | inc/wembed/module.hpp:183-196 | the same for parse_sleb128, with the exact condition for a defined result |
| Leb.OneLength | inc/wembed/module.hpp:171-181 | at most one encoding stands at a position |
| Leb.PayloadGroup | inc/wembed/module.hpp:176-178 | the seven low bits of byte k stand at bit 7k of the value that is read |
| Leb.EncodeGroup | inc/wembed/module.hpp:176-178 | byte k of an encoding holds the seven bits from bit 7k, also of a negative value, and all bytes but the last are marked |
| Skipping.SameImmediates | src/module.cpp:1184-1283 | for every opcode the skip loop consumes what the live decoder does if and only if the reserved byte is below 128 |
| Skipping.SkipArrives | src/module.cpp:1184-1283 | over any number of instructions both arrive at the same positions |
| Skipping.SkipImmediates | src/module.cpp:1203-1282 | the cursor stands after the immediates of the opcode |
| Skipping.SkipDead | src/module.cpp:1183-1283 | from the first byte of a dead frame's rest the loop with its depth counter stops right after the opcode of the first else or end at depth 0, at the instruction where the live decoder would find it |
| Encoding.InstrRead | src/module.cpp:1284-1942 | every instruction of the binary format, minimal or padded, ends where the live decoder goes on, and its reserved byte is one byte |
| Encoding.BodyEnds | src/module.cpp:1184-1283 | behind the bytes of any body the else or end is the first that does not belong to the body |
| Encoding.SkipBody | src/module.cpp:1183-1283 | from the first byte of any encoded body the skip loop stops right after the else or end that follows the body |
| Encoding.CodeSpelled | inc/wembed/lang.hpp:67-266 | the tokens of structured code are spelled, opcode by opcode, as the pieces of a body |
| Encoding.SkipCode | src/module.cpp:1183-1283 | tokens and bytes together: a dead body leaves the translator's state as it was, and the loop reads exactly its bytes |
| Segments.TableChecks | src/module.cpp:1016-1038 | the chain of checks passes exactly when every segment fits the table, with the 32-bit sums of the source, which never wrap |
| Segments.InitTable | src/module.cpp:1004-1064 | either some segment does not fit and nothing is written, or every segment is, in order, as function index plus one |
| Segments.Remap | src/context.cpp:214-234 | the slots below the declared initial size that hold an index get the address and type hash of that function, up to the first one whose function has no address, where it stops; all other slots are unchanged |
| Segments.InstantiateTable | src/module.cpp:1004-1064 | both phases and all outcomes: exactly on a function index out of bounds, or a segment that ends behind the table, the table is untouched; else every slot has what the last segment over it wrote, remapped below the declared size and below the first function whose address is zero |
| Segments.SlotMeaning | src/context.cpp:218-233 | a remapped slot has the address and hash of the last function written to it; a slot no segment covers is left alone, if its old pointer is null or above the number of functions, and is else taken for an index |
| Segments.InstantiateWell | src/module.cpp:1004-1064 | with existing indices, fitting segments, no slot that looks like an index and no function left out, every covered slot below the declared size holds the nonzero address and the hash of the function its last writer names, and no other slot changes |
| Segments.LastWriter | src/module.cpp:1040-1051 | what stands in a slot is what the last segment that covers it lists there |
| Segments.PutAllLast | src/module.cpp:1040-1051 | after all segments a slot holds what the last segment over it wrote, or what it held before |
| Segments.DataCheckExact | src/module.cpp:221-230 | what the 32-bit check passes, for every offset, size and number of pages |
| Segments.DataCheckFits | src/module.cpp:221-230 | the inputs on which the check passes exactly the segments of the lower half that fit, for every memory up to 65536 pages: all of them below 65536 pages and up to half the address space per segment |
| Segments.DataCheckLimits | src/module.cpp:221-230 | a longer segment can pass without fitting, and with 65536 pages a segment that fits is refused |
| Segments.InitData | src/module.cpp:1066-1110 | some check fails and memory is unchanged; or all segments are written in order; or, after all checks passed, the segments before the first that does not fit |
| Segments.NoOverrun | src/module.cpp:221-230 | below 65536 pages and up to half the address space per segment the checks pass exactly when all segments fit and start in the lower half |
| Segments.DataBytes | src/module.cpp:1086-1095 | after that a byte is the one of the last segment over it, or the old one |

## Where the code and its promises part

- An `if` with a result and no `else` gets an edge into its end block without a phi pair (src/module.cpp:1362-1367).
  `WellFormed.BareIfBreaks` is such a function, `WellFormed.PhisExact` shows that nothing else breaks a phi, and
  `WellFormed.BareFall` what running into it does. Such a body does not validate.
- Binary operators and comparisons pop two operands of any one type (src/module.cpp:1710-1754). `Typing.WidthBlind` is the
  counterexample, `Typing.WidthOk` the missing check.
- `parse_sleb128` extends the sign with a shifted `int` (inc/wembed/module.hpp:194), so a negative i64 in five to nine bytes
  has no defined value; `Leb.SignedRoundTrip` gives the exact condition.
- The data check compares the offset as a signed number (src/module.cpp:224), so offsets from 2^31 on are refused even
  where they fit; with 65536 pages its size wraps to 0, and a segment above half the address space can pass without fitting.
  `Segments.DataCheckFits` gives the exact inputs, `Segments.DataCheckLimits` one of each kind.
- The skip loop takes a reserved byte as one byte where the live decoder reads an integer (src/module.cpp:1203-1206,
  1232-1235 against 1591-1601).

## Left out

- LLVM: optimisation passes, its module verifier, the JIT, folding of constants, its own checks of operand types, and the
  order of blocks in memory. The entry is the block `fEntry`. The pointer cast on the value of set_local and tee_local is
  the identity here.
- Calls, globals, linear memory access, float arithmetic and conversions from integers, and the bitwise, shift and counting
  operators are not opcodes of the translator model; shifts by masked counts appear in the rotations.
- The bytes of live code are decoded to tokens before the translator model reads them; `Leb`, `Skipping` and `Encoding`
  treat the bytes. An opcode unknown to the decoder is not part of the model.
- Functions after the first: a translator starts with the empty stacks that an accepted function leaves.
- Encodings so long that the shift reaches the width of the type, which is undefined in the source. The fifth byte of an
  i32, shifted into the sign, is taken to wrap.
- Leb.Reader.ParseUleb128: the code must hold a terminated integer at the cursor; the source does not check for the end of
  the code.
- Segments.InitData: what a copy that leaves the memory does; it stops there.
- Segments.InstantiateTable: more than one table.
- Evaluation of offset initialisers, and segments of imported globals: offsets are given as numbers.
- The start function that runs between the two phases of a table is not part of the model.
- Types, imports, exports, custom and name sections, section dispatch, the command line, and profiling: record filling and
  input or output.
