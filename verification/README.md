# nnc, middle and back end

A Dafny model of the compiler nnc from the expression parser to the call sequence, with proofs that the
steps between a statement and its allocated code keep its meaning, and under which conditions.

`dafny verify dfyconfig.toml` checks the whole project. Nothing here executes the compiler.

One datatype of three-address quads and one small-step machine (temporaries, named memory, call frames,
program counter; module `Quads`) are shared by translation, optimization, liveness, allocation, control
flow and calls. The source's meaning is the big-step semantics of module `Ast`, the constant evaluator of
`src/nnc_ast_eval.c` that of module `AstEval`.

## The main results

1. **End to end** (`Pipeline.CompiledRuns`, `Pipeline.ModestRuns`). If the body of a procedure ends, then its
   code after translation, optimization, live ranges and register allocation, in the order the compiler takes
   them, halts with the same value and the same store, on a machine with registers and frame slots in which
   arguments pass in registers and every callee may leave anything in any register. Optimized code may read,
   on some paths, temporaries that nothing sets; the proof therefore follows the temporaries that are
   *needed*, those that flow into memory, jumps, calls or results, and shows that passes never make one needed
   where a jump goes back. Assumed are good windows in the optimizer (result 3) and an accepted pass of the
   generator (result 4), because the original is wrong without them; the first is proved for a class of sources
   (`Pipeline.MildRuns`), and both for those of them with few temporaries, calls and labels at a time.
2. **Translation** (`Procedure.ProcedureRuns`, `AstEval.ConstantRuns`). A forward simulation for any
   nesting of branches, loops, `break`, `continue` and `return`, with unbounded rounds; and agreement with
   the constant evaluator, whose one difference (left operands of commas) is stated exactly. The methods of
   `Translator.Emitter` append exactly the code this is about, with the counters, the backward scan for
   results and the saved loop targets of the original.
3. **Optimizer** (`OptSim.PassesPreserve`, `MildSource.MildAllGood`, `OptConverse`). Every enabled rewrite
   keeps memory, control and every needed temporary when its window is *good*, a condition on the quads of
   the window and on the temporaries it erases, which the optimizer does not check. All windows of all passes
   are good for a class of code described by its quads alone (`OptKeeps.DocileAllGood`), and a class of sources
   is translated to such code; for single windows it is stated exactly, as an if-and-only-if, when the rewriting
   is right in every state; two concrete programs (`OptFaults`) come out wrong. What each pattern makes of its
   window is written out quad by quad (`OptWindows`); passes end, on a list in which none of these windows is left.
4. **Live ranges and registers** (`LiveRanges.RangesSound`, `Allocation.PlacesSound`, `CallTable.PassExact`,
   `CallSteps.RunsAlike`). First-to-last ranges are sound although jumps go backward. Each register has a stack
   of ranges, marked where a call saves the register and dropped where the call is closed; over the whole pass
   temporaries of one call stay in different registers and whatever is needed after a call is saved by it, and
   the allocated code runs in step with the quads. Locations are kept in the chained hash map, where writing an
   argument's new place over its label cuts off what stands behind it; it is stated exactly, over the whole pass
   and any rehashing, when every location is found again, and proved to be so while the map does not grow
   around an argument (`CallLabels.CalmFinds`). What is asked of the pass (`Allocation.Accepted`) holds for a class
   of code (`Allocation.RoomyAccepted`). Five faults are stated exactly: frames beyond 32768 bytes, variables
   named like a temporary's label (`Frames`), registers taken over a save mark (`RegAlloc`), arguments lost to a
   second call among later arguments (`Allocation.ArgKeptExactly`), and locations lost in the hash map; the last two
   with a program each, `f(a, g(b), h(c))` run to its wrong end (`ArgFaultRun`) and a local that loses its slot
   (`LabelFault`).
5. **Control flow** (`Blocks`, `BlockSteps`, `Cfg`, `CfgPrune`). Blocks are determined by what they must satisfy, rebuilt
   edges are the successor relation, the recursive marking is reachability on any graph, and pruning with a
   rebuild from adjacency preserves every run step by step. Where blocks are cut and which edges they have is
   also stated by what the machine can do (`Blocks.CutExact`, `BlockSteps.EdgesExact`), with the exact condition
   for an edge that no state takes.
6. **Calls** (`CallRuns.CallsBalance`). Over every path of a procedure, with calls nested in arguments and
   branches, the depth of the run-time stack is what the generator's single linear pass has on record;
   every call gives back the stack and the saved registers, which are those in use at its opening; and
   alignment at a call holds exactly when the stack arguments are even in number. The first six arguments are
   where the calling convention has a callee read them; those beyond reach a callee's parameters only if there
   is one and the depth is right (`StackArgs.StackArgsExact`).
7. **Parser** (`RoundTrip.RoundTrip`, `Precedence.ChainParses`). Rendering and parsing is the identity for
   every tree, over all the levels and with every binary level folding to the left; without parentheses any chain
   of operands and operators is parsed to the tree that a list of precedence, written out by operators, gives it; the methods of `Parser.ExprParser` are proved
   against the grammar functions.
8. **Hash map, layout, arena, folding** (`HashMap`, `Layout`, `Arena`, `Widths`). The chained map
   answers as a mathematical map exactly as long as no write cuts off what is asked for again (`Lookups`); addresses of array
   elements are one-to-one onto the slots of the type's size; the arena's counters are exact over any
   history and its table stays within 40/17 of the peak; folding on 64-bit words commutes with narrowing
   where that is true, and for signed quotients and remainders of every width it is stated exactly when.

Where the code and other descriptions of it differ the code is followed: `continue` in a `do` loop goes to
the top of the body without testing the condition; both alternatives of a ternary are whole expressions and
a comma expression is separated by commas, while `nnc.ebnf` says otherwise; assignments associate to the
left.

## Model

| member | source | states |
|---|---|---|
| Operators.ArithAgrees | src/nnc_ast_eval.c:75-101 | Each binary operator of a source expression, on the values for which it is defined, is what the machine computes on 64-bit words: signed quotient and remainder truncate toward zero, sums and products wrap, shifts multiply and divide by powers of two; what the bitwise operators and the quotient are is stated by the three rows below. |
| Words.BitwiseBits | src/nnc_ast_eval.c:94-96 | For all words and every bit position: a bit of the conjunction is set exactly when both bits are, of the disjunction when one is, of the exclusive disjunction when they differ, with bits taken by division and remainder. |
| Operators.BitwiseMeaning | src/nnc_ast_eval.c:94-96 | The same of the value the source semantics gives the three operators and of the word the machine computes, which are equal. |
| Operators.QuotTruncates | src/nnc_ast_eval.c:84-85 | Division truncates toward zero: what is left over is smaller than the divisor and has the sign of the dividend. |
| SourceLaws.AssignRead | src/nnc_3a.c:608-632 | In the source semantics, after `x = e` the variable x has the value e had, and every other variable the one it had. |
| SourceLaws.StoreThrough | src/nnc_3a.c:608-632 | After `p = &x`, a store through p is a store to x. |
| SourceLaws.UnsetUnusable | src/nnc_3a.c:797-808 | A variable that has no value can be read and copied, but not computed with, tested or dereferenced. |
| SourceLaws.CountsUp | src/nnc_3a.c:850-869 | A `while` loop that counts up by one ends at its bound, from any start and for any bound. |
| Operators.UnaryAgrees | src/nnc_ast_eval.c:56-73 | Sign change and complement of a signed value agree with the operation on its word. |
| Operators.CastAgrees | src/nnc_ast_eval.c:26-45 | A cast to each of the eight integer types gives the same value in the evaluator and on the machine. |
| Operators.RelAgrees | src/nnc_3a.c:527-553 | The conditional jump emitted for a relation is taken exactly when the relation holds, equality of addresses included. |
| AstEval.EvaldAgrees | src/nnc_ast_eval.c:110-124 | For every constant expression, run-time evaluation is defined and gives the value of `nnc_evald`, if and only if the evaluator is defined and so are the left operands of commas, which it skips. |
| AstEval.ConstantRuns | src/nnc_3a.c:437-702 | Running the code of a constant expression leaves the value of `nnc_evald` in the temporary found by `nnc_3a_quads_res` and changes neither the store nor any other earlier temporary, although operators overwrite their first operand. |
| AstEval.CommaDiffers | src/nnc_ast_eval.c:75-101 | A concrete expression, `1 / 0, 5`, on which the evaluator and the code part: the evaluator never looks at the left operand. |
| ExprSim.ExprRuns | src/nnc_3a.c:437-702 | Whenever an expression has a value in a store, its code runs from its first quad to the position after its last, ends in the same store, leaves the value where the result is read, and keeps every temporary handed out before. |
| ExprSim.PlaceRuns | src/nnc_3a.c:174-192 | The code for the address of a name, of a dereference or of a call leaves that address. |
| ExprSim.ArgsRun | src/nnc_3a.c:403-426 | The code of an argument list appends the values of the arguments, in order, to the innermost call frame, whatever calls happen inside them. |
| StmtSim.StmtRuns | src/nnc_3a.c:704-933 | For every statement, however nested, that ends with a store and an outcome, its code runs to the matching position (next statement, exit label, repeat label, or return) with the same store and outcome. |
| StmtSim.BranchRuns | src/nnc_3a.c:754-795 | A chain of `if`, `elif` and `else` runs exactly the branch whose condition is the first to hold. |
| StmtSim.DoRuns | src/nnc_3a.c:704-723 | A `do` loop, in which `continue` goes to the top of the body without testing the condition, as the code does. |
| StmtSim.WhileRuns | src/nnc_3a.c:850-869 | A `while` loop over any number of rounds, left by its condition, by `break` or by `return`. |
| StmtSim.ForRuns | src/nnc_3a.c:819-844 | A `for` loop, whose `continue` goes to the step, with or without a condition. |
| Procedure.BodyOutcome | src/nnc_3a.c:954-974 | A body whose `break` and `continue` sit inside loops ends normally or by returning. |
| Procedure.ProcedureRuns | src/nnc_3a.c:954-974 | If a body ends, its code, run from the first quad, halts with the same value and the same store. |
| LocalHints.StmtHints | src/nnc_3a.c:797-808 | The hints in the code of any statement are its declarations, one for one and in the order of the code, with or without an initial value. |
| LocalHints.LetFirst | src/nnc_3a.c:803-808 | The code of a declaration starts with its hint. |
| LocalHints.ProcedureHints | src/nnc_3a.c:797-808 | So it is in the code of a procedure, and still after all passes of the optimizer. |
| Labels.ExprClosed | src/nnc_3a.c:463-686 | The code of any expression defines exactly the labels it took from the counter, each once, and every jump in it goes forward to a label inside it. |
| Labels.ProcedureLabels | src/nnc_3a.c:65-77 | In the code of a procedure every label handed out is defined exactly once, no other label occurs, and every jump carries a label that is found. |
| Translator.Emitter.MkCgt | src/nnc_3a.c:45-50 | Hands out the next temporary. |
| Translator.Emitter.QuadsRes | src/nnc_3a.c:79-91 | Scanning backward over labels finds the result operand of the last real quad, whatever code came before. |
| Translator.Emitter.ExprTo3a | src/nnc_3a.c:688-702 | Appends exactly the code whose meaning is proved above to the quads already there, advances both counters to match, and leaves that code's result as the one `nnc_3a_quads_res` finds. |
| Translator.Emitter.LvalTo3a | src/nnc_3a.c:304-312 | The same for addresses. |
| Translator.Emitter.NotTo3a | src/nnc_3a.c:327-351 | The two-label form of `!`, appended in place. |
| Translator.Emitter.UnaryTo3a | src/nnc_3a.c:437-461 | The operator overwrites its operand's temporary. |
| Translator.Emitter.InfixTo3a | src/nnc_3a.c:567-606 | Arithmetic overwrites the first operand; a comma copies the second into a new temporary. |
| Translator.Emitter.RelTo3a | src/nnc_3a.c:527-553 | A relation as a jump and the settling tail. |
| Translator.Emitter.LogicTo3a | src/nnc_3a.c:463-525 | The two short-circuit operators. |
| Translator.Emitter.AssignTo3a | src/nnc_3a.c:608-627 | A store through the address and then a second read of the value. |
| Translator.Emitter.TernaryTo3a | src/nnc_3a.c:660-686 | The second alternative first, both copied into one temporary made before either. |
| Translator.Emitter.CallTo3a | src/nnc_3a.c:403-426 | The hint is emitted first and patched with the result operand at the end. |
| Translator.Emitter.SetLoopBranches | src/nnc_3a.c:65-73 | Replaces the loop targets and gives back the old ones. |
| Translator.Emitter.StmtTo3a | src/nnc_3a.c:913-933 | Appends exactly the statement's code and leaves the loop targets as they were. |
| Translator.Emitter.IfTo3a | src/nnc_3a.c:771-795 | The chain of branches, emitted in a loop, is the code defined by recursion on the chain. |
| Translator.Emitter.ForTo3a | src/nnc_3a.c:819-844 | A `for` loop, with the enclosing targets restored. |
| Translator.Emitter.WhileTo3a | src/nnc_3a.c:850-869 | A `while` loop, with the enclosing targets restored. |
| Translator.Emitter.DoTo3a | src/nnc_3a.c:704-723 | A `do` loop, with the enclosing targets restored. |
| Translator.Emitter.CompoundTo3a | src/nnc_3a.c:903-907 | The statements of a compound, in order. |
| Translator.Emitter.LetTo3a | src/nnc_3a.c:797-817 | A local's hint, its initial value and the copy. |
| Translator.Emitter.ReturnTo3a | src/nnc_3a.c:879-893 | A return with or without a value. |
| Liveness.ExprCovers | src/nnc_3a.c:688-702 | Inside an expression's code every temporary that may still be read is mentioned on both sides of the point or leaves as the result; nothing from outside is read. |
| Liveness.StmtContained | src/nnc_3a.c:704-933 | Nothing is read across a statement's boundaries, nor on any way out by `break` or `continue`. |
| Liveness.OutOfLoop | src/nnc_3a.c:850-869 | However often a path goes round a loop, it reads nothing that was set before it entered. |
| Liveness.LiveCovered | src/nnc_3a_lr.c:48-107 | In a procedure's code, a temporary that some path may still read is mentioned both before the point and from it on. |
| Liveness.WrittenFirst | src/nnc_3a.c:688-893 | On every path of a procedure's code a temporary is written before it is read. |
| LiveRanges.ProcRanges.PutCgt | src/nnc_3a_lr.c:10-23 | A first mention makes a range, a later one moves its end. |
| LiveRanges.ProcRanges.PutVar | src/nnc_3a_lr.c:25-38 | The same for a variable. |
| LiveRanges.ProcRanges.ProcessQuad | src/nnc_3a_lr.c:48-101 | Extends the ranges of exactly the operands the quad mentions. |
| LiveRanges.ProcRanges.MakeForProc | src/nnc_3a_lr.c:103-107 | Every temporary and every name gets the range from the first to the last quad that has it among its operands, and nothing else gets one. |
| LiveRanges.RangesSound | src/nnc_3a_lr.c:10-107 | Although jumps go backward, a temporary that some path may still read lies inside its linear range. |
| Boundaries.ProcedureOrdered | src/nnc_3a.c:704-893 | Nothing is needed at the start of a procedure's code, and nothing is needed where a jump goes back to: only loops jump back, and their labels stand between statements. |
| LiveRanges.RangesCover | src/nnc_3a_lr.c:10-107 | For any code with that property, rewritten or not: wherever control can come, whatever is needed lies inside its linear range. |
| Nests.HomeBetween | src/nnc_gen.c:1301-1325 | In code whose temporaries each live in one call: between two mentions of a temporary control is inside the calls it lives in, so its call is still open. |
| Nests.NotAfterClose | src/nnc_gen.c:1178-1210 | Once a call is closed nothing that lives in it is mentioned again. |
| CallHomes.ProcedureFramed | src/nnc_3a.c:403-933 | In the code of any procedure every temporary lives in one nest of calls and in one argument of each, the result of a call outside it; every jump goes where the same calls are open with as many arguments passed; a call sets the result its opening names and does not read it; an argument is mentioned for the last time where it is passed. |
| OptHomes.PassesFramed | src/nnc_3a_optimizer.c:1354-1385 | All of this survives all passes over good windows, and so does the uniqueness of labels. |
| RegAlloc.Allocator.UpdateReg | src/nnc_gen_sa.c:111-119 | Replaces the latest range of a register, or makes its first. |
| RegAlloc.Allocator.PushReg | src/nnc_gen_sa.c:129-134 | Marks a register as saved by an empty entry. |
| RegAlloc.Allocator.PopReg | src/nnc_gen_sa.c:121-127 | Drops the latest entry, if there is one. |
| RegAlloc.Allocator.ReserveReg | src/nnc_gen_sa.c:136-149 | Over a mark if the register is in use, and then with a range that does not end; tells whether it was in use. |
| RegAlloc.Allocator.SaveBusy | src/nnc_gen.c:1301-1325 | Going over the registers in order and marking as it goes marks exactly those found in use before, without the one of the result. |
| RegAlloc.Allocator.MakeRegLoc | src/nnc_gen_sa.c:286-293 | Puts the register into the hash map of locations under the label, cutting off what stands behind it there. |
| RegAlloc.Allocator.MakeStackLoc | src/nnc_gen_sa.c:306-314 | A new slot below all others, with the offset kept in 16 bits, put into the hash map. |
| RegAlloc.Allocator.StoreCgt | src/nnc_gen_sa.c:440-466 | The first register, in their fixed order, whose latest range does not meet the temporary's; otherwise a slot; the location is put into the hash map with whatever rehashing that takes. |
| RegAlloc.Allocator.StoreVar | src/nnc_gen_sa.c:474-490 | Globals go to data, locals to slots. |
| RegAlloc.Allocator.Store | src/nnc_gen_sa.c:534-552 | The whole effect of one request on registers, hash map and frame: the location the map finds under the label, or a new one if it finds none, be it because it was lost. |
| RegAlloc.Allocator.StoreParam | src/nnc_gen_sa.c:579-606 | The place of an argument or parameter: rdi, rsi, rdx, rcx, r8 and r9 for the first six, in this order and reserved, the stack of the caller for the others; written over the label it has in the hash map, which cuts off what stands behind it. |
| RegAlloc.Allocator.ReceiveParam | src/nnc_gen_sa.c:554-565 | A parameter that came in a register is moved to the frame, which writes its label a second time, and its register given back. |
| RegAlloc.Allocator.CloseRegs | src/nnc_gen_sa.c:420-433 | A finished call gives back the registers of its arguments and then those it saved. |
| RegAlloc.StoredAgain | src/nnc_gen_sa.c:534-552 | While nothing is lost: whatever is stored in between, asking again for the same operand gives the same location and changes nothing. |
| RegAlloc.ArgumentPlaces | src/nnc_gen_sa.c:579-593 | Argument k is placed in rdi, rsi, rdx, rcx, r8 or r9, for k from 0 to 5, and 16 bytes, the padding and one word for each argument between above the frame pointer from then on. |
| RegAlloc.FirstOut | src/nnc_gen_sa.c:440-458 | A temporary gets a register if and only if its latest range is out of the way and those of all registers whose turn is earlier are not; none if and only if none is out of the way. |
| RegAlloc.IntersectShare | src/nnc_gen_sa.c:82-87 | Two ranges are in each other's way if and only if some position lies in both. |
| RegAlloc.InUseExact | src/nnc_gen_sa.c:103-109 | A register is in use if and only if its latest entry is a range that has not ended. |
| RegAlloc.SavedInOrder | src/nnc_gen.c:1316-1323 | The registers a call saves are pushed in the order of their numbers. |
| RegAlloc.DecimalReads | src/nnc_gen_sa.c:192-195 | The number in the label of a temporary reads back as the temporary. |
| RegAlloc.TempLabelUnique | src/nnc_gen_sa.c:192-195 | Different temporaries have different location labels. |
| RegAlloc.SavedRegs | src/nnc_gen.c:1313-1323 | A register is saved where a call is opened if and only if it is in use there and not the result's; none twice. |
| RegAlloc.BracketExact | src/nnc_gen_sa.c:136-158 | Taking a register for the length of a quad leaves its ranges as they were if and only if it had none or was in use; otherwise the latest entry is lost, a mark included. |
| RegAlloc.CallExact | src/nnc_gen_sa.c:420-433 | Opening a call, passing arguments in registers and closing it leaves the ranges of a register as they were if and only if nothing was passed in it, or it had none, or it is the result's and still in use: a register both saved and passed in loses its latest range. |
| RegAlloc.SecondCallForgets | src/nnc_gen_sa.c:420-433 | So a register that holds an argument of the call around, and nothing else, is saved by the first call among the later arguments and not by the second. |
| Frames.FrameExact | src/nnc_gen_sa.c:306-314 | For all requests: the slots, of variables and temporaries, are pairwise disjoint and within 32768 bytes below the frame pointer if and only if they take no more than 32768 bytes together. |
| Frames.LabelsCollide | src/nnc_gen_sa.c:192-206 | For all requests and names: a variable is given a place that some temporary has if and only if its name is the label of a temporary that has one. |
| Frames.ParametersReady | src/nnc_gen.c:1399-1415 | Any number of parameters, in registers and on the stack of the caller, leaves every register without ranges and the slots apart. |
| CallAlloc.Scheduled | src/nnc_gen_sa.c:534-552 | Requests that leave out no temporary exist for any code: one for each temporary operand in turn. |
| CallTable.RecordOfT | src/nnc_gen.c:1301-1325 | The record of the pass over all quads is the generator's record for the registers it finds in use. |
| CallAlloc.NeededIsSaved | src/nnc_gen.c:1313-1323 | The step behind CallPlaces.SavedWhereNeeded: from the ranges kept for the registers, one that holds something mentioned later is in use and hence saved. |
| CallPlaces.PassAlways | src/nnc_gen.c:1421-1495 | What holds before every quad of the pass that loses no location: for every temporary still mentioned, its range stands in its register's stack as many places up as open calls around its own have saved the register, and every call opened since has saved it or is about to set it. |
| CallPlaces.FrameApart | src/nnc_gen_sa.c:306-314 | The slots of variables and temporaries stay apart through that whole pass. |
| Lookups.PutExactly | src/nnc_map.c:201-227 | Putting a key, with whatever rehashing that causes, loses exactly the keys that stand behind it in its chain afterwards, and changes no other binding. |
| Lookups.AnswersExact | src/nnc_map.c:201-266 | Over any history of lookups and writes: the chained map answers every lookup as a mathematical map does if and only if no write cuts off a key that is looked up before it is written again. |
| Lookups.BehindLater | src/nnc_map.c:201-227 | While no write rehashes, a key stands behind another only if it was put when the other was there already. |
| Lookups.LostByGrowth | src/nnc_map.c:98-118 | Writing over a key when the map has to grow loses every key that comes into the same bucket of the larger map from a higher bucket of the smaller one. |
| StartTable.ResetLocMap | src/nnc_gen_sa.c:368-378 | Between procedures a new map is filled from the old one by going over its buckets. |
| StartTable.RelocationKeeps | src/nnc_gen_sa.c:348-378 | Exactly the locations in the data segment go over to the next procedure, whatever rehashing that takes. |
| StartTable.StartRoom | src/nnc_gen_sa.c:368-376 | The new map starts with 128 buckets and does not grow for up to 90 globals. |
| StartTable.SpillExact | src/nnc_gen_sa.c:554-565 | Spilling a parameter leaves all other locations to be found if and only if the parameter's label is last in its chain when its slot is written, in the map as it is then. |
| StartTable.ParametersStocked | src/nnc_gen.c:1399-1415 | If every spilled parameter's label is, the pass starts with a map that finds every parameter and every global where it is. |
| CallTable.StoredKeepsT | src/nnc_gen_sa.c:534-552 | A request finds its label afterwards and loses nothing, because it writes only what the map does not find. |
| CallTable.PassExact | src/nnc_gen_sa.c:252-284 | Over the pass through any procedure: every lookup in the hash map finds what has been put there if and only if writing an argument's place over its label never cuts off, in the map as rehashing has left it, a label that is asked for before it is written again. |
| CallTable.PassFinds | src/nnc_gen.c:1421-1495 | Then the pass goes as if nothing were ever lost: the same ranges and frame, the same registers saved, the same record, and every operand found where it is. |
| Nests.InsideArgument | src/nnc_gen.c:1110-1131 | In code whose temporaries each live in one argument of one call: what is mentioned for the first time between the first mention of an argument and the quad that passes it is not mentioned after it. |
| OptHomes.PassesSpotted | src/nnc_3a_optimizer.c:1354-1385 | All passes over good windows leave temporaries in the arguments they live in. |
| CallLabels.BehindIsOver | src/nnc_gen.c:1110-1131 | What was not known when an argument was first mentioned is not asked for again once the argument has been passed. |
| CallLabels.CalmFinds | src/nnc_gen.c:1110-1131 | If the map does not grow between the first mention of an argument and the quad that passes it, nothing that is asked for again is cut off: what stands behind the argument's label belongs to its own code. |
| CallLabels.FewLabelsFind | src/nnc_gen.c:1110-1131 | So it is whenever all labels together are fewer than make the map grow, fewer than 90 in a new one of 128 buckets. |
| LabelFault.FirstArgCuts | src/nnc_gen.c:1110-1131 | For any procedure: if the map has to grow when its first argument is passed, a label that comes into the same bucket as the argument's from a higher one is lost, and the next request for it does not find it. |
| LabelFault.LocalLost | src/nnc_map.c:201-227 | A concrete procedure, `0;` eight times and then `let nu = 0; f(nu); f(nu);`, in a program with 79 globals and the original's hash of strings: the second call does not find the local the first one found, and gets a new slot for it. |
| Renaming.StepAlike | src/nnc_gen_sa.c:440-552 | A quad with its temporaries replaced by places takes the same step as the original as long as it does not write over what is needed after it; what is out of reach is not looked at. |
| CallMoves.CellsApart | src/nnc_gen_sa.c:440-552 | Two temporaries between their first and last mention that live in the same call, or one of which is in the frame, are in different cells. |
| CallSteps.InsideStep | src/nnc_gen.c:1421-1495 | While nothing is lost: a quad that does not concern calls, which may take registers for itself, and its allocated form go to related states: temporaries in their cells or with what an open call has saved, arguments in their registers, saved or on the stack. |
| CallSteps.HintStep | src/nnc_gen.c:1301-1325 | Opening a call saves what is needed after it, and arguments already passed. |
| CallSteps.ResultNotNeeded | src/nnc_gen.c:1305-1318 | Until the call is made its result, whose register is not saved, is not needed. |
| CallSteps.ArgStep | src/nnc_gen.c:1110-1131 | While nothing is lost: passing an argument puts it in the next argument register or on the stack and changes no temporary that is needed. |
| CallSteps.CallStep | src/nnc_gen.c:1178-1210 | The callee, which reads its first six arguments from the registers of the calling convention, is given exactly the arguments passed, may leave anything in any register, and afterwards everything needed is as before and the result in its place. |
| RegMachine.ConventionKept | src/nnc_gen_sa.c:19-21 | Arguments are passed where the callee of the machine reads them, in the registers of section 3.2.3 of the System V AMD64 psABI, which it has from a table of its own. |
| StackArgs.StackArgsExact | src/nnc_gen_sa.c:316-323 | A call leaves its arguments beyond the sixth where the callee looks for them, whatever is on the stack, if and only if there is one of them and the depth on record is then a multiple of 16: two or more are pushed in the wrong order, and the callee counts padding that the caller need not have pushed. |
| CallSteps.RunsAlike | src/nnc_gen.c:1421-1495 | For any number of steps: the code of the pass that loses nothing and the quads are in related states or have ended alike. |
| Pressure.RoomyApiece | src/nnc_gen_sa.c:440-466 | If nowhere more temporaries want a register at once, those of the innermost call and the results of open calls, than there are registers no argument is passed in, eight without those the quad has taken, then no temporary is given a register arguments are passed in. |
| Pressure.RoomyQuad | src/nnc_gen.c:702-715 | Then arguments are in registers when they are passed, as the generator asserts, and a register taken outside of calls around the result, as a dereference takes rbx, is neither the result's nor an argument's. |
| Holding.HeldBrackets | src/nnc_gen.c:204-222 | Registers taken together and given back in reverse leave the ranges as taking them one after the other does. |
| Holding.AllHeld | src/nnc_gen.c:702-715 | What is stored while a quad holds registers gets the first one that is free and not held, and all else is as if the registers were taken afterwards. |
| Allocation.CodeFound | src/nnc_gen.c:1421-1495 | The code of the pass with its hash map is the code of the pass that loses nothing, if nothing that is asked for again is cut off. |
| Allocation.FoundInOnePlace | src/nnc_gen_sa.c:252-284 | In an accepted pass every quad that mentions a temporary finds the same place for it, although passing an argument gives it another. |
| Allocation.NamesInOnePlace | src/nnc_gen_sa.c:252-284 | And every quad that asks for a variable finds the same place for it. |
| Allocation.PlacesSound | src/nnc_gen_sa.c:440-552 | In an accepted pass, at every quad, inside any nest of calls: every temporary between its first and last mention has its place, not in a register arguments are passed in; those of the same call are in different registers; and all slots the map finds, those of variables included, are disjoint and within 32768 bytes. |
| Allocation.SavedSound | src/nnc_gen.c:1313-1323 | Where a call is opened every register with a temporary of the innermost open call that is mentioned later is saved, unless the temporary is the result, whose register is not. |
| Allocation.AllocatedAlike | src/nnc_gen.c:1421-1495 | From the first quad, with anything in registers and slots, the code of an accepted pass, operands where its hash map finds them, runs in step with the quads, calls in arguments included. |
| Allocation.AllocatedRuns | src/nnc_gen.c:1421-1495 | From source to registers: if a body ends, the code of an accepted pass over it halts with the same value and store, whatever callees leave in registers. |
| Allocation.SavedRegistersBalance | src/nnc_gen.c:1301-1325 | For the registers the pass really saves: the stack is as deep as recorded, every call gives back stack and registers, and those are the registers in use without the result's. |
| Allocation.RoomyAccepted | src/nnc_gen.c:1421-1495 | All that is asked of the pass holds for all code with as few temporaries at a time as above, calls in first arguments only, registers taken outside of calls around the result, names known before they are used in calls, and fewer labels than make the hash map grow. |
| Allocation.ArgSurvivesExactly | src/nnc_gen.c:1178-1210 | An argument in its register has its value after a call made among the later arguments, whatever the callee does, if and only if that call has saved this value. |
| Allocation.ArgKeptExactly | src/nnc_gen.c:1301-1325 | Over any run from the opening of an inner call to its return, calls inside it included: an argument already in its register is afterwards what it was, whatever the callee leaves in registers, if and only if the generator saved the register at that opening. |
| ArgFault.NestedIs | src/nnc_3a.c:403-426 | The quads of `return f(a, g(b), h(c));`. |
| ArgFault.PassSeen | src/nnc_gen.c:1301-1325 | The pass over them: the register of `a` is saved at the opening of `g` and not at that of `h`. |
| ArgFaultRun.NestedGoesWrong | src/nnc_gen.c:1301-1325 | Where every function returns its first argument that program means the value of `a`, and its allocated code returns whatever `h` has left in the first argument register, although nothing is lost in the hash map. |
| Allocation.GenQuad | src/nnc_gen.c:1421-1495 | One quad: most operands are stored, registers taken, the operands asked for meanwhile stored and the registers given back; or calls opened, arguments passed or calls closed, on the allocator, its hash map and the record. |
| Allocation.GenQuads | src/nnc_gen.c:1421-1495 | The loop over all quads leaves the allocator with its hash map and the record as the pass says that the results above are about. |
| Optimizer.PassShortens | src/nnc_3a_optimizer.c:1325-1332 | A pass leaves the list as it is or makes it strictly shorter. |
| Optimizer.UnchangedMeansNone | src/nnc_3a_optimizer.c:1133-1140 | If a pass changes nothing, no enabled pattern matches at any index; Optimizer.WindowFound says which windows that leaves out. |
| Optimizer.WindowFound | src/nnc_3a_optimizer.c:462-487 | Every window of the enabled patterns, written out as quads, is matched, whatever its operands: a store through a reference just taken, a copy and a quad that uses it, two constants and an operator or comparison, a sum or product with zero whose result may be its own operand. |
| OptWindows.RefRule | src/nnc_3a_optimizer.c:499-507 | `tX = &a; *tX = v`, with anything after it, becomes `a = v`. |
| OptWindows.CastRule | src/nnc_3a_optimizer.c:736-769 | A constant and a cast of it become the constant of the type: its low 8, 16 or 32 bits with zeros or the sign before them, itself for 64 bits; for a pointer type they become nothing. |
| OptWindows.SignRule | src/nnc_3a_optimizer.c:730-739 | A constant and a sign or complement of it become c, 0 or 2^64 - c, or 2^64 - 1 - c. |
| OptWindows.TestRule | src/nnc_3a_optimizer.c:692-716 | A constant and a test of it become an unconditional jump to the target if the constant is not 0, or is 0 for the negated test, and otherwise nothing. |
| OptWindows.FoldRule | src/nnc_3a_optimizer.c:947-980 | Two constants and an operator become one constant, given for each of the ten operators: sums, differences, products and shifts modulo 2^64, unsigned quotient, remainder and right shift. |
| OptWindows.CompareRule | src/nnc_3a_optimizer.c:908-933 | Two constants and a comparison become an unconditional jump if it holds of them as unsigned numbers, and otherwise nothing. |
| OptWindows.IndexRule | src/nnc_3a_optimizer.c:1012-1026 | `tX = c; z = tX + d` and the product become their value modulo 2^64. |
| OptWindows.ZeroRule | src/nnc_3a_optimizer.c:255-275 | `tX = a; tY = 0; z = tX + tY` becomes `z = a`, and the product `z = 0`, for every a that is no constant and every z, tX included. |
| OptWindows.CopyRule | src/nnc_3a_optimizer.c:536-543 | `tX = a` and a copy, dereference, store or test for equality of tX become the quad on a; so do a cast, sign or complement if a is no constant. |
| OptWindows.MistakenRule | src/nnc_3a_optimizer.c:121-142 | When a fold takes an operand that is no temporary for the one just set: a name when its context has the number of the temporary, a function when that is 2, a constant when it equals it. |
| OptWindows.OnlyWindows | src/nnc_3a_optimizer.c:462-487 | Where all operands that are compared as temporaries are temporaries, exactly these windows are rewritten. |
| OptWindows.ZeroGone | src/nnc_3a_optimizer.c:1070-1115 | The code of `return x + 0;` and `return x * 0;` is left with one copy and the return. |
| OptWindows.AllPassesKeep | src/nnc_3a_optimizer.c:1133-1140 | Labels, and arguments, calls, returns and hints that are not of constants, are after all passes what they were, operator by operator and in order. |
| Optimizer.PassKeeps | src/nnc_3a_optimizer.c:1147-1175 | Label, argument, call, return and hint quads survive a pass unchanged and in order. |
| Optimizer.PassesEnd | src/nnc_3a_optimizer.c:1354-1385 | All passes together end on a list where no pattern matches, no longer than the first, with the same quads kept. |
| Optimizer.PeepholeOptimizer.OptimizePeep | src/nnc_3a_optimizer.c:1147-1175 | Appends what the window at the index becomes and returns how many quads it took. |
| Optimizer.PeepholeOptimizer.OptimizationPass | src/nnc_3a_optimizer.c:1325-1332 | Going over the list window by window produces the rewriting of the whole list. |
| Optimizer.PeepholeOptimizer.Optimize | src/nnc_3a_optimizer.c:1354-1385 | The loop halts after at most one pass more than there are quads, and returns the list on which no pattern matches. |
| OptSim.WindowRuns | src/nnc_3a_optimizer.c:462-1115 | For each enabled rewrite: from related states, the window and what it becomes end in related states or with the same result; memory, control and every temporary still needed agree. |
| OptSim.JumpsAligned | src/nnc_3a_optimizer.c:692-714 | A label is found in the rewritten code exactly where the rewriting of what followed it begins. |
| OptSim.PassPreserves | src/nnc_3a_optimizer.c:1325-1332 | One pass over good windows: a run that ends still ends, with the same value and the same store. |
| OptSim.PassesPreserve | src/nnc_3a_optimizer.c:1354-1385 | All passes together. |
| Division.QuotExact | src/nnc_3a_optimizer.c:947-980 | For any width: the unsigned quotient is the signed one if and only if both operands are not negative, or the divisor is 1, or the operands are equal, or the dividend is not negative and in absolute value less than the negative divisor. The most negative value divided by -1 is excluded. |
| Division.RemExact | src/nnc_3a_optimizer.c:947-980 | The same for remainders, with its own condition: a negative dividend that, like its absolute value, the divisor divides evenly. |
| OptSim.FoldExact | src/nnc_3a_optimizer.c:947-980 | For every operator: the unsigned fold of two constants is what the signed machine computes if and only if the condition named for the operator holds. |
| OptSim.CompareFoldExact | src/nnc_3a_optimizer.c:908-931 | The fold of a comparison decides as the machine does if and only if it is an equality or both operands have the same sign. |
| OptFaults.ChainedCode | src/nnc_3a.c:608-627 | The quads of `x = (y = 5)`, whose value temporary is read twice. |
| OptFaults.ChainedRuns | src/nnc_3a.c:608-627 | Run as translated, it sets both variables to 5. |
| OptFaults.ChainedDiffers | src/nnc_3a_optimizer.c:427-454 | What all passes return sets `x` from a temporary nothing has written: the condition on erased temporaries is needed. |
| OptFaults.AddCastRuns | src/nnc_3a.c:353-360 | As translated, `return 5 + (x as u8)` returns 12 when `x` is 7. |
| OptFaults.AddCastDiffers | src/nnc_3a_optimizer.c:121-142 | What all passes return does not: the context number 1 of the local `x` is read as the number of temporary 1. |
| OptConverse.RefExact | src/nnc_3a_optimizer.c:499-534 | A store through an address just taken may become an assignment in every state if and only if what is stored is not that address's temporary. |
| OptConverse.TestExact | src/nnc_3a_optimizer.c:536-556 | A copy may be substituted into an equality test in every state if and only if the other operand is not the same temporary, or the copy is of the temporary itself. |
| OptConverse.StoreExact | src/nnc_3a_optimizer.c:536-556 | And into a store through a pointer, if and only if the pointer is another temporary, or the copy is of itself, or never an address. |
| OptConverse.UnaryExact | src/nnc_3a_optimizer.c:730-807 | A constant may be folded into a cast, a sign or a complement in every state if and only if the operand is the temporary and not a variable of the same number, and the cast is not to a pointer. |
| OptConverse.BranchExact | src/nnc_3a_optimizer.c:692-728 | And into a test, if and only if it tests the temporary. |
| OptConverse.FoldWindowExact | src/nnc_3a_optimizer.c:947-1010 | Two constants and an operator may be folded in every state if and only if the fold fits or the machine goes wrong. |
| OptConverse.ZeroAddExact | src/nnc_3a_optimizer.c:1070-1115 | Adding a zero may become a copy in every state if and only if both operands are the temporaries and not variables of the same numbers. |
| OptConverse.ZeroMulExact | src/nnc_3a_optimizer.c:1070-1115 | Multiplying by a zero may become zero in every state if and only if the second operand is the temporary that holds it; the first does not matter. |
| OptConverse.SecondExact | src/nnc_3a_optimizer.c:167-216 | If the second of three quads is not a copy, the fold of a sum is right in every state if and only if the quad leaves its constant as it is: the pattern does not look at it. |
| OptClass.DocileGoodAt | src/nnc_3a_optimizer.c:462-1115 | In code in which what has been read and not set anew is read again by idle copies only, nothing set before an assignment to memory is read after it, an operator follows the quad that sets its second operand, constants do not meet in operators that fold differently, and variables that are cast have no temporary's number: every window is good, tests of `!` and `&&` for zero included. |
| OptKeeps.DocilePass | src/nnc_3a_optimizer.c:1325-1332 | A pass leaves such code such code. |
| OptKeeps.DocileAllGood | src/nnc_3a_optimizer.c:1354-1385 | So for this whole class of code, described without speaking of runs or passes, all passes go over good windows only. |
| MildSource.MildTame | src/nnc_3a_optimizer.c:462-1115 | A class of sources: any nesting of statements and expressions without casts, signs, complements and dereferences, with assignments to variables as statements, and with quotients, remainders, shifts and order comparisons on at most one operand that may be a constant, is translated to such code. |
| MildSource.MildAllGood | src/nnc_3a_optimizer.c:1354-1385 | So for every such body all passes go over good windows only. |
| OptExample.SumOptimized | src/nnc_3a_optimizer.c:1354-1385 | `x = 2 + 3` belongs to that class and is brought to `x = 5` in three passes. |
| OptOrder.NeedFrom | src/nnc_3a_optimizer.c:1325-1332 | Whatever the rewritten code needs at a point, the original needs at the point it stands for. |
| OptOrder.PassOrdered | src/nnc_3a_optimizer.c:1325-1332 | A pass over good windows leaves nothing needed where a jump goes back to, so linear ranges stay sound after it. |
| OptOrder.PassesOrdered | src/nnc_3a_optimizer.c:1354-1385 | All passes together. |
| Pipeline.OptimizedRuns | src/nnc_3a.c:954-974 | From source through the optimizer: same value, same store. |
| Pipeline.CompiledRuns | src/nnc_3a.c:954-974 | From source through translation, optimization, live ranges and allocation, in the order the compiler uses: if a body ends, the final code halts with the same value and the same store, whatever registers and slots hold at the start and whatever callees leave in registers. |
| Pipeline.TameRuns | src/nnc_3a.c:954-974 | The same for code of the class for which nothing has to be assumed of the optimizer. |
| Pipeline.MildRuns | src/nnc_3a.c:954-974 | The same for the class of sources for which nothing has to be assumed of the optimizer. |
| Pipeline.ModestRuns | src/nnc_3a.c:954-974 | With few temporaries at a time, calls in first arguments and few labels nothing has to be assumed of the generator either: the final code halts with the value and the store of the body. |
| Pipeline.GenProc | src/nnc_3a.c:954-974 | Counts temporaries from the start and labels from where the last procedure stopped, takes the quads out, optimizes them if asked to, and makes their ranges: exactly the code and the ranges the two results above are about. |
| Widths.FoldNarrows | src/nnc_3a_optimizer.c:947-980 | For sums, differences, products and the bitwise operators the 64-bit fold, reduced to any width, is the operation of that width on the reduced operands. |
| Widths.WidthBits | src/nnc_3a_optimizer.c:960-962 | The bitwise operators at any width, bit by bit. |
| Widths.ShiftNarrows | src/nnc_3a_optimizer.c:947-980 | The same for a left shift by less than the width. |
| Widths.FoldZeroExtended | src/nnc_3a_optimizer.c:947-980 | Division, remainder and right shift agree when both operands are zero-extended values of the type. |
| Widths.ZeroExtensionNeeded | src/nnc_3a_optimizer.c:947-980 | And need that: at every narrower width there are words for which they differ. |
| Widths.SignedFoldExact | src/nnc_3a_optimizer.c:947-980 | For signed types of every width the unsigned fold of a quotient or remainder is right if and only if the condition of the division results holds. |
| Widths.UnaryNarrows | src/nnc_3a_optimizer.c:730-769 | Sign change and complement narrow to any width. |
| Widths.CastNarrows | src/nnc_3a_optimizer.c:730-769 | A cast keeps the value modulo 2 to the width of its type. |
| Widths.SignedDivisionDiffers | src/nnc_3a_optimizer.c:947-980 | On -4 / 2 the unsigned fold and the signed machine differ. |
| Blocks.GetBlocks | src/nnc_3a_cfg.c:17-77 | Concatenating the blocks gives the input; none is empty; ids count up; labels stand only at heads; no quad before the last of a block has an operator with which the machine can halt or go anywhere but to the next position; and a new block starts only at a label or after such a quad. |
| Blocks.JumpOpExact | src/nnc_3a_cfg.c:3-15 | An operator ends blocks if and only if in some code and state the machine halts at it or goes anywhere but to the next position. |
| Blocks.CutExact | src/nnc_3a_cfg.c:17-77 | Blocks are a partition in the sense of the builder if and only if they are cut where the machine can leave the line. |
| Blocks.PartitionUnique | src/nnc_3a_cfg.c:17-77 | These conditions determine the blocks. |
| BlockSteps.InsideGoesOn | src/nnc_3a_cfg.c:17-77 | At a quad that is not the last of its block the machine goes on to the next one or is stuck, in every state and environment. |
| BlockSteps.TakenIsEdge | src/nnc_3a_cfg.c:152-180 | Whenever the machine goes from the last quad of a block to the first of another there is an edge. |
| BlockSteps.EdgesExact | src/nnc_3a_cfg.c:152-180 | If the operands of the last quad of a block leave it open, block j is a successor if and only if some state at that quad goes to the first quad of j; and where two different ways lead out, that holds only if they do: a test of a constant, or of a temporary against itself, has an edge that is never taken. |
| BlockSteps.EnteredIsReachable | src/nnc_3a_cfg.c:187-202 | Whatever any run from the first quad enters is reachable in the graph, so no run comes to a block that is pruned. |
| Cfg.TraverseNode | src/nnc_3a_cfg.c:96-107 | On any graph, cyclic or not, the recursion ends and clears the marks of the nodes reachable over marked nodes, and no others. |
| Cfg.Graph.Traverse | src/nnc_3a_cfg.c:109-114 | From the root: a mark is cleared if and only if the node is reachable. |
| Cfg.Graph.Link | src/nnc_3a_cfg.c:141-183 | The edges of one node are the successors of its block. |
| Cfg.Graph.Rebuild | src/nnc_3a_cfg.c:133-185 | All edges and marks are set from the list of blocks: `next` and `jump` are exactly the successors in the linear program, which BlockSteps.EdgesExact states by the steps of the machine. |
| Cfg.Graph.GetCfg | src/nnc_3a_cfg.c:212-222 | A node for each block, with edges and marks. |
| CfgPrune.PruneKeeps | src/nnc_3a_cfg.c:187-210 | Every surviving block keeps its `next` and `jump`, although edges are rebuilt from adjacency; all survivors are reachable, so a second prune removes nothing. |
| CfgPrune.AllStay | src/nnc_3a_cfg.c:187-210 | If everything is reachable nothing is removed. |
| CfgPrune.PrunePreservesRuns | src/nnc_3a_cfg.c:187-210 | For any number of steps the pruned code is at the corresponding quad of the corresponding block with the same state, or has ended with the same result. |
| CfgPrune.EmittedResolved | src/nnc_3a_cfg.c:165-168 | For the blocks of a procedure's code every jump finds its block, so the assertion in the builder never fails. |
| CfgPrune.UsedNodes | src/nnc_3a_cfg.c:187-202 | Keeps the reachable nodes in order and counts the quads of the others. |
| CfgPrune.CfgOptimize | src/nnc_3a_cfg.c:187-210 | Leaves the graph of the reachable blocks, rebuilt. |
| RoundTrip.RoundTrip | src/nnc_parse.c:411-931 | For every tree, rendering it with the parentheses its levels require and parsing the tokens gives back the tree and leaves exactly what follows it; that the levels are those of the list of precedence is stated by Precedence. |
| RoundTrip.RenderUnique | src/nnc_parse.c:411-931 | So different trees have different tokens. |
| RoundTrip.BinParses | src/nnc_parse.c:601-923 | Every binary level, `=` and `,` included, folds to the left. |
| RoundTrip.ArgsParse | src/nnc_parse.c:528-545 | Arguments, each an assignment-level expression, up to the closing parenthesis. |
| RoundTrip.AssignLeft | src/nnc_parse.c:881-901 | `a = b = c` is parsed as the assignment of `c` to `a = b`. |
| Precedence.ChainParses | src/nnc_parse.c:601-923 | Any chain of operands, with prefix operators and members, and binary operators is parsed to the tree that the list of precedence, written out by operators from comma to multiplication, gives it: each operator goes down the right edge of the tree as long as it is tighter than the one there. |
| Precedence.FlatParses | src/nnc_parse.c:601-923 | Without parentheses the tree in which every right operand is tighter and no left one looser, by that list, is the one that is parsed. |
| Precedence.TwoOperators | src/nnc_parse.c:601-923 | `a p b q c` for all names and all pairs of operators: q is applied first if it is in a tighter row of the list, otherwise p. |
| Precedence.PrefixFirst | src/nnc_parse.c:580-599 | A prefix operator before or after a binary one applies to its own operand alone, members included. |
| Precedence.CondFlat | src/nnc_parse.c:862-879 | A conditional without parentheses takes as its condition everything tighter than an assignment and as its second alternative everything up to the end. |
| Precedence.CondAfter | src/nnc_parse.c:862-901 | `a p b ? c : d`: the condition is all of `a p b`, except after an assignment and a comma. |
| Precedence.CondBefore | src/nnc_parse.c:862-879 | `a ? b : c p d`: the second alternative is all of `c p d`, whatever p is. |
| Precedence.CommaInBrackets | src/nnc_parse.c:528-555 | A comma separates arguments, an assignment is one argument, and between square brackets a comma is an operator. |
| Parser.ExprParser.ParseLevel | src/nnc_parse.c:925-931 | Each level consumes exactly the tokens the grammar function consumes and builds its tree, or fails when it fails; which tree that is without parentheses is stated by Precedence. |
| Parser.ExprParser.BinaryExpr | src/nnc_parse.c:601-860 | The loop that grows the tree on the left is the grammar's left fold. |
| Parser.ExprParser.TernaryExpr | src/nnc_parse.c:862-879 | Both alternatives are whole expressions, unlike in the grammar file. |
| Parser.ExprParser.UnaryExpr | src/nnc_parse.c:580-599 | A parenthesis followed by a type is a cast. |
| Parser.ExprParser.PostfixExpr | src/nnc_parse.c:557-578 | `as` or a loop of accesses. |
| Parser.ExprParser.CallArgs | src/nnc_parse.c:528-545 | Stops at the closing parenthesis or the end of the input. |
| Parser.ExprParser.PrimaryExpr | src/nnc_parse.c:411-423 | Literals, names and parentheses. |
| HashMap.PutAbsent | src/nnc_map.c:201-227 | Inserting an absent key, with whatever rehashing that causes, adds exactly this binding and keeps `len` exact, for any hash function and capacity. |
| HashMap.RehashKeeps | src/nnc_map.c:98-118 | Rehashing changes no binding, and its recursion with put ends even at capacity 1, where growing by half changes nothing. |
| HashMap.PopRemoves | src/nnc_map.c:160-192 | Popping removes exactly this binding. |
| HashMap.OverwriteExact | src/nnc_map.c:201-227 | Overwriting a present key keeps the other bindings if and only if the key is the last of its chain: otherwise the rest of the chain is cut off. |
| HashMap.PutLast | src/nnc_map.c:201-227 | Overwriting the last key of a chain changes exactly this binding. |
| HashMap.PutPlaced | src/nnc_map.c:201-227 | Whatever is put, keys stay in their own bucket and in no chain twice. |
| HashMap.LenCountsKeys | src/nnc_map.c:201-227 | `len` is the number of keys. |
| HashMap.RehashRate | src/nnc_map.c:86-104 | A map is rehashed at a load of 0.7 or more, to one and a half times its capacity. |
| HashMap.LoadKept | src/nnc_map.c:201-227 | From capacity 4 on a put, with its rehash, never leaves more than one entry above that load, and the map never shrinks. |
| HashMap.HistoryRefines | src/nnc_map.c:142-266 | Over any history of put, pop, get and has in which overwritten keys are last in their chain, the table is the mathematical map. |
| HashMap.ChainedMap.Has | src/nnc_map.c:255-267 | Whether the key is present. |
| HashMap.ChainedMap.Get | src/nnc_map.c:142-152 | The value of a present key. |
| HashMap.ChainedMap.Put | src/nnc_map.c:201-227 | The new state of the whole table. |
| HashMap.ChainedMap.Rehash | src/nnc_map.c:98-118 | A larger bucket array filled from the old one by put. |
| HashMap.ChainedMap.Pop | src/nnc_map.c:160-192 | The new state of the whole table. |
| Layout.ResolveMembers | src/nnc_resolve.c:398-437 | The size of a struct is the sum, of a union the maximum, of its members' sizes. |
| Layout.DotOffset | src/nnc_3a.c:194-230 | The offset emitted for a member is where it starts; 0 in a union. |
| Layout.StructTiles | src/nnc_resolve.c:419-437 | Members lie one after the other, without gap or overlap, from 0 to the size of the struct. |
| Layout.ByteOwner | src/nnc_resolve.c:419-437 | Every byte of a struct belongs to exactly one member. |
| Layout.UnionFits | src/nnc_resolve.c:398-410 | Every member fits at offset 0 and some member fills the union. |
| Layout.IndexOffset | src/nnc_3a.c:232-288 | The offset computed by collecting sizes inward and using them up from the other end. |
| Layout.OffsetIsRank | src/nnc_3a.c:232-288 | That offset is the element's mixed-radix number, first index fastest, times its size. |
| Layout.RankInjective | src/nnc_3a.c:232-288 | Different index tuples in range have different numbers. |
| Layout.RankSurjective | src/nnc_3a.c:232-288 | Every number below the product of the dimensions is some tuple's. |
| Layout.IndexingOntoSlots | src/nnc_resolve.c:374-389 | A fully applied tuple in range addresses a whole element inside the array. |
| Layout.SlotsAreReached | src/nnc_resolve.c:374-389 | Every element slot of the array is addressed by exactly one tuple. |
| Calls.CallGenerator.GenPush | src/nnc_gen.c:47-53 | A push and eight more bytes on record. |
| Calls.CallGenerator.GenPop | src/nnc_gen.c:55-62 | A pop and eight bytes fewer. |
| Calls.CallGenerator.AlignStack | src/nnc_gen.c:91-105 | One more word when the size is off by a word, nothing when it is not. |
| Calls.CallGenerator.OpDeclCall | src/nnc_gen.c:1301-1325 | Opens a call: the registers it is given, those SaveBusy has found in use, are pushed in order and recorded. |
| Calls.CallGenerator.OpArg | src/nnc_gen.c:1110-1131 | The first six arguments go to registers, the others are pushed. |
| Calls.CallGenerator.OpCall | src/nnc_gen.c:1178-1210 | Pads, calls, drops arguments and padding and restores the registers in reverse; the record returns to what it was before the call was opened. |
| Calls.StackPad | src/nnc_gen.c:81-89 | The least number of bytes that completes a multiple of 16. |
| Calls.AlignedIffEven | src/nnc_gen.c:1178-1183 | At the call instruction the recorded depth is a multiple of 16 if and only if the number of stack arguments is even (section 3.2.2 of the System V AMD64 psABI). |
| Calls.StepsAccounted | src/nnc_gen.c:47-105 | Opening, passing and closing keep the recorded bytes equal to what the open calls have pushed, in whole words. |
| CallSim.ExprLevel | src/nnc_3a.c:403-702 | An expression's code closes every call it opens; each jump in it goes where the same calls are open with the same arguments passed; each call finds as many arguments as its quad says. |
| CallBalance.ProcedureLevel | src/nnc_gen.c:1301-1325 | Whatever registers are busy at each call: every jump of a procedure goes where the generator's record is the same, and at the end of the code it is empty. |
| CallRuns.PopsRun | src/nnc_gen.c:1188-1196 | Popping in reverse order gives every saved register its value and leaves the stack below as it was. |
| CallRuns.CallRestores | src/nnc_gen.c:1178-1196 | The instructions of a call, whatever the callee does to registers: the stack and the saved registers are as they were when the call was opened, and the other registers, the one with the result among them, keep what they held after the call itself. |
| CallRuns.CallsBalance | src/nnc_gen.c:1178-1210 | On every run of a procedure's code, over all jumps: the depth of the stack is what the generator has on record; every call gives back the stack and the saved registers of its opening; at a call the stack is aligned if and only if the arguments beyond the sixth are even in number; at the end the stack is as at the start. |
| Arena.Heap.Zip | src/nnc_arena.c:53-69 | In place: the live entries, in order, and no empty place. |
| Arena.Heap.Grow | src/nnc_arena.c:75-84 | Twice the capacity, the same entries. |
| Arena.Heap.MakeRoom | src/nnc_arena.c:92-101 | Zips or grows when full; either way there is a free place afterwards. |
| Arena.Heap.Push | src/nnc_arena.c:92-104 | The entry follows the live ones and both byte counters grow by its size. |
| Arena.Heap.Flush | src/nnc_arena.c:111-118 | Empties one place and takes its bytes off the count. |
| Arena.Heap.Alloc | src/nnc_arena.c:125-136 | A new live entry of the size asked for. |
| Arena.Heap.Dispose | src/nnc_arena.c:144-163 | Empties the first place that holds the address; nothing happens when none does. |
| Arena.Heap.Fini | src/nnc_arena.c:192-207 | Ends with no byte on record, which is what its assertion says. |
| Arena.LiveCounts | src/nnc_arena.c:53-69 | The live and the empty places are all there are, and compacting loses no block and no byte. |
| Arena.RoomFits | src/nnc_arena.c:92-101 | Making room makes room and keeps the live blocks in order. |
| Arena.RateInWords | src/nnc_arena.c:38-46 | The rate test is 20 times the empty places against 3 times the capacity. |
| Arena.HistoryHeld | src/nnc_arena.c:38-163 | After any history of requests: the live entries are exactly the blocks held, each once, and the capacity, once it has grown, is less than 40/17 of the most blocks ever held at once. |
| Arena.Serve | src/nnc_arena.c:125-163 | A history carried out by an arena ends in the table this says. |

## Left out

- Driver, files, assembler and linker, dumps, error messages: input and output only.
- Lexer, symbol tables, type compatibility, exceptions by `setjmp`: they reach the models here only as tokens, names and well-formed trees.
- Selection of x86 instructions: places, stack and calls are modelled, operand forms and sign extension are not, so the end-to-end result stops at quads over registers and slots; the result of a function stands in its place when the call returns, not first in rax.
- ExprSim.ExprRuns: floating point, strings, `.` and `[]` are not in the simulation; operands are 64-bit words, addresses of variables, functions and an undefined value, because aggregates are treated in Layout.
- Translator.Emitter.ExprTo3a: the same cases are left out of the emitter.
- Translator.Emitter.LvalTo3a: addresses of members and elements are left out with them.
- Layout.DotOffset: is the number the code computes; the quads that add it to an address are not modelled.
- Layout.IndexOffset: is the number the emitted multiplications and sums compute; those quads are not modelled.
- Narrower operand types in the simulation: casts narrow, but arithmetic is on 64 bits; Widths says when folding on 64 bits is right for narrower types.
- Translator.Emitter.InfixTo3a: leaves out the multiplication that scales an integer added to a pointer, because the source semantics gives an address no sum, so such programs have no claim.
- Operations C leaves undefined: division by zero, the most negative value divided by -1, shift counts of 64 or more, right shifts of negative values; signed overflow wraps, as the code's arithmetic does.
- Names are flat: a local that shadows another is one variable, as the emitted quads name it; parameters are bound by the environment; the store keeps variables by name, so that their slots, which Allocation.PlacesSound keeps apart and Allocation.NamesInOnePlace finds again, do not appear in the machine.
- The width of the label and temporary counters: both are unbounded, the label operand of a quad has 26 bits in the original.
- Runs that do not end: the simulation is for bodies that end, by value or by falling off the end.
- OptSim.PassesPreserve: assumes that every window rewritten is good, because the optimizer itself does not check it; OptFaults has programs on which it is not and the result differs, and OptKeeps.DocileAllGood a class of code for which it is. The converse is stated window by window in OptConverse and not for whole programs: a window that is not good may stand where control never comes.
- OptKeeps.DocileAllGood: is about code; MildSource.MildTame gives a class of sources with such code, smaller than it could be: casts, signs, dereferences and assignments as values are outside.
- Pipeline.CompiledRuns: the same assumption, and that of Allocation.AllocatedAlike for the optimized code.
- Allocation.AllocatedAlike: assumes an accepted pass. Without it the original goes wrong where CallTable.PassExact, Allocation.ArgKeptExactly, RegAlloc.CallExact, RegAlloc.BracketExact, Frames.FrameExact and Frames.LabelsCollide say, and stops where an argument is not in a register; that temporaries stay out of argument registers is sufficient and not necessary: a temporary in an argument register may be used up before that register is set.
- CallPlaces.PassAlways, CallPlaces.FrameApart and the steps of CallSteps are about the pass as it goes when nothing is lost; CallTable.PassFinds and Allocation.CodeFound carry them over to the pass with its hash map.
- CallLabels.CalmFinds: asks that names used inside calls are known before, as globals, parameters and declared locals are; a function's name or a string first met inside an argument is outside it, although asking again gives it the same place in the data segment.
- LabelFault.FirstArgCuts: is about the first argument of a procedure; CallTable.PassExact covers all of them.
- Optimizer.PeepholeOptimizer.Optimize: excludes lists of which the passes leave nothing, on which the original starts again from a buffer it has freed.
- Pipeline.GenProc: the same lists are excluded when optimizing; the flag that asks for it is a parameter.
- A read of one quad past the end by two matchers is taken as no match; the original reads whatever lies there.
- A fold that C leaves undefined is taken to give zero; OptSim assumes it does not occur, because the original's result there is whatever the host computes.
- Casts of constants to pointer types emit nothing in the optimizer; this is modelled and excluded from good windows.
- Disabled patterns (parts 1, 6 and 7), dead-temporary erasure and quad zipping: not on any live path.
- Registers a quad takes for itself are a parameter of the pass, taken and given back in pairs. Not modelled: that `*p` with p in rbx and shifts with the count in rcx give the register back without having taken it, and that a division with its second operand in rax swaps the locations of its operands, which writes over two labels.
- The stack of ranges of a register is never full: the mark of `nnc_push_reg` is written through a copy of the vector and lost when the vector has to grow, which takes 32 entries.
- Calls.CallGenerator.OpDeclCall: the registers are a parameter here; Allocation.GenQuad passes those of SaveBusy.
- Calls.CallGenerator.OpArg: counts and pushes; the move into the argument register and its reserve are in RegMachine and RegAlloc.Allocator.StoreParam.
- CallBalance.ProcedureLevel: holds whatever registers are saved; Allocation.SavedRegistersBalance is for those in use.
- CallRuns.CallsBalance: the same.
- CallSteps.CallStep: hands the callee the arguments beyond the sixth in the order of pushing; StackArgs.StackArgsExact says when a callee of the same compiler finds them, which is so only for one of them.
- The prologue's frame: CallRuns speaks of depth relative to the stack at the first quad.
- Parser.ExprParser.UnaryExpr: casts to user types are left out, because types are built-in ones with pointer marks only.
- Parser.ExprParser.PrimaryExpr: the joining of adjacent strings and names in namespaces are left out.
- The parser's statements, array declarators, user types and namespaces: expressions over literals, names and built-in types only.
- Key comparison in the map is equality of keys; capacity 0, on which the original divides by zero, is excluded.
- HashMap.HistoryRefines: overwriting a key that is not last in its chain loses the rest of the chain, which HashMap.OverwriteExact states exactly, so such histories are excluded.
- Sizes and offsets are unbounded; the original keeps them in 32 or 64 bits.
- Index chains through pointers and partial indexing: the linear formula is for fully applied arrays.
- The arena's byte counters are unbounded, allocation does not fail, and an arena is not used again after it has been closed.
- Precedence.ChainParses: is about names, literals, members, prefix and binary operators; casts, calls, indices and `as` are in RoundTrip.RoundTrip.
- BlockSteps.EdgesExact: is about one block at a time; that an edge can be taken from the start of the procedure is not claimed.
- OptWindows.OnlyWindows: asks that operands compared as temporaries are temporaries; OptWindows.MistakenRule states exactly what a fold does otherwise.
