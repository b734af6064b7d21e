# TraceWasm in Dafny

TraceWasm is a WebAssembly interpreter with two interchangeable machines and two
interchangeable drivers, and a layer that builds LLVM IR. This project models the parts
whose correctness spans several functions and proves them: what the drivers compute, how the
two frame stores carry a tree of calls, what the two machines' lowering passes preserve, that
the machines agree on a program, and the pools, names, constants and memory underneath.

`dafny verify dfyconfig.toml` checks everything.

## What is proved

**The drivers.** The interpreter loop is written twice. `execute_on_native_stack` recurses
and builds its backtrace while it unwinds; `_execute_on_frame_stack` keeps its own call
stack and rebuilds the backtrace in one pass. `Drivers` gives each a meaning over an
arbitrary machine: any deterministic `execute`, any frame store. `DriverAgreement` proves
them equal in both directions, in stores, errors and traces; `DriverTightness` shows that
the one condition it needs, that no body ends in an instruction that calls, is exact.
`DriverLoops` holds the loops themselves. `DriverTraces` proves what every backtrace and
every reachable call stack looks like, and `DriverReach` that the drivers pass through the
same states, with the same callers, in runs that never end too.

**The frame stores.** `FrameConvention` states the contract of `RuntimeFrame` as laws and
proves, from the laws alone, that no tree of calls disturbs its callers, that the results a
caller finds are those its callee's own activation ended with, and where the store ends. What
is asked of the instructions is asked only in the states that validation admits where they
stand. `FrameInvariant` carries this to every state of a run, and to the absence of panics.
`RegisterLayout`, `RegisterFrame` and `OperandStack` hold the two stores, as classes with the
source's loops, and prove that each obeys the laws. `ImportedCalls` shows that a caller
cannot tell an imported callee from a local one, and `HostCalls` that the imported functions
of the programs below are such callees.

**Lowering for the register machine.** `local.get` emits nothing: an operand is remembered
as "read local i" until the local is written, when one copy to a spill slot rescues every
operand still reading it; operands become frame indices only when the sizes of all regions
are known. `StackCode` is the stack machine as a reference. `RegisterLowering` and
`LoweredBody` give the pass, `SimulatedStacks` has it in place, and `LoweringCorrect` proves
that a lowered body computes what the stack machine computes. `LoweredPrograms` extends
this to programs of functions that call one another, `LoweredDrivers` to both drivers
running such programs, and `Invocation` to a call from outside. `SpillAccounting` and
`BlockAccounting` prove that no spill slot is ever lost.

**Structured control.** `BlockCode` adds blocks, loops and branches to the reference, and
`BlockLowering` the labels, moves and hoisted spills of the pass. `BlockRuns` proves the
simulation and `BlockBody` the theorem in both directions: a lowered body ends if and only if
the stack machine does, and alike. `BlockPrograms` and `BlockDrivers` carry this to whole
programs of functions that loop, call one another and recurse, under both drivers, and
`BlockInvocation` to a call from outside. The theorems have one condition: no operand is
stranded. The condition is needed. After an unconditional branch the pass skips what cannot
run, but it resumes at the end of the innermost block, even if the branch left that block for
another and nothing reaches its end. A write to a local there emits its rescue in code that
never runs, and the operand is afterwards read from a slot nothing wrote. `OutwardBranch` has
a body on which this happens, and proves that a single branch is right for all values exactly
when each operand below its label is read from the same place on both sides. `BlockStability`
proves that every other kind of branch always is. `BlockBody` turns this into a check on the
source, and `OutwardNests` proves the check tight: wherever it refuses a branch, some body
with a branch there is lowered wrongly. `BlockShape` proves that every index in structured
lowered code lies where it may, so that no run ends in a panic.

**Lowering for the stack machine.** The other pass emits one instruction for each operator,
counts the height of the operands as it goes, and patches forward branches when it reaches
their labels' ends. `StackLowering` has the pass in place and says, by recursion on the
structure, what it produces. `StackHeights` proves the counted heights right, `StackPrograms`
that every program lowered this way meets what the calling convention asks, and `StackDrivers`
that it does what the reference does, with no condition. `MachineAgreement` puts the two
machines side by side: under the one condition of the register machine they end together and
alike, and wherever that condition can fail there is a program on which they do not.

**The LLVM layer.** `Interning`, `Types` and `TypePrinting` prove that a type id stands for
one type, at any depth, and that printing is injective, by a parser that inverts it.
`Constants` and `TypeContext` cover integer casts, bringing two operands to one type,
aggregate construction and index walks. `RegisterNames` covers the name allocator, whose
retry loop ends by counting the issued names not yet passed.

**Linear memory and constant expressions.** `LinearMemory` refines a byte map over any
history. `ConstExprs` proves the evaluator correct on every expression, and says exactly on
which instruction sequences it answers.

## How the model reads

- Wasm programs may diverge, so the drivers' meanings take a bound on the instructions they
  may execute; the theorems quantify over every bound and do not mention one otherwise.
- A Rust panic is an outcome (`Panicked`, `Crashed`, or no answer), never a precondition,
  except where a method's documentation makes a condition the caller's duty.
- The host, value operators and everything an instruction touches besides the frame are
  parameters. Value operators, globals, memory accesses and the like are one operator form
  with an arbitrary effect. A host that answers with another count of results than the import
  declares is modelled as an error.
- A program of structured functions may call one that never returns, so on the stack machine
  a call takes fuel, the number of returns to a loop's head, and may be unfinished; on the
  register machine the fuel counts instructions. No theorem mentions either bound otherwise.

## Findings

Two places where the code does not do what it or its documentation says. Each has an input
on which it fails and the exact extent of the failure, proved.

| place | what is claimed | what happens | proved by |
|---|---|---|---|
| tracewasm-core/src/runtime/mod.rs:574-646 | the two drivers are interchangeable | the explicit-frame driver tests for the end of a body once per iteration, so it panics after a call in last position, where the recursive one returns; they agree exactly when no body ends in an instruction that calls, and no lowered body does | `DriverTightness.FrameCrashesAfterTrailingCall`, `DriverTightness.AgreementIffQuietEnds` |
| tracewasm-core/src/instruction/register/mod.rs:2549 | a block needs no hoisted spills | after an unconditional branch out of the innermost block to the end of another, code after the inner end is lowered as if it could run, and an operand may be redirected to a copy that is never made; it can happen wherever such a branch has no loop between it and its target, and nowhere else; the two machines then answer differently | `OutwardBranch.OperandLost`, `OutwardBranch.BranchRightIffStable`, `BlockBody.InwardBodiesAreSafe`, `OutwardNests.OutwardPlacesGoWrong`, `MachineAgreement.MachinesDisagree` |

## Model

| member | source | states |
|---|---|---|
| DriverAgreement.DriversAgree | tracewasm-core/src/runtime/mod.rs:304-672 | The recursive driver ends in an outcome (a final store, a trap with its backtrace and store, or a panic) if and only if the explicit-frame driver ends in the same one, for every program, machine, entry function and store, provided no body ends in an instruction that calls; so they diverge together |
| DriverAgreement.SimulateLoop | tracewasm-core/src/runtime/mod.rs:340-462 | A recursive activation on top of any suspended callers is a block of iterations of the explicit driver, with the same store and with the trace extended by exactly the suspended callers' records |
| DriverTightness.AgreementIffQuietEnds | tracewasm-core/src/runtime/mod.rs:574-646 | The condition is exact: the drivers agree on a program under every machine that calls only at the instructions marked as callers, if and only if no body ends in a marked instruction |
| DriverTightness.FrameCrashesAfterTrailingCall | tracewasm-core/src/runtime/mod.rs:499-672 | A concrete machine on which the explicit driver panics after a call in last position |
| DriverTightness.NativeReturnsFromTrailingCall | tracewasm-core/src/runtime/mod.rs:304-462 | On that machine the recursive driver completes |
| DriverLoops.ExecuteOnNativeStack | tracewasm-core/src/runtime/mod.rs:304-462 | The recursive driver's loop, in place on an instance, computes the recursive meaning, including the depth counter it threads by reference |
| DriverLoops.ExecuteOnFrameStack | tracewasm-core/src/runtime/mod.rs:499-672 | The explicit driver's loop, in place on an instance, computes the explicit-frame meaning |
| DriverLoops.FuncCallErr | tracewasm-core/src/runtime/mod.rs:988-1031 | One pass over the saved frames rebuilds the trace, innermost first |
| DriverTraces.NativeErrorTrace | tracewasm-core/src/runtime/mod.rs:379-432 | Every trace the recursive driver reports is non-empty and innermost-first, has one non-call record, links each call record to the function before it, ends at the entry function, has one record per live activation and no more than the depth limit allows |
| DriverTraces.NativeTrace | tracewasm-core/src/runtime/mod.rs:347-450 | The same for an activation at any depth; the trace is as long as the activations entered since |
| DriverTraces.FrameDriverInvariant | tracewasm-core/src/runtime/mod.rs:499-672 | In every state the explicit driver reaches, the saved frames form a call chain from the entry function within the depth limit; the traces it reports are linked, within the limit and end at the entry function |
| DriverTraces.StepKeepsChain | tracewasm-core/src/runtime/mod.rs:499-672 | One iteration keeps the call chain, and a failing one reports a linked trace with one record per live activation |
| DriverTraces.CauseNeverDiverges | tracewasm-core/src/error.rs:227-287 | For every error that a run by either driver reports, the cause is the first record and no other record is a cause |
| DriverReach.NativeDriverInvariant | tracewasm-core/src/runtime/mod.rs:304-462 | In every state the recursive driver reaches, whether or not its run ends, the suspended callers form a chain of real calls from the entry function within the depth limit |
| DriverReach.DriversReachTheSame | tracewasm-core/src/runtime/mod.rs:304-672 | The drivers agree on every state of every run, of those that never end too: one reaches a function, place, base, store and list of suspended callers if and only if the other does, provided no body ends in an instruction that calls |
| DriverReach.LoopKeepsChain | tracewasm-core/src/runtime/mod.rs:347-450 | The same for an activation at any depth, below any chain of callers |
| Drivers.NativeCall | tracewasm-core/src/runtime/mod.rs:304-355 | A call that returns leaves the depth counter as it found it |
| Invocation.Run | tracewasm-core/src/runtime/mod.rs:237-275 | `run`: resets the frame store, stages the arguments, runs the entry function and re-tags its results by the declared types, on either frame store |
| Invocation.ReplyIsTyped | tracewasm-core/src/runtime/mod.rs:237-275 | On either frame store, an answer has the declared types and an error carries a linked backtrace within the depth limit |
| Invocation.StageStack | tracewasm-core/src/runtime/stack.rs:326-334 | The operand stack's own reset and staging do what `run` is modelled to ask |
| Invocation.FinalStack | tracewasm-core/src/runtime/stack.rs:370-380 | Taking the results off the operand stack gives its top values in order and consumes them |
| Invocation.StageRegisters | tracewasm-core/src/runtime/reg.rs:108-171 | The register file's reset and staging do the same |
| Invocation.FinalRegisters | tracewasm-core/src/runtime/reg.rs:155-163 | And so does reading its results |
| FrameConvention.CallKeeps | tracewasm-core/src/instruction/mod.rs:156-207 | On any frame store that implements the calling convention, under any instruction set that keeps to its own frame in the states admitted at each place of the code, and goes on in an admitted one: whatever tree of calls a call makes, it changes nothing below its base, leaves there, in order, the results its own activation held when it reached `exit_frame`, and ends the store where the caller expects |
| FrameConvention.ResumeCaller | tracewasm-core/src/instruction/mod.rs:156-207 | The caller of such a call resumes with its own frame whole |
| FrameInvariant.DriverKeepsWhole | tracewasm-core/src/runtime/mod.rs:499-672 | In every state of every explicit-frame run, each activation on the call stack has its whole frame, bases are nested, the running one is in a state admitted at its instruction, and each of the others will be when it resumes |
| FrameInvariant.RunsDoNotPanic | tracewasm-core/src/runtime/mod.rs:304-672 | If no instruction panics in a state admitted where it stands, then no run does, under either driver: no trap is a panic, no body is overrun, and no missing function is entered |
| RegisterFrame.RegImplements | tracewasm-core/src/runtime/reg.rs:190-279 | The register file implements the calling convention: entry leaves the arguments followed by typed zeros and the constant pool, exit puts the results at the base, and writes above an operand base leave the frame below intact |
| OperandStack.StackImplements | tracewasm-core/src/runtime/stack.rs:392-433 | The operand stack implements the same calling convention: a frame that exits leaves its top values at its base and the stack ends with them |
| OperandStack.StackCallTree | tracewasm-core/src/runtime/stack.rs:392-433 | For any instructions that keep to their frames in the states admitted where they stand: a call on the operand stack that returns leaves exactly the stack below its base as it was and, on top, the top values its activation ended with |
| StackPrograms.StackIsDisciplined | tracewasm-core/src/instruction/stack/mod.rs:2340-4140 | Every validated program, lowered for the stack machine, is such a set of instructions: at the height the pass counted for its place, each one writes only its own frame, leaves the height awaited wherever control goes next, be it after a callee has returned, and leaves the results at the end of the body |
| StackPrograms.CertifiedStep | tracewasm-core/src/instruction/stack/mod.rs:2340-4140 | One instruction of the stack machine, at the height counted for it, does not panic, finds what it pops, keeps the locals and leaves the height counted for its successor |
| StackPrograms.HeightsAreRight | tracewasm-core/src/instruction/stack/mod.rs:960-1210 | In every state of every run, at every depth of calls, the operand stack is as high as the pass counted at the instruction to be executed; so the assertion at every `end` holds |
| StackPrograms.StackDoesNotPanic | tracewasm-core/src/instruction/stack/mod.rs:2340-4140 | However a run of such a program ends, under either driver, it has not panicked |
| StackPrograms.StackProgramCallTree | tracewasm-core/src/runtime/stack.rs:392-433 | So in a lowered program a call that returns leaves the stack below its arguments as it was, and on top the top values its activation ended with |
| StackPass.EmitInstructionsForFunc | tracewasm-core/src/instruction/stack/mod.rs:1326-2318 | The pass over the flat operator stream, with its stack of open blocks and its backpatching, in place: on the stream of a structured body it does not panic and yields the code described by recursion on the structure; on any stream it does what its steps do |
| StackPass.PassIsEmit | tracewasm-core/src/instruction/stack/mod.rs:1326-2318 | Every branch ends up at the end or the beginning of the construct it names, with the arity and the height of its label, code that cannot be reached included |
| StackHeights.SeqCertified | tracewasm-core/src/instruction/stack/mod.rs:960-1210 | The height tracked by counting pops and pushes, and frozen in dead code, is the one validation derives, wherever control can be, in every context of open labels |
| StackHeights.BodyCertified | tracewasm-core/src/instruction/stack/mod.rs:960-1210 | So every instruction of a validated body pops no more than is there, unwinds to no more than is there, and is followed by instructions at the heights it leaves |
| StackDrivers.SeqDrives | tracewasm-core/src/instruction/stack/mod.rs:2340-4140 | The flat code with jumps does what the structured reference does, under the recursive driver, for every sequence in every context of open labels: falling through, branching, trapping and not yet having ended |
| StackDrivers.StackCallDrives | tracewasm-core/src/runtime/mod.rs:304-462 | A call in such a program, anywhere on the stack and at any depth, returns the results of the reference, fails with its effects, or is still running while the reference is |
| StackDrivers.StackProgramRuns | tracewasm-core/src/runtime/mod.rs:304-672 | Every validated program lowered for the stack machine, under either driver, ends if and only if the reference does, both drivers end alike, with the results on the stack and nothing else |
| MachineAgreement.MachinesAgree | README.md:35-37 | The two machines are interchangeable: a program lowered for both that strands no operand ends on one, under either driver, if and only if it ends on the other; with the same results and effects, or with an error on both after the same effects |
| MachineAgreement.InvocationsAgree | tracewasm-core/src/runtime/mod.rs:212-275 | So a call from outside gets the same typed answer from both machines, or an error from both, whatever their stores held before |
| MachineAgreement.MachinesDisagree | README.md:35-37 | Without the condition they are not: wherever the check on the source refuses a branch, there is a validated program with a branch in that place which both passes accept, on which the stack machine returns the argument and the register machine 0 |
| RegisterLayout.EnterRegsShape | tracewasm-core/src/runtime/reg.rs:190-236 | After entry: everything up to the last argument is unchanged, then come zeros for the declared locals, then the constant pool |
| RegisterFrame.RegFrame.EnterFrame | tracewasm-core/src/runtime/reg.rs:190-236 | The loops of `enter_frame` produce that file, which is exactly as long as the highest frame entered since the last reset |
| RegisterFrame.RegFrame.ExitFrame | tracewasm-core/src/runtime/reg.rs:260-279 | The overlapping copy of the results to the frame base, through a temporary, moves them and nothing else |
| RegisterFrame.RegFrame.SetInitialParams | tracewasm-core/src/runtime/reg.rs:108-118 | Arguments from outside are appended untagged |
| RegisterFrame.RegFrame.Reset | tracewasm-core/src/runtime/reg.rs:169-171 | A reset empties the file |
| RegisterCallTrees.CallTreeKeepsFile | tracewasm-core/src/runtime/reg.rs:190-279 | Any tree of calls whose callees are based in their callers' operand registers leaves the file below the outermost base unchanged, never shortens it, and puts at that base what the first operand registers held when the call ended |
| RegisterCallTrees.CallerSurvivesCall | tracewasm-core/src/runtime/reg.rs:34-61 | Across such a call the caller's locals, constants and spills, and those of every caller below, are untouched |
| RegisterCallTrees.ConstantsInPlace | tracewasm-core/src/runtime/reg.rs:34-61 | In every state of every run, each live activation's constants hold their pool values and the next activation begins in its operand region |
| RegisterCallTrees.FileIsHighWater | tracewasm-core/src/runtime/reg.rs:190-236 | Over a driver's whole run, however it ends, the file is exactly as long as the highest frame entered so far, the file it started with included |
| OperandStack.RunHistory | tracewasm-core/src/runtime/stack.rs:131-311 | Over any legal history of operations the stack is a mathematical sequence: outputs and final contents depend only on its live prefix, and the backing vector never shrinks |
| OperandStack.Stack.TruncateByPreservingArity | tracewasm-core/src/runtime/stack.rs:276-292 | The in-place overlapping copy of a branch unwind leaves the prefix followed by the preserved top values |
| OperandStack.Stack.PopsAndReverse | tracewasm-core/src/runtime/stack.rs:241-256 | Popped values come back in push order |
| OperandStack.EnterFrame | tracewasm-core/src/runtime/stack.rs:392-424 | Pushes one zero per declared local above the arguments and records where operands begin |
| OperandStack.ExitFrame | tracewasm-core/src/runtime/stack.rs:426-434 | Leaves everything below the frame base followed by the results |
| ImportedCalls.CallImportedRegister | tracewasm-core/src/runtime/mod.rs:699-760 | On the register file the host receives the staged arguments re-tagged by declared type; its results overwrite the file at the callee base and nothing else, and the instance memory is what the host made of it, failures included |
| ImportedCalls.CallImportedStack | tracewasm-core/src/runtime/mod.rs:699-760 | On the operand stack the host receives the top values re-tagged; its results replace them, and the instance memory is what the host made of it |
| ImportedCalls.LocalLooksReturned | tracewasm-core/src/runtime/mod.rs:699-760 | After a local callee returns, its caller finds nothing below the base changed, the results in place at their types, and the store ending where it expects |
| ImportedCalls.RegisterImportLooksReturned | tracewasm-core/src/runtime/reg.rs:119-148 | After an imported callee on the register file it finds the same, whatever the host did to the rest of the instance |
| ImportedCalls.StackImportLooksReturned | tracewasm-core/src/runtime/stack.rs:336-360 | And after an imported callee on the operand stack, the final height included |
| ImportedCalls.HostSeesStagedArguments | tracewasm-core/src/runtime/mod.rs:699-760 | If the caller staged well-typed values, the host gets exactly those values |
| HostCalls.RegisterHostCall | tracewasm-core/src/runtime/mod.rs:699-760 | A lowered call to an imported function does on the register file what a call to a typed host function does: the host gets the staged typed arguments, and its results overwrite the file at the base |
| HostCalls.StackHostCall | tracewasm-core/src/instruction/stack/mod.rs:2340-2470 | The same on the operand stack |
| Values.TagRoundTrip | tracewasm-core/src/runtime/value.rs:202-386 | Dropping a value's tag and re-tagging by its type gives it back |
| Values.UntagInjective | tracewasm-core/src/runtime/value.rs:268-350 | Among values of one type the untagged word determines the value; a null reference is not the word of function 0 |
| Values.ZeroIsTypedZero | tracewasm-core/src/runtime/value.rs:355-374 | The untagged zero of a declared local is the zero of its type |
| ConstExprs.ConstExprEvaluator | tracewasm-core/src/runtime/mod.rs:772-838 | The evaluator's loop over a mutable stack returns the value left on top, or panics exactly where popping or typing fails |
| ConstExprs.EvaluatorCorrect | tracewasm-core/src/runtime/mod.rs:772-838 | Every well-typed expression tree, flattened to postfix, evaluates to the tree's wrapping value at its type, with no underflow and no wrong-type panic (section 3.3.7 of the WebAssembly Core Specification 1.0 with extended-const arithmetic) |
| ConstExprs.EvaluatesIffExpressions | tracewasm-core/src/runtime/mod.rs:772-838 | For any instruction sequence at all, the evaluator answers if and only if the sequence spells a run of well-typed expressions, and the answer is the last one's value |
| LoweringCorrect.LoweredBodyCorrect | tracewasm-core/src/instruction/register/mod.rs:2745-3842 | Lowering preserves meaning: for every accepted straight-line body, arguments, frame base, and behaviour of value operators and callees, entering the frame, running the lowered code and leaving the frame traps with the same effects as the stack machine or leaves the same results at the base, changing nothing below it |
| LoweringCorrect.OpAgrees | tracewasm-core/src/instruction/register/mod.rs:2745-3600 | One operator at a time: the emitted instructions take the frame from one state related to the stack machine's to the next |
| LoweringCorrect.RescueRel | tracewasm-core/src/instruction/register/mod.rs:1565-1580 | Before a write to a local, one copy to a spill slot keeps every operand that was reading the local at its old value |
| LoweringCorrect.MaterializeAgrees | tracewasm-core/src/instruction/register/mod.rs:1440-1466 | Forcing operands into consecutive registers, with overlapping sources and destinations, changes no operand's value |
| LoweringCorrect.LowerCallShape | tracewasm-core/src/instruction/register/mod.rs:3555-3592 | Arguments are staged exactly where the callee's frame will begin |
| BlockBody.StructuredBodyCorrect | tracewasm-core/src/instruction/register/mod.rs:2745-3842 | Lowering of structured code (blocks, loops, conditional and unconditional branches, unreachable) preserves meaning on every body that strands no operand: the lowered code traps with the same effects, delivers the same results at the frame base changing nothing below it, or has not ended while the stack machine has not |
| BlockBody.BodiesEndTogether | tracewasm-core/src/instruction/register/mod.rs:2745-3842 | So a lowered body ends if and only if the stack machine does |
| BlockBody.LoweredEndIsRight | tracewasm-core/src/instruction/register/mod.rs:2745-3842 | Whatever a lowered body ends with, at whatever step, is what the stack machine ends with |
| BlockRuns.SeqRuns | tracewasm-core/src/instruction/register/mod.rs:2768-3731 | The simulation behind it, for every sequence in every context of open labels: falling through, branching to any label, trapping and not yet having ended are matched one for one |
| BlockRuns.LoopRuns | tracewasm-core/src/instruction/register/mod.rs:3205-3234 | A loop from its head: each branch back arrives at the head with the loop's operands where its body expects them |
| BlockStability.PromoteSeq | tracewasm-core/src/instruction/register/mod.rs:2517-2617 | Conditional branches, branches to loops, branches out of loops and branches to the end of their own block never strand an operand, because borrows are rescued ahead of them or nothing is lowered before the label's end; only an unconditional branch past its own block to the end of another, with no loop between, can |
| BlockStability.BrIfStable | tracewasm-core/src/instruction/register/mod.rs:3392-3443 | At a conditional branch every operand below the label is read from the same place there and at the destination |
| OutwardBranch.BranchRightIffStable | tracewasm-core/src/instruction/register/mod.rs:3336-3391 | A branch leaves every frame as its destination describes it if and only if each operand below the label is read from the same place before the branch and at the destination |
| OutwardBranch.OperandLost | tracewasm-core/src/instruction/register/mod.rs:700-733 | A body on which the pass is wrong: the stack machine returns the argument, the lowered code returns a spill slot nothing wrote, because code after an inner end that nothing reaches is lowered as reachable |
| OutwardBranch.OperandStranded | tracewasm-core/src/instruction/register/mod.rs:2545-2554 | The theorem's condition fails on that body |
| BlockBody.InwardBodiesAreSafe | tracewasm-core/src/instruction/register/mod.rs:3336-3391 | A check on the source alone: a body whose unconditional branches all go to the end of their own block, to a loop, out of a loop or out of the function strands no operand |
| OutwardNests.OutwardPlacesGoWrong | tracewasm-core/src/instruction/register/mod.rs:700-733 | The check is tight: in every nest of blocks and loops, for every block in it and a branch to its end from any number of blocks further in, there is a valid body with the branch in that place that the pass accepts and lowers wrongly |
| OutwardNests.NestEmits | tracewasm-core/src/instruction/register/mod.rs:2768-3731 | What the pass makes of those bodies, in any context of open labels |
| BlockCorrect.CarriedRel | tracewasm-core/src/instruction/register/mod.rs:1489-1552 | A branch's move, with overlapping sources and destinations, leaves exactly what the stack machine keeps |
| BlockCorrect.SpillFromAgrees | tracewasm-core/src/instruction/register/mod.rs:2576-2617 | The spills hoisted ahead of a construct change no operand's value |
| SpillAccounting.SpillsNeverLeak | tracewasm-core/src/instruction/register/lazy.rs:257-322 | At every point of every straight-line body each spill slot is either free or read by an operand and never both, and the region widens only when every slot is read at once |
| BlockAccounting.SeqAccounted | tracewasm-core/src/instruction/register/mod.rs:2768-3731 | Structured code too: in every context of open labels, branches, the resets after them and the spills hoisted ahead of loops and conditional branches neither lose a slot nor leave a borrow without a borrower |
| BlockAccounting.StructuredSpillsNeverLeak | tracewasm-core/src/instruction/register/mod.rs:2768-3731 | So the accounts are exact at the end of every structured body |
| RegisterLowering.PopKeepsOk | tracewasm-core/src/instruction/register/mod.rs:1134-1200 | Popping keeps borrow counts exact, origins and locations consistent, and spill slots unshared |
| RegisterLowering.RescueKeepsOk | tracewasm-core/src/instruction/register/mod.rs:1565-1580 | So does spilling; afterwards the local has no borrower |
| LoweredPrograms.LoweredShape | tracewasm-core/src/instruction/register/mod.rs:3743-3842 | Every resolved operand, destination and call base lies in the region it may name, the whole frame fits 16-bit indices, and every body ends with its end |
| BlockShape.StructuredShape | tracewasm-core/src/instruction/register/mod.rs:3743-3842 | Structured code too: every resolved operand, destination, call base and carried operand of a branch lies in the region it may name, every jump in the body, and the whole frame fits 16-bit indices |
| LoweredPrograms.CallMeets | tracewasm-core/src/instruction/register/mod.rs:2745-3842 | Whole programs: a lowered function, called anywhere in the register file, does there what it does on the stack machine, through any depth of calls, recursion and calls into the host included |
| LoweredDrivers.LoweredIsDisciplined | tracewasm-core/src/instruction/register/mod.rs:3760-3800 | Lowered programs meet everything the frame theorems and the drivers' agreement assume: instructions write only their own frame outside its constants, calls are based in operand registers, no body ends in a call |
| LoweredDrivers.LoweredProgramRuns | tracewasm-core/src/runtime/mod.rs:304-672 | Both drivers, running a lowered program, end: with the stack machine's answer in the first slots and the same effects, or with an error, the same backtrace and the same effects, exactly when it traps |
| LoweredDrivers.LoweredDoesNotPanic | tracewasm-core/src/runtime/mod.rs:304-672 | However a run of a lowered program ends, it has not panicked: no index was out of range |
| BlockCalls.EverySeqCallsOk | tracewasm-core/src/instruction/register/mod.rs:3555-3592 | Every call that structured lowering emits names a function of the program, with its counts of parameters and results |
| BlockDrivers.CallDrives | tracewasm-core/src/runtime/mod.rs:304-462 | Programs of functions with loops and branches that call one another: a call by the recursive driver, anywhere in the file and at any depth, returns the stack machine's results, fails with its effects, or is still running while the stack machine is; calls into the host included |
| BlockDrivers.StructuredProgramRuns | tracewasm-core/src/runtime/mod.rs:304-672 | Such a program, run by either driver, ends if and only if the stack machine does, both drivers end alike, and the stack machine's answer is in the first slots |
| BlockDrivers.StructuredIsDisciplined | tracewasm-core/src/instruction/register/mod.rs:3760-3800 | Such programs meet what the frame theorems and the drivers' agreement assume |
| BlockDrivers.StructuredDoesNotPanic | tracewasm-core/src/runtime/mod.rs:304-672 | However a run of such a program ends, under either driver, it has not panicked: what the simulation calls a stop is a trap of the program |
| BlockInvocation.StructuredRunAnswers | tracewasm-core/src/runtime/mod.rs:237-275 | A call from outside to such a program settles on the stack machine's answer, re-tagged, or on an error with a complete backtrace, whatever the file held before |
| BlockInvocation.StructuredRunGoesOn | tracewasm-core/src/runtime/mod.rs:237-275 | While the stack machine has not answered, neither has the call |
| Invocation.RunAnswers | tracewasm-core/src/runtime/mod.rs:212-275 | A call from outside to a lowered program ends; the reply is the stack machine's answer re-tagged by the declared types, or an error with a complete backtrace, and owes nothing to what an earlier call left in the file |
| SimulatedStacks.LowerFunction | tracewasm-core/src/instruction/register/mod.rs:2745-3842 | The pass in place, operator by operator, followed by the layout checks and the resolution of operands, computes the lowered body the theorems are about, or the same refusal |
| SimulatedStacks.SimulatedStack.Pop | tracewasm-core/src/instruction/register/mod.rs:1181-1200 | Consumes the top operand, releasing its register or borrow, and reports where it was to be read |
| SimulatedStacks.SimulatedStack.PushLocalOperand | tracewasm-core/src/instruction/register/mod.rs:1156-1170 | Joins the borrow of a local or starts one |
| SimulatedStacks.SimulatedStack.PushRegister | tracewasm-core/src/instruction/register/mod.rs:983-1001 | Allocates one register, widening the frame to at most 65535 slots |
| SimulatedStacks.SimulatedStack.SpillBeforeWrite | tracewasm-core/src/instruction/register/mod.rs:1565-1580 | Reserves a slot, redirects the borrow and emits the copy, or does nothing when nothing borrows the local |
| SimulatedStacks.SimulatedStack.RegisterIndexAtDepth | tracewasm-core/src/instruction/register/mod.rs:1595-1605 | Counts back over the registers among the top operands |
| SimulatedStacks.SimulatedStack.PopInputs | tracewasm-core/src/instruction/register/mod.rs:1321-1365 | The operands an instruction names, deepest first, are those the pops release |
| Interning.Interner.TryIntern | tracewasm-utils/src/interner.rs:131-166 | A known value keeps its id, a new one gets the next, a full pool refuses new ones and is left as it was |
| Interning.IdsKeepResolving | tracewasm-utils/src/interner.rs:131-166 | Over any sequence of requests, an id once issued resolves to its value ever after and stays below the capacity |
| Interning.IdsCanonical | tracewasm-utils/src/interner.rs:131-166 | Two answered requests have the same id if and only if they asked for the same value |
| Interning.RefusedIffNewAndFull | tracewasm-utils/src/interner.rs:131-166 | A request is refused if and only if its value is new and the pool full, and changes nothing; a repeat succeeds even on a full pool |
| Types.IdEqualityIsDeepEquality | tracewasm-llvm/src/value.rs:52-111 | In a pool built by interning, two type ids are equal if and only if the fully unfolded type trees are |
| Types.UnfoldStable | tracewasm-llvm/src/value.rs:52-111 | A type's unfolding never changes as the pool grows |
| Types.InternKeepsTypePool | tracewasm-utils/src/interner.rs:131-166 | Interning a type whose children exist keeps children older than parents |
| TypePrinting.Fmt | tracewasm-llvm/src/value.rs:314-375 | The recursive printer over a pool terminates and writes the text of the unfolded type |
| TypePrinting.ParsePrinted | tracewasm-llvm/src/value.rs:314-375 | A parser inverts the printer on every type |
| TypePrinting.TypeParses | tracewasm-llvm/src/value.rs:314-375 | It reads a printed type off the front of any text that may follow one |
| TypePrinting.PrintingIsInjective | tracewasm-llvm/src/value.rs:314-375 | Two ids that print alike are the same id |
| Constants.CastIsExact | tracewasm-llvm/src/value.rs:1164-1388 | A cast among i8, i16, i32 and i64 succeeds if and only if a reading was given and the number under it fits the target; the result has the target type and the same number under that reading |
| Constants.CastsCompose | tracewasm-llvm/src/value.rs:1164-1388 | After a successful cast, casting on gives exactly what casting directly gives |
| Constants.CastBack | tracewasm-llvm/src/value.rs:1164-1388 | Casting there and back is the identity |
| Constants.ReadingDetermines | tracewasm-llvm/src/value.rs:1164-1388 | A type and a number under a reading determine the constant |
| TypeContext.TryCastTwo | tracewasm-llvm/src/value.rs:682-715 | The method brings two operands to one type, interning the literals it casts |
| TypeContext.CastTwoSound | tracewasm-llvm/src/value.rs:639-715 | Both results have one type id; a literal's constant has the type its value claims and is the same number; non-literals come back unchanged; earlier constant ids still resolve, failures included |
| TypeContext.StructTy | tracewasm-llvm/src/cfg/context.rs:226-243 | Refuses the first field without a size and otherwise interns the struct, keeping aggregates sized |
| TypeContext.ArrayTy | tracewasm-llvm/src/cfg/context.rs:259-271 | Refuses an element without a size and otherwise interns the array, keeping aggregates sized |
| TypeContext.ShallowTestIsDeep | tracewasm-llvm/src/value.rs:148-152 | In a pool whose aggregates were built through those checks, the one-level size test holds if and only if the type is sized all the way down |
| TypeContext.WalkStaysSized | tracewasm-llvm/src/value.rs:231-300 | Every successful index walk from a sized type ends at a type sized all the way down |
| TypeContext.WalkInTurn | tracewasm-llvm/src/value.rs:231-300 | Walking a concatenated index list is walking its parts in turn, errors included |
| RegisterNames.FuncRegNameIndex.FreeCandidate | tracewasm-llvm/src/cfg/context.rs:391-420 | The retry loop ends, at the first suffix whose name was not issued, or at the counter's last value |
| RegisterNames.FuncRegNameIndex.NameFromHint | tracewasm-llvm/src/cfg/context.rs:391-420 | One request: numbered, refused as ill-formed, the hint itself, or the hint with a fresh suffix |
| RegisterNames.NamesAreUnique | tracewasm-llvm/src/cfg/context.rs:345-420 | Over any sequence of requests in one function no name is issued twice, whatever hints come before or after the suffixes they could collide with |
| RegisterNames.UnnamedAreConsecutive | tracewasm-llvm/src/cfg/context.rs:354-362 | Unnamed requests are answered 0, 1, 2 and so on, whatever named requests come between |
| RegisterNames.HintKeptIffFree | tracewasm-llvm/src/cfg/context.rs:391-420 | Over any sequence of requests, a legal hint is answered with the hint itself if and only if no earlier request was, under that hint or as a suffixed one |
| RegisterNames.FunctionsAreIndependent | tracewasm-llvm/src/cfg/context.rs:103-112 | The state of a function's names depends on that function's requests alone |
| RegisterNames.AheadShrinks | tracewasm-llvm/src/cfg/context.rs:391-420 | Each retry passes an issued name for good: the loop's measure |
| LinearMemory.MemoryIsByteMap | tracewasm-core/src/memory/linear.rs:58-186 | After any history of write, fill, copy and grow, the length is the page count and each byte is the last one stored at its address, or zero |
| LinearMemory.PagesStayUnderCap | tracewasm-core/src/memory/linear.rs:58-89 | The page count never shrinks and never passes the cap |
| LinearMemory.GrowAnswers | tracewasm-core/src/memory/linear.rs:58-89 | A grow is granted if and only if the sum of pages is within the cap, answers with the size before, and otherwise changes nothing |
| LinearMemory.LinearMemory.Grow | tracewasm-core/src/memory/linear.rs:58-89 | The method computes that answer and that memory, with its overflow checks |
| LinearMemory.LinearMemory.CopyWithin | tracewasm-core/src/memory/linear.rs:97-126 | Both ranges are checked, overflow included, before anything moves; overlapping ranges copy as if through a temporary |
| LinearMemory.LinearMemory.Fill | tracewasm-core/src/memory/mod.rs:65-102 | The chunked loop fills the whole range with the low byte, or fails before writing anything |
| LinearMemory.LinearMemory.ReadU32 | tracewasm-core/src/memory/linear.rs:241-261 | The specialised read is the little-endian number at the offset, or the bounds error, for every offset |
| LinearMemory.LinearMemory.ReadU64 | tracewasm-core/src/memory/linear.rs:263-283 | The same at eight bytes |
| LinearMemory.LinearMemory.DefaultSizedRead | tracewasm-core/src/memory/mod.rs:140-265 | The generic read through a buffer returns the same numbers and the same errors |
| LinearMemory.LinearMemory.SizedWrite | tracewasm-core/src/memory/mod.rs:154-265 | A sized write stores the number's little-endian bytes, or fails and stores nothing |
| LinearMemory.WriteThenRead | tracewasm-core/src/memory/mod.rs:140-265 | At each width, reading back what was written gives the number, and a read of bytes outside the write is unaffected |
| LinearMemory.LittleEndianRoundTrip | tracewasm-core/src/memory/mod.rs:140-265 | Encoding to little-endian and back is the identity |
| LinearMemory.BytesRoundTrip | tracewasm-core/src/memory/mod.rs:140-265 | Decoding and encoding again gives the same bytes |

## Left out

- StructuredBodyCorrect: `if` and `else`, `br_table` and `call_indirect` are not modelled; `return` is a branch to the function's label. For a whole body the condition is sufficient, and the check on the source is exact place by place: a body that branches outward may still be lowered rightly, if nothing reads the operand again.
- LowerSeq: follows the nesting of constructs, where the source keeps a stack of open labels and reads operators one by one; the pass over structured code is modelled on values.
- SpillsNeverLeak: is about straight-line bodies; StructuredSpillsNeverLeak has the rest.
- LoweredBodyCorrect: covers straight-line bodies, calls included, with no condition; StructuredBodyCorrect has the rest.
- LowerFunction: has the straight-line operators of the pass in place; labels, branches and hoisted spills are modelled on values (LowerSeq). It takes at most 65535 locals, which validation guarantees with its own lower limit; the source truncates a larger count.
- EmitInstructionsForFunc: has neither `if`, `else`, `br_table`, `call_indirect` nor `select`, like the other pass; `return` is a branch to the function's label. The highest height, which only sizes the buffer, and the conversion of heights to 32 bits are left out; a call's parameters and results are counted in the operator, not looked up.
- StackProgramRuns: the operators that only move values, and calls, keep their form in the instruction; the split of value operators into opcodes is not modelled on either machine.
- MachinesAgree: an error's trace names instructions of the machine it is from, so the theorem does not compare traces; each machine's own are described by NativeErrorTrace and FrameDriverInvariant.
- SimulatedStack: records operands in the instruction itself, where the source keeps them in a map keyed by instruction index until the end of the body; the instruction list is a field of the class.
- NativeCall: is limited by a bound on instructions, because a program may diverge.
- CallImportedRegister: models the host as a function of its arguments and the instance memory; the conversion of a host error into a trap is a flag.
- CastIsExact: leaves out `i1`, whose casts the source sends through the rules of `i8`, and floats.
- TryCast: float casts are a parameter; no float arithmetic is modelled.
- WalkStaysSized: reads constant indices as the source does, at 32 bits, so it says nothing about larger ones.
- NameFromHint: reports the overflow of a 32-bit name counter as an outcome, where the source would panic or wrap.
- TryIntern: the capacity is a parameter; the 32-bit count inside the error is not kept.
- Fill: models a 64-bit address space, as do all bounds checks; 32-bit hosts are not covered.
- ReadU32: floats are read as their bit patterns.
- `Value::from_const` and `ConstValue::new`: conversions without state.
- `Module::compile` and `Module::instantiate`: decoding and one-line guards.
- Emission of IR text and the builder's guard checks: string assembly.
- DWARF resolution, demangling and the rendering of traces: foreign libraries and text formatting.
- The arenas of lowered operands: append and index only.
- Capacity and reallocation of vectors, and the unsafe or inlined fast paths that have no effect on values.
