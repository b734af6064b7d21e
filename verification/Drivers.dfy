/**
 The two interpreter drivers of `tracewasm-core/src/runtime/mod.rs`, generic over the machine.

 A machine is an arbitrary deterministic `execute` together with the frame store's
 `enter_frame` and `exit_frame`; a driver owns only the program counter, the call stack and
 the backtrace.  `NativeCall`/`NativeLoop` give the meaning of the recursive driver and
 `FrameStep`/`FrameRun` that of the driver with an explicit `Vec<Frame>`; the methods of
 module `DriverLoops` are the source's loops, proved against them.

 Wasm programs may diverge, so both meanings take a number of instructions they may execute
 and report `OutOfFuel` past it.  An out-of-range index, which the source turns into a
 panic, is the outcome `Panicked`.
 */
module Drivers {
  import opened Values

  datatype ExecError = CallStackExhausted(maxDepth: nat) | Fault(code: int)

  /** What the instruction sets of the two machines report where the source panics: an index out of range. */
  const PANIC := Fault(1)

  /** What an instruction tells its driver to do next. */
  datatype Step<+B> = Next | JumpTo(target: nat) | Call(callee: nat, base: B, table: Option<nat>)

  datatype Exec<+B, +S> = Ok(step: Step<B>, store: S) | Trap(err: ExecError, store: S)

  type Instr = int

  datatype FuncType = FuncType(params: seq<ValType>, results: seq<ValType>)

  datatype Body<+L> = Body(instructions: seq<Instr>, offsets: seq<nat>, locals: seq<ValType>, layout: L)

  /** Signatures are indexed by function index, bodies only by locally defined functions. */
  datatype Program<+L> = Program(importedCount: nat, signatures: seq<FuncType>, bodies: seq<Body<L>>)

  datatype Machine<!L, !B, !S> = Machine(
    execute: (Instr, L, B, S) -> Exec<B, S>,
    enter: (nat, seq<ValType>, B, L, S) -> (B, S),
    exit: (nat, B, L, S) -> S)

  datatype Env<!L, !B, !S> = Env(program: Program<L>, machine: Machine<L, B, S>, maxDepth: nat)

  /** Lowering emits one source offset per instruction. */
  ghost predicate OffsetsParallel<L>(p: Program<L>) {
    forall i :: 0 <= i < |p.bodies| ==> |p.bodies[i].offsets| == |p.bodies[i].instructions|
  }

  predicate IsLocal<L>(p: Program<L>, f: nat) {
    p.importedCount <= f < |p.signatures| && f - p.importedCount < |p.bodies|
  }

  function BodyOf<L>(p: Program<L>, f: nat): Body<L>
    requires IsLocal(p, f)
  {
    p.bodies[f - p.importedCount]
  }

  function ResultCount<L>(p: Program<L>, f: nat): nat
    requires IsLocal(p, f)
  {
    |p.signatures[f].results|
  }

  // ------------------------------------------------------------------ traces

  datatype RecordKind = CallRecord(callee: nat, table: Option<nat>) | NonCall(err: ExecError)

  datatype TraceRecord = TraceRecord(func: nat, instrIndex: nat, kind: RecordKind, offset: nat)

  /** `trap_here`: seeds a trace at the instruction that trapped. */
  function TrapHere(f: nat, pc: nat, offsets: seq<nat>, err: ExecError): (trace: seq<TraceRecord>)
    requires pc < |offsets|
  {
    [TraceRecord(f, pc, NonCall(err), offsets[pc])]
  }

  /** What `FuncCallError::new` demands of a trace, and what a reader of a backtrace relies on. */
  ghost predicate LinkedTrace(trace: seq<TraceRecord>, entry: nat) {
    && 0 < |trace|
    && trace[0].kind.NonCall?
    && trace[|trace| - 1].func == entry
    && forall i :: 1 <= i < |trace| ==> trace[i].kind.CallRecord? && trace[i].kind.callee == trace[i - 1].func
  }

  // ------------------------------------------------------------------ the recursive driver

  datatype Native<+S> =
    | Returned(store: S, depth: nat)
    | Unwound(trace: seq<TraceRecord>, store: S, depth: nat)
    | Panicked(store: S)
    | OutOfFuel

  /**
   `execute_on_native_stack` from its first line: enters the frame, counts it, and runs its
   loop.  The result carries the depth counter, which the source threads by reference.
   */
  ghost function NativeCall<L, B, S>(e: Env<L, B, S>, fuel: nat, f: nat, base: B, store: S, depth: nat): (r: Native<S>)
    requires OffsetsParallel(e.program)
    ensures r.Returned? ==> r.depth == depth
    decreases fuel, 2
  {
    if !IsLocal(e.program, f) then Panicked(store) else
    var body := BodyOf(e.program, f);
    var (b, s) := e.machine.enter(|e.program.signatures[f].params|, body.locals, base, body.layout, store);
    NativeLoop(e, fuel, f, 0, b, s, depth + 1)
  }

  /** One iteration of the recursive driver's loop, and the rest of them. */
  ghost function NativeLoop<L, B, S>(e: Env<L, B, S>, fuel: nat, f: nat, pc: nat, base: B, store: S,
    depth: nat): (r: Native<S>)
    requires OffsetsParallel(e.program) && IsLocal(e.program, f) && 1 <= depth
    ensures r.Returned? ==> r.depth == depth - 1
    decreases fuel, 0
  {
    var body := BodyOf(e.program, f);
    if fuel == 0 then OutOfFuel
    else if |body.instructions| <= pc then Panicked(store)
    else match e.machine.execute(body.instructions[pc], body.layout, base, store)
      case Trap(err, s) => Unwound(TrapHere(f, pc, body.offsets, err), s, depth)
      case Ok(Next, s) => NativeAdvance(e, fuel - 1, f, pc + 1, base, s, depth)
      case Ok(JumpTo(t), s) => NativeAdvance(e, fuel - 1, f, t, base, s, depth)
      case Ok(Call(g, gBase, table), s) =>
        if e.maxDepth <= depth then
          Unwound(TrapHere(f, pc, body.offsets, CallStackExhausted(e.maxDepth)), s, depth)
        else
          match NativeCall(e, fuel - 1, g, gBase, s, depth)
          case Returned(s', d) => NativeAdvance(e, fuel - 1, f, pc + 1, base, s', d)
          case Unwound(trace, s', d) =>
            Unwound(trace + [TraceRecord(f, pc, CallRecord(g, table), body.offsets[pc])], s', d)
          case Panicked(s') => Panicked(s')
          case OutOfFuel => OutOfFuel
  }

  /** The check at the foot of the loop: one past the last instruction ends the frame. */
  ghost function NativeAdvance<L, B, S>(e: Env<L, B, S>, fuel: nat, f: nat, pc: nat, base: B, store: S,
    depth: nat): (r: Native<S>)
    requires OffsetsParallel(e.program) && IsLocal(e.program, f) && 1 <= depth
    ensures r.Returned? ==> r.depth == depth - 1
    decreases fuel, 1
  {
    var body := BodyOf(e.program, f);
    if pc == |body.instructions| then
      Returned(e.machine.exit(ResultCount(e.program, f), base, body.layout, store), depth - 1)
    else
      NativeLoop(e, fuel, f, pc, base, store, depth)
  }

  // ------------------------------------------------------------------ the explicit-frame driver

  /** A caller suspended at a call. */
  datatype Frame<+L, +B> = Frame(
    func: nat, instructions: seq<Instr>, pc: nat, base: B, layout: L, offsets: seq<nat>,
    calleeResults: nat, callee: nat, calleeTable: Option<nat>)

  /** The driver's local variables between two iterations, and the store it mutates. */
  datatype Config<+L, +B, +S> = Config(
    frames: seq<Frame<L, B>>, func: nat, instructions: seq<Instr>, pc: nat, base: B, layout: L,
    offsets: seq<nat>, store: S)

  datatype Run<+L, +B, +S> =
    | Running(config: Config<L, B, S>)
    | Finished(store: S)
    | Failed(trace: seq<TraceRecord>, store: S)
    | Crashed(store: S)

  ghost predicate FramesParallel<L, B>(frames: seq<Frame<L, B>>) {
    forall i :: 0 <= i < |frames| ==> frames[i].pc < |frames[i].offsets| == |frames[i].instructions|
  }

  /** The records `func_call_err` appends for the suspended callers, innermost first. */
  function CallerRecords<L, B>(frames: seq<Frame<L, B>>): (trace: seq<TraceRecord>)
    requires FramesParallel(frames)
    ensures |trace| == |frames|
    ensures forall i :: 0 <= i < |frames| ==>
      var frame := frames[|frames| - 1 - i];
      trace[i] == TraceRecord(frame.func, frame.pc, CallRecord(frame.callee, frame.calleeTable),
        frame.offsets[frame.pc])
  {
    if frames == [] then []
    else
      var frame := frames[|frames| - 1];
      [TraceRecord(frame.func, frame.pc, CallRecord(frame.callee, frame.calleeTable), frame.offsets[frame.pc])]
      + CallerRecords(frames[..|frames| - 1])
  }

  /** `func_call_err`: the trapping function is the callee of the last saved frame. */
  function FrameTrace<L, B>(entry: nat, frames: seq<Frame<L, B>>, err: ExecError, pc: nat,
    offset: nat): seq<TraceRecord>
    requires FramesParallel(frames)
  {
    [TraceRecord(if frames == [] then entry else frames[|frames| - 1].callee, pc, NonCall(err), offset)]
    + CallerRecords(frames)
  }

  ghost predicate ConfigParallel<L, B, S>(c: Config<L, B, S>) {
    FramesParallel(c.frames) && |c.offsets| == |c.instructions|
  }

  /** The state in which the explicit driver runs the first instruction of `f`. */
  function EnterConfig<L, B, S>(e: Env<L, B, S>, frames: seq<Frame<L, B>>, f: nat, base: B, store: S): Config<L, B, S>
    requires IsLocal(e.program, f)
  {
    var body := BodyOf(e.program, f);
    var (b, s) := e.machine.enter(|e.program.signatures[f].params|, body.locals, base, body.layout, store);
    Config(frames, f, body.instructions, 0, b, body.layout, body.offsets, s)
  }

  /** The foot of the explicit driver's loop: pops at most one frame. */
  function FrameAdvance<L, B, S>(e: Env<L, B, S>, entryResults: nat, c: Config<L, B, S>): Run<L, B, S> {
    if c.pc != |c.instructions| then Running(c)
    else if c.frames == [] then Finished(e.machine.exit(entryResults, c.base, c.layout, c.store))
    else
      var frame := c.frames[|c.frames| - 1];
      Running(Config(c.frames[..|c.frames| - 1], frame.func, frame.instructions, frame.pc + 1, frame.base,
                     frame.layout, frame.offsets,
                     e.machine.exit(frame.calleeResults, c.base, c.layout, c.store)))
  }

  /** One iteration of the explicit driver's loop. */
  function FrameStep<L, B, S>(e: Env<L, B, S>, entry: nat, entryResults: nat, c: Config<L, B, S>): Run<L, B, S>
    requires ConfigParallel(c)
  {
    if |c.instructions| <= c.pc then Crashed(c.store)
    else match e.machine.execute(c.instructions[c.pc], c.layout, c.base, c.store)
      case Trap(err, s) => Failed(FrameTrace(entry, c.frames, err, c.pc, c.offsets[c.pc]), s)
      case Ok(Next, s) => FrameAdvance(e, entryResults, c.(pc := c.pc + 1, store := s))
      case Ok(JumpTo(t), s) => FrameAdvance(e, entryResults, c.(pc := t, store := s))
      case Ok(Call(g, gBase, table), s) =>
        if e.maxDepth <= |c.frames| + 1 then
          Failed(FrameTrace(entry, c.frames, CallStackExhausted(e.maxDepth), c.pc, c.offsets[c.pc]), s)
        else if !IsLocal(e.program, g) then Crashed(s)
        else
          var frame := Frame(c.func, c.instructions, c.pc, c.base, c.layout, c.offsets,
                             ResultCount(e.program, g), g, table);
          Running(EnterConfig(e, c.frames + [frame], g, gBase, s))
  }

  lemma StepKeepsParallel<L, B, S>(e: Env<L, B, S>, entry: nat, entryResults: nat, c: Config<L, B, S>)
    requires OffsetsParallel(e.program) && ConfigParallel(c)
    ensures FrameStep(e, entry, entryResults, c).Running? ==>
      ConfigParallel(FrameStep(e, entry, entryResults, c).config)
  {
  }

  /** Up to `n` iterations. */
  ghost function FrameRun<L, B, S>(e: Env<L, B, S>, entry: nat, entryResults: nat, n: nat,
    c: Config<L, B, S>): (r: Run<L, B, S>)
    requires OffsetsParallel(e.program) && ConfigParallel(c)
    ensures r.Running? ==> ConfigParallel(r.config)
    decreases n, 0
  {
    if n == 0 then Running(c)
    else
      StepKeepsParallel(e, entry, entryResults, c);
      RunOn(e, entry, entryResults, n - 1, FrameStep(e, entry, entryResults, c))
  }

  /** Continues a run that may already have stopped. */
  ghost function RunOn<L, B, S>(e: Env<L, B, S>, entry: nat, entryResults: nat, n: nat,
    r: Run<L, B, S>): (r': Run<L, B, S>)
    requires OffsetsParallel(e.program) && (r.Running? ==> ConfigParallel(r.config))
    ensures r'.Running? ==> ConfigParallel(r'.config)
    decreases n, 1
  {
    if r.Running? then FrameRun(e, entry, entryResults, n, r.config) else r
  }

  /** `_execute_on_frame_stack` from its first line, limited to `n` iterations. */
  ghost function FrameDriver<L, B, S>(e: Env<L, B, S>, n: nat, f: nat, base: B, store: S): (r: Run<L, B, S>)
    requires OffsetsParallel(e.program)
  {
    if !IsLocal(e.program, f) then Crashed(store)
    else FrameRun(e, f, ResultCount(e.program, f), n, EnterConfig(e, [], f, base, store))
  }
}
