/**
 The loops of `tracewasm-core/src/runtime/mod.rs`, in place on an instance, each proved to
 compute the driver meaning of module `Drivers`.
 */
module DriverLoops {
  import opened Drivers

  /** The mutable half of an execution: the frame store and everything else an instruction may touch. */
  class Instance<S> {
    var store: S

    constructor (s: S)
      ensures store == s
    {
      store := s;
    }
  }

  /** What a driver returns; `Exhausted` stands for a run longer than its fuel. */
  datatype Verdict = Success | Unwind(trace: seq<TraceRecord>) | Panic | Exhausted

  function AsNative<S>(v: Verdict, store: S, depth: nat): Native<S> {
    match v
    case Success => Returned(store, depth)
    case Unwind(trace) => Unwound(trace, store, depth)
    case Panic => Panicked(store)
    case Exhausted => OutOfFuel
  }

  /** `execute_on_native_stack`: `depth` is the counter the source threads by reference. */
  method ExecuteOnNativeStack<L, B, S>(e: Env<L, B, S>, instance: Instance<S>, fuel: nat, f: nat, callerBase: B,
    depth: nat)
    returns (verdict: Verdict, depth': nat)
    requires OffsetsParallel(e.program)
    modifies instance
    ensures AsNative(verdict, instance.store, depth') == NativeCall(e, fuel, f, callerBase, old(instance.store), depth)
    decreases fuel
  {
    ghost var goal := NativeCall(e, fuel, f, callerBase, instance.store, depth);
    if !IsLocal(e.program, f) {
      return Panic, depth;
    }
    var body := BodyOf(e.program, f);
    var (base, entered) := e.machine.enter(|e.program.signatures[f].params|, body.locals, callerBase, body.layout,
      instance.store);
    instance.store := entered;
    depth' := depth + 1;
    var pc: nat := 0;
    var gas: nat := fuel;
    while true
      invariant gas <= fuel && depth' == depth + 1
      invariant NativeLoop(e, gas, f, pc, base, instance.store, depth') == goal
      decreases gas
    {
      if gas == 0 {
        return Exhausted, depth';
      }
      if |body.instructions| <= pc {
        return Panic, depth';
      }
      match e.machine.execute(body.instructions[pc], body.layout, base, instance.store) {
        case Trap(err, s) =>
          instance.store := s;
          return Unwind(TrapHere(f, pc, body.offsets, err)), depth';
        case Ok(Next, s) =>
          instance.store := s;
          pc := pc + 1;
        case Ok(JumpTo(target), s) =>
          instance.store := s;
          pc := target;
        case Ok(Call(callee, calleeBase, table), s) =>
          instance.store := s;
          if e.maxDepth <= depth' {
            return Unwind(TrapHere(f, pc, body.offsets, CallStackExhausted(e.maxDepth))), depth';
          }
          var inner;
          inner, depth' := ExecuteOnNativeStack(e, instance, gas - 1, callee, calleeBase, depth');
          match inner {
            case Success =>
              pc := pc + 1;
            case Unwind(trace) =>
              return Unwind(trace + [TraceRecord(f, pc, CallRecord(callee, table), body.offsets[pc])]), depth';
            case Panic =>
              return Panic, depth';
            case Exhausted =>
              return Exhausted, depth';
          }
      }
      gas := gas - 1;
      if pc == |body.instructions| {
        break;
      }
    }
    depth' := depth' - 1;
    instance.store := e.machine.exit(ResultCount(e.program, f), base, body.layout, instance.store);
    verdict := Success;
  }

  /** `func_call_err`: rebuilds the trace from the saved frames in one pass. */
  method FuncCallErr<L, B>(entry: nat, frames: seq<Frame<L, B>>, err: ExecError, pc: nat, offset: nat)
    returns (trace: seq<TraceRecord>)
    requires FramesParallel(frames)
    ensures trace == FrameTrace(entry, frames, err, pc, offset)
  {
    var func := if frames == [] then entry else frames[|frames| - 1].callee;
    trace := [TraceRecord(func, pc, NonCall(err), offset)];
    for i := 0 to |frames|
      invariant trace == FrameTrace(entry, frames, err, pc, offset)[..i + 1]
    {
      var frame := frames[|frames| - 1 - i];
      trace := trace + [TraceRecord(frame.func, frame.pc, CallRecord(frame.callee, frame.calleeTable),
        frame.offsets[frame.pc])];
    }
  }

  function AsRun<L, B, S>(v: Verdict, store: S): Run<L, B, S>
    requires v != Exhausted
  {
    match v
    case Success => Finished(store)
    case Unwind(trace) => Failed(trace, store)
    case Panic => Crashed(store)
  }

  /** `_execute_on_frame_stack`: the same interpreter with its call stack in a sequence. */
  method ExecuteOnFrameStack<L, B, S>(e: Env<L, B, S>, instance: Instance<S>, fuel: nat, entry: nat, initialBase: B)
    returns (verdict: Verdict)
    requires OffsetsParallel(e.program)
    modifies instance
    ensures var run := FrameDriver(e, fuel, entry, initialBase, old(instance.store));
      if verdict == Exhausted then run.Running? && run.config.store == instance.store
      else run == AsRun(verdict, instance.store)
  {
    hide FrameTrace, CallerRecords;
    ghost var goal := FrameDriver(e, fuel, entry, initialBase, instance.store);
    if !IsLocal(e.program, entry) {
      return Panic;
    }
    var results := ResultCount(e.program, entry);
    var c := EnterConfig(e, [], entry, initialBase, instance.store);
    var frames, func, instructions, pc: nat := c.frames, c.func, c.instructions, c.pc;
    var base, layout, offsets := c.base, c.layout, c.offsets;
    instance.store := c.store;
    var gas: nat := fuel;
    while true
      invariant ConfigParallel(Config(frames, func, instructions, pc, base, layout, offsets, instance.store))
      invariant FrameRun(e, entry, results, gas, Config(frames, func, instructions, pc, base, layout, offsets,
        instance.store)) == goal
      decreases gas
    {
      ghost var before := Config(frames, func, instructions, pc, base, layout, offsets, instance.store);
      if gas == 0 {
        return Exhausted;
      }
      StepKeepsParallel(e, entry, results, before);
      if |instructions| <= pc {
        return Panic;
      }
      match e.machine.execute(instructions[pc], layout, base, instance.store) {
        case Trap(err, s) =>
          instance.store := s;
          var trace := FuncCallErr(entry, frames, err, pc, offsets[pc]);
          return Unwind(trace);
        case Ok(Next, s) =>
          instance.store := s;
          pc := pc + 1;
        case Ok(JumpTo(target), s) =>
          instance.store := s;
          pc := target;
        case Ok(Call(callee, calleeBase, table), s) =>
          instance.store := s;
          if e.maxDepth <= |frames| + 1 {
            var trace := FuncCallErr(entry, frames, CallStackExhausted(e.maxDepth), pc, offsets[pc]);
            return Unwind(trace);
          }
          if !IsLocal(e.program, callee) {
            return Panic;
          }
          frames := frames + [Frame(func, instructions, pc, base, layout, offsets, ResultCount(e.program, callee),
            callee, table)];
          var body := BodyOf(e.program, callee);
          func, instructions, pc := callee, body.instructions, 0;
          layout, offsets := body.layout, body.offsets;
          var (b, entered) := e.machine.enter(|e.program.signatures[callee].params|, body.locals, calleeBase, layout,
            instance.store);
          base := b;
          instance.store := entered;
          gas := gas - 1;
          continue;
      }
      if pc == |instructions| {
        if frames == [] {
          break;
        }
        var frame := frames[|frames| - 1];
        frames := frames[..|frames| - 1];
        instance.store := e.machine.exit(frame.calleeResults, base, layout, instance.store);
        func, instructions, pc := frame.func, frame.instructions, frame.pc + 1;
        base, layout, offsets := frame.base, frame.layout, frame.offsets;
      }
      gas := gas - 1;
    }
    instance.store := e.machine.exit(results, base, layout, instance.store);
    verdict := Success;
  }
}
