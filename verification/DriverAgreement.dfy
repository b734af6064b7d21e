/**
 The recursive driver and the explicit-frame driver are interchangeable: they finish on the
 same inputs, with the same store, and fail with the same backtrace.
 */
module DriverAgreement {
  import opened Values
  import opened Drivers

  predicate ReportsCall<B, S>(x: Exec<B, S>) {
    x.Ok? && x.step.Call?
  }

  /** What the last instruction of a body does in a frame based at `b`. */
  function LastExec<L, B, S>(m: Machine<L, B, S>, body: Body<L>, b: B, s: S): Exec<B, S>
    requires body.instructions != []
  {
    m.execute(body.instructions[|body.instructions| - 1], body.layout, b, s)
  }

  /**
   Every body ends in an instruction that never calls; lowering closes each body with `End`.
   The explicit driver needs it, because it tests for the end of a body only once per
   iteration and so never re-tests after a return.
   */
  ghost predicate NeverCallsLast<L, B(!new), S(!new)>(e: Env<L, B, S>) {
    forall i, b, s :: 0 <= i < |e.program.bodies| && e.program.bodies[i].instructions != [] ==>
      !ReportsCall(LastExec(e.machine, e.program.bodies[i], b, s))
  }

  function ConfigAt<L, B, S>(
    e: Env<L, B, S>, frames: seq<Frame<L, B>>, f: nat, pc: nat, base: B, store: S): Config<L, B, S>
    requires IsLocal(e.program, f)
  {
    var body := BodyOf(e.program, f);
    Config(frames, f, body.instructions, pc, base, body.layout, body.offsets, store)
  }

  /** `frames` is a call stack on top of which `f` may be running. */
  ghost predicate Awaits<L, B, S>(e: Env<L, B, S>, entry: nat, frames: seq<Frame<L, B>>, f: nat) {
    && IsLocal(e.program, entry) && IsLocal(e.program, f)
    && FramesParallel(frames)
    && if frames == [] then f == entry
       else frames[|frames| - 1].callee == f && frames[|frames| - 1].calleeResults == ResultCount(e.program, f)
  }

  /** Where the explicit driver stands once the running function has returned `store`. */
  function AfterReturn<L, B, S>(frames: seq<Frame<L, B>>, store: S): Run<L, B, S> {
    if frames == [] then Finished(store)
    else
      var frame := frames[|frames| - 1];
      Running(Config(frames[..|frames| - 1], frame.func, frame.instructions, frame.pc + 1, frame.base,
                     frame.layout, frame.offsets, store))
  }

  /** `n` iterations on top of `frames` match a recursive execution that had `fuel`. */
  ghost predicate Simulated<L, B, S>(r: Native<S>, fuel: nat, frames: seq<Frame<L, B>>, n: nat, run: Run<L, B, S>)
    requires FramesParallel(frames)
  {
    match r
    case Returned(s, _) => run == AfterReturn(frames, s)
    case Unwound(trace, s, _) => run == Failed(trace + CallerRecords(frames), s)
    case Panicked(s) => run == Crashed(s)
    case OutOfFuel => run.Running? && fuel <= n
  }

  lemma {:induction false} RunSplit<L, B, S>(e: Env<L, B, S>, entry: nat, results: nat, m: nat, n: nat,
    c: Config<L, B, S>)
    requires OffsetsParallel(e.program) && ConfigParallel(c)
    ensures FrameRun(e, entry, results, m + n, c)
         == RunOn(e, entry, results, n, FrameRun(e, entry, results, m, c))
  {
    if m != 0 {
      StepKeepsParallel(e, entry, results, c);
      var r := FrameStep(e, entry, results, c);
      if r.Running? {
        RunSplit(e, entry, results, m - 1, n, r.config);
      }
    }
  }

  lemma OneMore<L, B, S>(e: Env<L, B, S>, entry: nat, results: nat, n: nat, c: Config<L, B, S>)
    requires OffsetsParallel(e.program) && ConfigParallel(c)
    ensures var r := FrameStep(e, entry, results, c);
      && (r.Running? ==> ConfigParallel(r.config))
      && FrameRun(e, entry, results, n + 1, c) == RunOn(e, entry, results, n, r)
  {
    StepKeepsParallel(e, entry, results, c);
  }

  /** The explicit driver's trace at a trap is the recursive driver's seed plus the suspended callers. */
  lemma TrapTrace<L, B>(entry: nat, frames: seq<Frame<L, B>>, f: nat, pc: nat, offsets: seq<nat>, err: ExecError)
    requires FramesParallel(frames) && pc < |offsets|
    requires if frames == [] then f == entry else frames[|frames| - 1].callee == f
    ensures FrameTrace(entry, frames, err, pc, offsets[pc]) == TrapHere(f, pc, offsets, err) + CallerRecords(frames)
  {
  }

  /** The simulation, for the foot of the loop. */
  lemma {:induction false} SimulateAdvance<L, B(!new), S(!new)>(
    e: Env<L, B, S>, entry: nat, fuel: nat, f: nat, pc: nat, base: B, store: S, frames: seq<Frame<L, B>>)
    returns (n: nat)
    requires OffsetsParallel(e.program) && NeverCallsLast(e) && Awaits(e, entry, frames, f)
    ensures var results := ResultCount(e.program, entry);
      Simulated(NativeAdvance(e, fuel, f, pc, base, store, |frames| + 1), fuel, frames, n,
                RunOn(e, entry, results, n, FrameAdvance(e, results, ConfigAt(e, frames, f, pc, base, store))))
    decreases fuel, 1
  {
    if pc == |BodyOf(e.program, f).instructions| {
      n := 0;
    } else {
      n := SimulateLoop(e, entry, fuel, f, pc, base, store, frames);
    }
  }

  /** The simulation: a recursive activation, as iterations of the explicit driver. */
  lemma {:induction false} SimulateLoop<L, B(!new), S(!new)>(
    e: Env<L, B, S>, entry: nat, fuel: nat, f: nat, pc: nat, base: B, store: S, frames: seq<Frame<L, B>>)
    returns (n: nat)
    requires OffsetsParallel(e.program) && NeverCallsLast(e) && Awaits(e, entry, frames, f)
    ensures
      Simulated(NativeLoop(e, fuel, f, pc, base, store, |frames| + 1), fuel, frames, n,
                FrameRun(e, entry, ResultCount(e.program, entry), n, ConfigAt(e, frames, f, pc, base, store)))
    decreases fuel, 0
  {
    var body := BodyOf(e.program, f);
    var c := ConfigAt(e, frames, f, pc, base, store);
    var results := ResultCount(e.program, entry);
    if fuel == 0 {
      n := 0;
    } else if |body.instructions| <= pc {
      n := 1;
      OneMore(e, entry, results, 0, c);
    } else {
      match e.machine.execute(body.instructions[pc], body.layout, base, store)
      case Trap(err, s) =>
        n := 1;
        OneMore(e, entry, results, 0, c);
        TrapTrace(entry, frames, f, pc, body.offsets, err);
      case Ok(Next, s) =>
        n := SimulateAdvance(e, entry, fuel - 1, f, pc + 1, base, s, frames);
        OneMore(e, entry, results, n, c);
        n := n + 1;
      case Ok(JumpTo(t), s) =>
        n := SimulateAdvance(e, entry, fuel - 1, f, t, base, s, frames);
        OneMore(e, entry, results, n, c);
        n := n + 1;
      case Ok(Call(g, gBase, table), s) =>
        if e.maxDepth <= |frames| + 1 || !IsLocal(e.program, g) {
          n := 1;
          OneMore(e, entry, results, 0, c);
          TrapTrace(entry, frames, f, pc, body.offsets, CallStackExhausted(e.maxDepth));
          assert !IsLocal(e.program, g) ==> NativeCall(e, fuel - 1, g, gBase, s, |frames| + 1) == Panicked(s);
        } else {
          n := SimulateCall(e, entry, fuel, f, pc, base, store, frames, g, gBase, table, s);
        }
    }
  }

  /** The frame a caller saves when it calls `g` from instruction `pc`. */
  function SavedFrame<L, B, S>(e: Env<L, B, S>, f: nat, pc: nat, base: B, g: nat, table: Option<nat>): Frame<L, B>
    requires IsLocal(e.program, f) && IsLocal(e.program, g)
  {
    var body := BodyOf(e.program, f);
    Frame(f, body.instructions, pc, base, body.layout, body.offsets, ResultCount(e.program, g), g, table)
  }

  /** The instruction at `pc` of `f` calls the local function `g` within the depth limit. */
  ghost predicate EntersCallee<L, B, S>(
    e: Env<L, B, S>, f: nat, pc: nat, base: B, store: S, depth: nat, g: nat, gBase: B, table: Option<nat>, s: S)
  {
    && IsLocal(e.program, f) && pc < |BodyOf(e.program, f).instructions|
    && var body := BodyOf(e.program, f);
      && e.machine.execute(body.instructions[pc], body.layout, base, store) == Ok(Call(g, gBase, table), s)
      && depth < e.maxDepth && IsLocal(e.program, g)
  }

  /** Entering a callee is one iteration of the explicit driver. */
  lemma StepEntersCallee<L, B, S>(
    e: Env<L, B, S>, entry: nat, f: nat, pc: nat, base: B, store: S, frames: seq<Frame<L, B>>,
    g: nat, gBase: B, table: Option<nat>, s: S, m: nat)
    requires OffsetsParallel(e.program) && Awaits(e, entry, frames, f)
    requires EntersCallee(e, f, pc, base, store, |frames| + 1, g, gBase, table, s)
    ensures var results := ResultCount(e.program, entry);
      var frames' := frames + [SavedFrame(e, f, pc, base, g, table)];
      var entered := EnterConfig(e, frames', g, gBase, s);
      && Awaits(e, entry, frames', g)
      && ConfigAt(e, frames', g, 0, entered.base, entered.store) == entered
      && ConfigParallel(entered)
      && FrameRun(e, entry, results, 1 + m, ConfigAt(e, frames, f, pc, base, store))
          == FrameRun(e, entry, results, m, entered)
  {
    OneMore(e, entry, ResultCount(e.program, entry), m, ConfigAt(e, frames, f, pc, base, store));
  }

  /** A callee that does not return ends its caller too; the trace gains the caller's record. */
  lemma CalleeEndsCaller<L, B, S>(
    e: Env<L, B, S>, fuel: nat, f: nat, pc: nat, base: B, store: S, frames: seq<Frame<L, B>>,
    g: nat, gBase: B, table: Option<nat>, s: S, m: nat, run: Run<L, B, S>)
    requires OffsetsParallel(e.program) && FramesParallel(frames) && 0 < fuel
    requires EntersCallee(e, f, pc, base, store, |frames| + 1, g, gBase, table, s)
    requires var r := NativeCall(e, fuel - 1, g, gBase, s, |frames| + 1);
      var frames' := frames + [SavedFrame(e, f, pc, base, g, table)];
      !r.Returned? && Simulated(r, fuel - 1, frames', m, run)
    ensures Simulated(NativeLoop(e, fuel, f, pc, base, store, |frames| + 1), fuel, frames, 1 + m, run)
  {
    var r := NativeCall(e, fuel - 1, g, gBase, s, |frames| + 1);
    var saved := SavedFrame(e, f, pc, base, g, table);
    if r.Unwound? {
      assert (frames + [saved])[..|frames|] == frames;
      assert r.trace + CallerRecords(frames + [saved])
          == r.trace + [TraceRecord(f, pc, CallRecord(g, table), saved.offsets[pc])] + CallerRecords(frames);
    }
  }

  /** The simulation of a call: the callee's own run, and then the caller's. */
  lemma {:induction false} SimulateCall<L, B(!new), S(!new)>(
    e: Env<L, B, S>, entry: nat, fuel: nat, f: nat, pc: nat, base: B, store: S, frames: seq<Frame<L, B>>,
    g: nat, gBase: B, table: Option<nat>, s: S)
    returns (n: nat)
    requires OffsetsParallel(e.program) && NeverCallsLast(e) && Awaits(e, entry, frames, f) && 0 < fuel
    requires EntersCallee(e, f, pc, base, store, |frames| + 1, g, gBase, table, s)
    ensures
      Simulated(NativeLoop(e, fuel, f, pc, base, store, |frames| + 1), fuel, frames, n,
                FrameRun(e, entry, ResultCount(e.program, entry), n, ConfigAt(e, frames, f, pc, base, store)))
    decreases fuel - 1, 2
  {
    var body := BodyOf(e.program, f);
    var results := ResultCount(e.program, entry);
    var c := ConfigAt(e, frames, f, pc, base, store);
    var frames' := frames + [SavedFrame(e, f, pc, base, g, table)];
    var entered := EnterConfig(e, frames', g, gBase, s);
    StepEntersCallee(e, entry, f, pc, base, store, frames, g, gBase, table, s, 0);
    var m := SimulateLoop(e, entry, fuel - 1, g, 0, entered.base, entered.store, frames');
    StepEntersCallee(e, entry, f, pc, base, store, frames, g, gBase, table, s, m);
    var r := NativeCall(e, fuel - 1, g, gBase, s, |frames| + 1);
    assert r == NativeLoop(e, fuel - 1, g, 0, entered.base, entered.store, |frames'| + 1);
    if r.Returned? {
      assert frames'[..|frames|] == frames;
      assert AfterReturn(frames', r.store) == Running(ConfigAt(e, frames, f, pc + 1, base, r.store));
      var k := SimulateLoop(e, entry, fuel - 1, f, pc + 1, base, r.store, frames);
      RunSplit(e, entry, results, 1 + m, k, c);
      n := 1 + m + k;
      ResumesInLoop(e, fuel, f, pc, base, store, |frames| + 1, g, gBase, table, s);
    } else {
      n := 1 + m;
      CalleeEndsCaller(e, fuel, f, pc, base, store, frames, g, gBase, table, s, m,
                       FrameRun(e, entry, results, m, entered));
    }
  }

  /** A call is never the last instruction, so its caller goes on executing. */
  lemma ResumesInLoop<L, B(!new), S(!new)>(
    e: Env<L, B, S>, fuel: nat, f: nat, pc: nat, base: B, store: S, depth: nat, g: nat, gBase: B, table: Option<nat>,
    s: S)
    requires OffsetsParallel(e.program) && NeverCallsLast(e) && 0 < fuel && 1 <= depth
    requires EntersCallee(e, f, pc, base, store, depth, g, gBase, table, s)
    requires NativeCall(e, fuel - 1, g, gBase, s, depth).Returned?
    ensures NativeLoop(e, fuel, f, pc, base, store, depth)
         == NativeLoop(e, fuel - 1, f, pc + 1, base, NativeCall(e, fuel - 1, g, gBase, s, depth).store, depth)
  {
    var body := BodyOf(e.program, f);
    assert pc + 1 == |body.instructions| ==> LastExec(e.machine, body, base, store) == Ok(Call(g, gBase, table), s);
  }

  // ------------------------------------------------------------------ fuel

  /** A recursive run that has ended is the same with more fuel. */
  lemma {:induction false} MoreFuelLoop<L, B, S>(
    e: Env<L, B, S>, m: nat, n: nat, f: nat, pc: nat, b: B, s: S, depth: nat)
    requires OffsetsParallel(e.program) && IsLocal(e.program, f) && 1 <= depth && m <= n
    requires NativeLoop(e, m, f, pc, b, s, depth) != OutOfFuel
    ensures NativeLoop(e, n, f, pc, b, s, depth) == NativeLoop(e, m, f, pc, b, s, depth)
    decreases m, 0
  {
    var body := BodyOf(e.program, f);
    if pc < |body.instructions| {
      match e.machine.execute(body.instructions[pc], body.layout, b, s)
      case Trap(_, _) =>
      case Ok(Next, s1) => MoreFuelAdvance(e, m - 1, n - 1, f, pc + 1, b, s1, depth);
      case Ok(JumpTo(t), s1) => MoreFuelAdvance(e, m - 1, n - 1, f, t, b, s1, depth);
      case Ok(Call(g, gBase, _), s1) =>
        if depth < e.maxDepth {
          MoreFuel(e, m - 1, n - 1, g, gBase, s1, depth);
          var r := NativeCall(e, m - 1, g, gBase, s1, depth);
          if r.Returned? {
            MoreFuelAdvance(e, m - 1, n - 1, f, pc + 1, b, r.store, depth);
          }
        }
    }
  }

  lemma {:induction false} MoreFuelAdvance<L, B, S>(
    e: Env<L, B, S>, m: nat, n: nat, f: nat, pc: nat, b: B, s: S, depth: nat)
    requires OffsetsParallel(e.program) && IsLocal(e.program, f) && 1 <= depth && m <= n
    requires NativeAdvance(e, m, f, pc, b, s, depth) != OutOfFuel
    ensures NativeAdvance(e, n, f, pc, b, s, depth) == NativeAdvance(e, m, f, pc, b, s, depth)
    decreases m, 1
  {
    if pc != |BodyOf(e.program, f).instructions| {
      MoreFuelLoop(e, m, n, f, pc, b, s, depth);
    }
  }

  lemma {:induction false} MoreFuel<L, B, S>(e: Env<L, B, S>, m: nat, n: nat, f: nat, base: B, s: S, depth: nat)
    requires OffsetsParallel(e.program) && m <= n && NativeCall(e, m, f, base, s, depth) != OutOfFuel
    ensures NativeCall(e, n, f, base, s, depth) == NativeCall(e, m, f, base, s, depth)
    decreases m, 2
  {
    if IsLocal(e.program, f) {
      var body := BodyOf(e.program, f);
      var (b, s1) := e.machine.enter(|e.program.signatures[f].params|, body.locals, base, body.layout, s);
      MoreFuelLoop(e, m, n, f, 0, b, s1, depth + 1);
    }
  }

  // ------------------------------------------------------------------ agreement

  /** How a driver's caller sees a run end; a recursive run starts with its counter at zero. */
  datatype Final<+S> = Completed(store: S) | Error(trace: seq<TraceRecord>, store: S) | Panic(store: S)

  function NativeFinal<S>(r: Native<S>): Option<Final<S>> {
    match r
    case Returned(s, _) => Some(Completed(s))
    case Unwound(trace, s, _) => Some(Error(trace, s))
    case Panicked(s) => Some(Panic(s))
    case OutOfFuel => None
  }

  function FrameFinal<L, B, S>(r: Run<L, B, S>): Option<Final<S>> {
    match r
    case Running(_) => None
    case Finished(s) => Some(Completed(s))
    case Failed(trace, s) => Some(Error(trace, s))
    case Crashed(s) => Some(Panic(s))
  }

  ghost predicate NativeEnds<L, B, S>(e: Env<L, B, S>, f: nat, base: B, store: S, final: Final<S>)
    requires OffsetsParallel(e.program)
  {
    exists fuel: nat :: NativeFinal(NativeCall(e, fuel, f, base, store, 0)) == Some(final)
  }

  ghost predicate FrameEnds<L, B, S>(e: Env<L, B, S>, f: nat, base: B, store: S, final: Final<S>)
    requires OffsetsParallel(e.program)
  {
    exists n: nat :: FrameFinal(FrameDriver(e, n, f, base, store)) == Some(final)
  }

  /** A run by one of the two drivers. */
  ghost predicate Ends<L, B, S>(e: Env<L, B, S>, g: nat, base: B, s: S, final: Final<S>)
    requires OffsetsParallel(e.program)
  {
    NativeEnds(e, g, base, s, final) || FrameEnds(e, g, base, s, final)
  }

  /** A whole recursive run, matched by the explicit driver. */
  lemma SimulateDriver<L, B(!new), S(!new)>(e: Env<L, B, S>, fuel: nat, f: nat, base: B, store: S)
    returns (n: nat)
    requires OffsetsParallel(e.program) && NeverCallsLast(e)
    ensures FrameFinal(FrameDriver(e, n, f, base, store)) == NativeFinal(NativeCall(e, fuel, f, base, store, 0))
    ensures NativeCall(e, fuel, f, base, store, 0) == OutOfFuel ==> fuel <= n
  {
    n := 0;
    if IsLocal(e.program, f) {
      var c := EnterConfig(e, [], f, base, store);
      n := SimulateLoop(e, f, fuel, f, 0, c.base, c.store, []);
      assert forall trace: seq<TraceRecord> :: trace + CallerRecords<L, B>([]) == trace;
    }
  }

  lemma StoppedStaysStopped<L, B, S>(e: Env<L, B, S>, m: nat, n: nat, f: nat, base: B, store: S)
    requires OffsetsParallel(e.program) && m <= n
    requires FrameFinal(FrameDriver(e, m, f, base, store)).Some?
    ensures FrameDriver(e, n, f, base, store) == FrameDriver(e, m, f, base, store)
  {
    if IsLocal(e.program, f) {
      RunSplit(e, f, ResultCount(e.program, f), m, n - m, EnterConfig(e, [], f, base, store));
    }
  }

  /**
   The drivers agree on every program, machine, entry function and store: one ends in an
   outcome exactly when the other does, so they also diverge together.
   */
  lemma DriversAgree<L, B(!new), S(!new)>(e: Env<L, B, S>, f: nat, base: B, store: S, final: Final<S>)
    requires OffsetsParallel(e.program) && NeverCallsLast(e)
    ensures NativeEnds(e, f, base, store, final) <==> FrameEnds(e, f, base, store, final)
  {
    if NativeEnds(e, f, base, store, final) {
      var fuel: nat :| NativeFinal(NativeCall(e, fuel, f, base, store, 0)) == Some(final);
      var n := SimulateDriver(e, fuel, f, base, store);
    }
    if FrameEnds(e, f, base, store, final) {
      var n: nat :| FrameFinal(FrameDriver(e, n, f, base, store)) == Some(final);
      var m := SimulateDriver(e, n + 1, f, base, store);
      if n <= m {
        StoppedStaysStopped(e, n, m, f, base, store);
      } else {
        StoppedStaysStopped(e, m, n, f, base, store);
      }
      assert NativeFinal(NativeCall(e, n + 1, f, base, store, 0)) == Some(final);
    }
  }
}
