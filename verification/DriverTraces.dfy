/**
 What every run of either driver keeps: the call stack stays within the configured depth,
 and whatever trace reaches the caller is a linked backtrace with one record per live frame.
 */
module DriverTraces {
  import opened Values
  import opened Drivers
  import opened DriverAgreement

  function Max(a: nat, b: nat): nat { if a < b then b else a }

  /** Every record names a real instruction of its function, with that instruction's offset. */
  ghost predicate Located<L>(p: Program<L>, trace: seq<TraceRecord>) {
    forall i :: 0 <= i < |trace| ==>
      && IsLocal(p, trace[i].func)
      && trace[i].instrIndex < |BodyOf(p, trace[i].func).offsets|
      && trace[i].offset == BodyOf(p, trace[i].func).offsets[trace[i].instrIndex]
  }

  lemma LinkedSnoc<L>(p: Program<L>, trace: seq<TraceRecord>, g: nat, r: TraceRecord)
    requires LinkedTrace(trace, g) && Located(p, trace)
    requires r.kind.CallRecord? && r.kind.callee == g && Located(p, [r])
    ensures LinkedTrace(trace + [r], r.func) && Located(p, trace + [r])
  {
    assert r == [r][0];
  }

  lemma SeedLinked<L>(p: Program<L>, f: nat, pc: nat, err: ExecError)
    requires IsLocal(p, f) && pc < |BodyOf(p, f).offsets|
    ensures var trace := TrapHere(f, pc, BodyOf(p, f).offsets, err);
      LinkedTrace(trace, f) && Located(p, trace)
  {
  }

  lemma RecordLocated<L>(p: Program<L>, f: nat, pc: nat, kind: RecordKind)
    requires IsLocal(p, f) && pc < |BodyOf(p, f).offsets|
    ensures Located(p, [TraceRecord(f, pc, kind, BodyOf(p, f).offsets[pc])])
  {
  }

  /**
   The recursive driver: a trap's trace is linked from the trapping instruction out to `f`,
   holds one record per live activation, and no activation was admitted past the limit.
   */
  lemma {:induction false} NativeTrace<L, B, S>(e: Env<L, B, S>, fuel: nat, f: nat, pc: nat, base: B, store: S,
    depth: nat)
    requires OffsetsParallel(e.program) && IsLocal(e.program, f) && 1 <= depth
    ensures var r := NativeLoop(e, fuel, f, pc, base, store, depth);
      r.Unwound? ==>
        && LinkedTrace(r.trace, f) && Located(e.program, r.trace)
        && depth <= r.depth <= Max(depth, e.maxDepth)
        && |r.trace| == r.depth - depth + 1
    decreases fuel
  {
    hide LinkedTrace, Located;
    var body := BodyOf(e.program, f);
    if 0 < fuel && pc < |body.instructions| {
      match e.machine.execute(body.instructions[pc], body.layout, base, store)
      case Trap(err, s) =>
        SeedLinked(e.program, f, pc, err);
      case Ok(Next, s) =>
        NativeTrace(e, fuel - 1, f, pc + 1, base, s, depth);
      case Ok(JumpTo(t), s) =>
        NativeTrace(e, fuel - 1, f, t, base, s, depth);
      case Ok(Call(g, gBase, table), s) =>
        SeedLinked(e.program, f, pc, CallStackExhausted(e.maxDepth));
        if depth < e.maxDepth && IsLocal(e.program, g) {
          var c := EnterConfig(e, [], g, gBase, s);
          NativeTrace(e, fuel - 1, g, 0, c.base, c.store, depth + 1);
          var r := NativeCall(e, fuel - 1, g, gBase, s, depth);
          assert r == NativeLoop(e, fuel - 1, g, 0, c.base, c.store, depth + 1);
          match r
          case Returned(s', d) =>
            NativeTrace(e, fuel - 1, f, pc + 1, base, s', depth);
          case Unwound(trace, s', d) =>
            RecordLocated(e.program, f, pc, CallRecord(g, table));
            LinkedSnoc(e.program, trace, g, TraceRecord(f, pc, CallRecord(g, table), body.offsets[pc]));
          case _ =>
        }
    }
  }

  /**
   What `run` hands its caller on failure, from the recursive driver: a linked backtrace that
   starts at the one trapping instruction and ends at the entry function, no longer than the
   configured depth (a limit of zero still admits the entry frame).
   */
  lemma NativeErrorTrace<L, B, S>(e: Env<L, B, S>, fuel: nat, f: nat, base: B, store: S)
    requires OffsetsParallel(e.program)
    ensures var r := NativeCall(e, fuel, f, base, store, 0);
      r.Unwound? ==>
        && LinkedTrace(r.trace, f) && Located(e.program, r.trace)
        && |r.trace| == r.depth <= Max(1, e.maxDepth)
  {
    if IsLocal(e.program, f) {
      var c := EnterConfig(e, [], f, base, store);
      NativeTrace(e, fuel, f, 0, c.base, c.store, 1);
    }
  }

  // ------------------------------------------------------------------ the explicit driver

  /** The function that frame `i` of the stack, or the one above them all, is running. */
  function FuncAt<L, B, S>(c: Config<L, B, S>, i: nat): nat
    requires i <= |c.frames|
  {
    if i < |c.frames| then c.frames[i].func else c.func
  }

  /** `instructions`, `offsets` and `layout` are those of `f`'s body. */
  ghost predicate Runs<L>(p: Program<L>, f: nat, instructions: seq<Instr>, offsets: seq<nat>, layout: L) {
    && IsLocal(p, f)
    && var body := BodyOf(p, f);
      instructions == body.instructions && offsets == body.offsets && layout == body.layout
  }

  ghost predicate Suspended<L, B>(p: Program<L>, frame: Frame<L, B>) {
    && Runs(p, frame.func, frame.instructions, frame.offsets, frame.layout)
    && frame.pc < |frame.instructions|
    && IsLocal(p, frame.callee) && frame.calleeResults == ResultCount(p, frame.callee)
  }

  /** The suspended frames are a chain of calls from `entry` to the running function. */
  ghost predicate CallChain<L, B, S>(e: Env<L, B, S>, entry: nat, c: Config<L, B, S>) {
    && |c.frames| + 1 <= Max(1, e.maxDepth)
    && FuncAt(c, 0) == entry
    && Runs(e.program, c.func, c.instructions, c.offsets, c.layout)
    && (forall i :: 0 <= i < |c.frames| ==> Suspended(e.program, c.frames[i]))
    && forall i :: 0 <= i < |c.frames| ==> c.frames[i].callee == FuncAt(c, i + 1)
  }

  /** Saved frames chained by their callees, under the record of a trap in the last callee. */
  ghost predicate Chained<L, B>(p: Program<L>, frames: seq<Frame<L, B>>, head: TraceRecord) {
    && OffsetsParallel(p) && FramesParallel(frames)
    && (forall i :: 0 <= i < |frames| ==> Suspended(p, frames[i]))
    && (forall i :: 0 <= i < |frames| - 1 ==> frames[i].callee == frames[i + 1].func)
    && head.kind.NonCall? && Located(p, [head])
    && (frames != [] ==> frames[|frames| - 1].callee == head.func)
  }

  lemma RecordLinked<L, B>(p: Program<L>, frames: seq<Frame<L, B>>, head: TraceRecord, i: nat)
    requires Chained(p, frames, head) && 1 <= i <= |frames|
    ensures var trace, frame := [head] + CallerRecords(frames), frames[|frames| - i];
      && trace[i] == TraceRecord(frame.func, frame.pc, CallRecord(frame.callee, frame.calleeTable),
         frame.offsets[frame.pc])
      && frame.callee == trace[i - 1].func
      && Located(p, [trace[i]])
  {
    var trace, frame := [head] + CallerRecords(frames), frames[|frames| - i];
    assert trace[i] == CallerRecords(frames)[i - 1];
    assert Suspended(p, frame);
    if 1 < i {
      assert trace[i - 1] == CallerRecords(frames)[i - 2];
      assert frame.callee == frames[|frames| - i + 1].func;
    }
  }

  lemma CallerRecordsLinked<L, B>(p: Program<L>, frames: seq<Frame<L, B>>, head: TraceRecord)
    requires Chained(p, frames, head)
    ensures var trace := [head] + CallerRecords(frames);
      LinkedTrace(trace, if frames == [] then head.func else frames[0].func) && Located(p, trace)
  {
    var trace := [head] + CallerRecords(frames);
    assert [head][0] == head;
    forall i | 1 <= i < |trace|
      ensures trace[i].kind.CallRecord? && trace[i].kind.callee == trace[i - 1].func && Located(p, [trace[i]])
    {
      RecordLinked(p, frames, head, i);
    }
    forall i | 0 <= i < |trace|
      ensures Located(p, [trace[i]]) && [trace[i]][0] == trace[i]
    {
    }
    if frames != [] {
      RecordLinked(p, frames, head, |frames|);
    }
  }

  lemma ChainTrace<L, B, S>(e: Env<L, B, S>, entry: nat, c: Config<L, B, S>, err: ExecError)
    requires OffsetsParallel(e.program) && CallChain(e, entry, c) && ConfigParallel(c) && c.pc < |c.instructions|
    ensures var trace := FrameTrace(entry, c.frames, err, c.pc, c.offsets[c.pc]);
      LinkedTrace(trace, entry) && Located(e.program, trace) && |trace| == |c.frames| + 1
  {
    var head := TraceRecord(c.func, c.pc, NonCall(err), c.offsets[c.pc]);
    assert [head][0] == head;
    assert forall i :: 0 <= i < |c.frames| - 1 ==> c.frames[i].callee == FuncAt(c, i + 1);
    CallerRecordsLinked(e.program, c.frames, head);
  }

  lemma PushKeepsChain<L, B, S>(e: Env<L, B, S>, entry: nat, c: Config<L, B, S>, g: nat, gBase: B, table: Option<nat>,
    s: S)
    requires CallChain(e, entry, c) && c.pc < |c.instructions| && |c.frames| + 1 < e.maxDepth && IsLocal(e.program, g)
    ensures var frame := Frame(c.func, c.instructions, c.pc, c.base, c.layout, c.offsets, ResultCount(e.program, g), g,
      table);
      CallChain(e, entry, EnterConfig(e, c.frames + [frame], g, gBase, s))
  {
    var frame := Frame(c.func, c.instructions, c.pc, c.base, c.layout, c.offsets, ResultCount(e.program, g), g, table);
    var c' := EnterConfig(e, c.frames + [frame], g, gBase, s);
    forall i | 0 <= i < |c'.frames|
      ensures Suspended(e.program, c'.frames[i]) && c'.frames[i].callee == FuncAt(c', i + 1)
    {
      if i < |c.frames| {
        assert c'.frames[i] == c.frames[i];
        assert c.frames[i].callee == FuncAt(c, i + 1);
      }
    }
  }

  lemma AdvanceKeepsChain<L, B, S>(e: Env<L, B, S>, entry: nat, c: Config<L, B, S>, pc: nat, s: S)
    requires IsLocal(e.program, entry) && CallChain(e, entry, c)
    ensures var r := FrameAdvance(e, ResultCount(e.program, entry), c.(pc := pc, store := s));
      (r.Running? ==> CallChain(e, entry, r.config)) && !r.Failed?
  {
    var r := FrameAdvance(e, ResultCount(e.program, entry), c.(pc := pc, store := s));
    if r.Running? {
      var k := |r.config.frames|;
      assert pc == |c.instructions| ==> Suspended(e.program, c.frames[k]);
      forall i | 0 <= i < k
        ensures Suspended(e.program, r.config.frames[i]) && r.config.frames[i].callee == FuncAt(r.config, i + 1)
      {
        assert r.config.frames[i] == c.frames[i] && c.frames[i].callee == FuncAt(c, i + 1);
      }
    }
  }

  lemma StepKeepsChain<L, B, S>(e: Env<L, B, S>, entry: nat, c: Config<L, B, S>)
    requires OffsetsParallel(e.program) && IsLocal(e.program, entry) && CallChain(e, entry, c) && ConfigParallel(c)
    ensures match FrameStep(e, entry, ResultCount(e.program, entry), c)
      case Running(c') => CallChain(e, entry, c')
      case Failed(trace, _) => LinkedTrace(trace, entry) && Located(e.program, trace) && |trace| == |c.frames| + 1
      case _ => true
  {
    if c.pc < |c.instructions| {
      var x := e.machine.execute(c.instructions[c.pc], c.layout, c.base, c.store);
      if x.Trap? {
        ChainTrace(e, entry, c, x.err);
      } else if x.step.Call? {
        CallKeepsChain(e, entry, c, x.step.callee, x.step.base, x.step.table, x.store);
      } else {
        AdvanceKeepsChain(e, entry, c, if x.step.Next? then c.pc + 1 else x.step.target, x.store);
      }
    }
  }

  lemma CallKeepsChain<L, B, S>(e: Env<L, B, S>, entry: nat, c: Config<L, B, S>, g: nat, gBase: B, table: Option<nat>,
    s: S)
    requires OffsetsParallel(e.program) && IsLocal(e.program, entry) && CallChain(e, entry, c) && ConfigParallel(c)
    requires c.pc < |c.instructions|
    requires e.machine.execute(c.instructions[c.pc], c.layout, c.base, c.store) == Ok(Call(g, gBase, table), s)
    ensures match FrameStep(e, entry, ResultCount(e.program, entry), c)
      case Running(c') => CallChain(e, entry, c')
      case Failed(trace, _) => LinkedTrace(trace, entry) && Located(e.program, trace) && |trace| == |c.frames| + 1
      case _ => true
  {
    if e.maxDepth <= |c.frames| + 1 {
      ChainTrace(e, entry, c, CallStackExhausted(e.maxDepth));
    } else if IsLocal(e.program, g) {
      PushKeepsChain(e, entry, c, g, gBase, table, s);
    }
  }

  /** A running state has its chain of calls, and a failure reports one. */
  ghost predicate Chains<L, B, S>(e: Env<L, B, S>, entry: nat, r: Run<L, B, S>) {
    match r
    case Running(c) => CallChain(e, entry, c)
    case Failed(trace, _) => LinkedTrace(trace, entry) && Located(e.program, trace) && |trace| <= Max(1, e.maxDepth)
    case _ => true
  }

  lemma StepChains<L, B, S>(e: Env<L, B, S>, entry: nat, c: Config<L, B, S>)
    requires OffsetsParallel(e.program) && IsLocal(e.program, entry) && CallChain(e, entry, c) && ConfigParallel(c)
    ensures Chains(e, entry, FrameStep(e, entry, ResultCount(e.program, entry), c))
  {
    assert |c.frames| + 1 <= Max(1, e.maxDepth);
    hide CallChain, LinkedTrace, Located, FrameStep;
    StepKeepsChain(e, entry, c);
  }

  lemma {:induction false} FrameRunInvariant<L, B, S>(e: Env<L, B, S>, entry: nat, n: nat, c: Config<L, B, S>)
    requires OffsetsParallel(e.program) && IsLocal(e.program, entry) && CallChain(e, entry, c) && ConfigParallel(c)
    ensures Chains(e, entry, FrameRun(e, entry, ResultCount(e.program, entry), n, c))
  {
    hide CallChain, LinkedTrace, Located, FrameStep, ConfigParallel, OffsetsParallel;
    if n != 0 {
      var r := FrameStep(e, entry, ResultCount(e.program, entry), c);
      StepChains(e, entry, c);
      StepKeepsParallel(e, entry, ResultCount(e.program, entry), c);
      if r.Running? {
        FrameRunInvariant(e, entry, n - 1, r.config);
      }
    }
  }

  /**
   The explicit driver, in every state of every run: its suspended frames are a chain of real
   calls from the entry function, never more than the limit allows, and a failure reports
   exactly the frames that were live when the instruction trapped.
   */
  lemma FrameDriverInvariant<L, B, S>(e: Env<L, B, S>, n: nat, f: nat, base: B, store: S)
    requires OffsetsParallel(e.program)
    ensures match FrameDriver(e, n, f, base, store)
      case Running(c) => CallChain(e, f, c)
      case Failed(trace, _) => LinkedTrace(trace, f) && Located(e.program, trace) && |trace| <= Max(1, e.maxDepth)
      case _ => true
  {
    if IsLocal(e.program, f) {
      FrameRunInvariant(e, f, n, EnterConfig(e, [], f, base, store));
    }
  }

  // ------------------------------------------------------------------ FuncCallError

  /** `FuncCallError`: the entry function's name and the trace. */
  datatype FuncCallError = FuncCallError(funcName: string, trace: seq<TraceRecord>)

  /** `FuncCallError::cause`; the source diverges where this requires. */
  function Cause(err: FuncCallError): ExecError
    requires err.trace != [] && err.trace[0].kind.NonCall?
  {
    err.trace[0].kind.err
  }

  /** `cause` is defined on every error either driver raises, and names the only trap in it. */
  lemma CauseNeverDiverges<L, B, S>(
    e: Env<L, B, S>, f: nat, base: B, store: S, trace: seq<TraceRecord>, s: S, name: string)
    requires OffsetsParallel(e.program) && Ends(e, f, base, store, Error(trace, s))
    ensures var err := FuncCallError(name, trace);
      && err.trace != [] && err.trace[0].kind.NonCall?
      && forall i :: 0 <= i < |err.trace| ==> (err.trace[i].kind == NonCall(Cause(err)) <==> i == 0)
  {
    hide NativeCall, FrameDriver;
    if NativeEnds(e, f, base, store, Error(trace, s)) {
      var fuel: nat :| NativeFinal(NativeCall(e, fuel, f, base, store, 0)) == Some(Final.Error(trace, s));
      NativeErrorTrace(e, fuel, f, base, store);
    } else {
      var n: nat :| FrameFinal(FrameDriver(e, n, f, base, store)) == Some(Final.Error(trace, s));
      FrameDriverInvariant(e, n, f, base, store);
    }
  }
}

/** The agreement of the drivers needs its condition: each body that could end in a call breaks it. */
module DriverTightness {
  import opened Values
  import opened Drivers
  import opened DriverAgreement

  /** The machine calls only on the instructions lowering marked as calls. */
  ghost predicate CallsOnlyAt<L(!new), B(!new), S(!new)>(m: Machine<L, B, S>, mayCall: Instr -> bool) {
    forall i, l, b, s :: ReportsCall(m.execute(i, l, b, s)) ==> mayCall(i)
  }

  /** No body ends in an instruction marked as a call. */
  ghost predicate QuietEnds<L>(p: Program<L>, mayCall: Instr -> bool) {
    forall k :: 0 <= k < |p.bodies| && p.bodies[k].instructions != [] ==>
      !mayCall(p.bodies[k].instructions[|p.bodies[k].instructions| - 1])
  }

  ghost predicate AgreeOn<L, B(!new), S(!new)>(e: Env<L, B, S>)
    requires OffsetsParallel(e.program)
  {
    forall f, b, s, final :: NativeEnds(e, f, b, s, final) <==> FrameEnds(e, f, b, s, final)
  }

  /** Jumps to the last instruction, calls `f` from it once, and lets the callee fall off its end. */
  function CallOnceAtEnd<L>(mayCall: Instr -> bool, f: nat, last: nat): Machine<L, (), int> {
    Machine(
      (i: Instr, l: L, b: (), s: int) =>
        if s == 0 || s == 2 then Ok(JumpTo(last), s + 1)
        else if s == 1 && mayCall(i) then Ok(Call(f, (), None), 2)
        else Ok(Next, s + 1),
      (n: nat, tys: seq<ValType>, b: (), l: L, s: int) => (b, s),
      (n: nat, b: (), l: L, s: int) => s)
  }

  lemma NativeReturnsFromTrailingCall<L>(p: Program<L>, mayCall: Instr -> bool, f: nat)
    requires OffsetsParallel(p) && IsLocal(p, f) && BodyOf(p, f).instructions != []
    requires mayCall(BodyOf(p, f).instructions[|BodyOf(p, f).instructions| - 1])
    ensures var last := |BodyOf(p, f).instructions| - 1;
      NativeEnds(Env(p, CallOnceAtEnd(mayCall, f, last), 2), f, (), 0, Completed(4))
  {
    var last := |BodyOf(p, f).instructions| - 1;
    var e := Env(p, CallOnceAtEnd<L>(mayCall, f, last), 2);
    assert NativeLoop(e, 1, f, last, (), 3, 2) == Returned(4, 1);
    assert NativeLoop(e, 2, f, 0, (), 2, 2) == Returned(4, 1);
    assert NativeCall(e, 2, f, (), 2, 1) == Returned(4, 1);
    assert NativeLoop(e, 3, f, last, (), 1, 1) == Returned(4, 0);
    assert NativeLoop(e, 4, f, 0, (), 0, 1) == Returned(4, 0);
    assert NativeCall(e, 4, f, (), 0, 0) == Returned(4, 0);
    assert NativeFinal(NativeCall(e, 4, f, (), 0, 0)) == Some(Completed(4));
  }

  /** Four iterations, and then a state in which the next one crashes. */
  lemma FifthCrashes<L>(e: Env<L, (), int>, f: nat, c1: Config<L, (), int>, c2: Config<L, (), int>,
    c3: Config<L, (), int>, c4: Config<L, (), int>, c5: Config<L, (), int>)
    requires OffsetsParallel(e.program) && IsLocal(e.program, f)
    requires ConfigParallel(c1) && ConfigParallel(c2) && ConfigParallel(c3) && ConfigParallel(c4) && ConfigParallel(c5)
    requires var results := ResultCount(e.program, f);
      && FrameStep(e, f, results, c1) == Running(c2) && FrameStep(e, f, results, c2) == Running(c3)
      && FrameStep(e, f, results, c3) == Running(c4) && FrameStep(e, f, results, c4) == Running(c5)
    requires |c5.instructions| <= c5.pc
    ensures FrameRun(e, f, ResultCount(e.program, f), 5, c1) == Crashed(c5.store)
  {
    var results := ResultCount(e.program, f);
    assert FrameRun(e, f, results, 1, c5) == Crashed(c5.store);
    hide FrameStep, ConfigParallel;
    assert FrameRun(e, f, results, 2, c4) == Crashed(c5.store);
    assert FrameRun(e, f, results, 3, c3) == Crashed(c5.store);
    assert FrameRun(e, f, results, 4, c2) == Crashed(c5.store);
  }

  lemma FrameCrashesAfterTrailingCall<L>(p: Program<L>, mayCall: Instr -> bool, f: nat)
    requires OffsetsParallel(p) && IsLocal(p, f) && BodyOf(p, f).instructions != []
    requires mayCall(BodyOf(p, f).instructions[|BodyOf(p, f).instructions| - 1])
    ensures var last := |BodyOf(p, f).instructions| - 1;
      FrameEnds(Env(p, CallOnceAtEnd(mayCall, f, last), 2), f, (), 0, Panic(4))
  {
    var body := BodyOf(p, f);
    var last := |body.instructions| - 1;
    var e := Env(p, CallOnceAtEnd<L>(mayCall, f, last), 2);
    var results := ResultCount(p, f);
    var frame := Frame(f, body.instructions, last, (), body.layout, body.offsets, results, f, None);
    var c1, c2 := ConfigAt(e, [], f, 0, (), 0), ConfigAt(e, [], f, last, (), 1);
    var c3, c4 := ConfigAt(e, [frame], f, 0, (), 2), ConfigAt(e, [frame], f, last, (), 3);
    var c5 := ConfigAt(e, [], f, last + 1, (), 4);
    assert [] + [frame] == [frame];
    assert FrameStep(e, f, results, c4) == Running(c5);
    assert FrameStep(e, f, results, c3) == Running(c4);
    assert FrameStep(e, f, results, c2) == Running(c3);
    assert FrameStep(e, f, results, c1) == Running(c2);
    FifthCrashes(e, f, c1, c2, c3, c4, c5);
    assert FrameFinal(FrameDriver(e, 5, f, (), 0)) == Some(Panic(4));
  }

  lemma FrameEndsOnce<L, B, S>(e: Env<L, B, S>, f: nat, base: B, store: S, x: Final<S>, y: Final<S>)
    requires OffsetsParallel(e.program) && FrameEnds(e, f, base, store, x) && FrameEnds(e, f, base, store, y)
    ensures x == y
  {
    var m: nat :| FrameFinal(FrameDriver(e, m, f, base, store)) == Some(x);
    var n: nat :| FrameFinal(FrameDriver(e, n, f, base, store)) == Some(y);
    if m <= n {
      StoppedStaysStopped(e, m, n, f, base, store);
    } else {
      StoppedStaysStopped(e, n, m, f, base, store);
    }
  }

  /**
   The exact condition: the drivers agree on every machine that calls only where the program
   says it may, if and only if no body of the program may end in a call.
   */
  lemma AgreementIffQuietEnds<L(!new)>(p: Program<L>, mayCall: Instr -> bool)
    requires OffsetsParallel(p)
    requires p.importedCount + |p.bodies| <= |p.signatures|
    ensures QuietEnds(p, mayCall) <==>
      forall m: Machine<L, (), int>, d: nat :: CallsOnlyAt(m, mayCall) ==> AgreeOn(Env(p, m, d))
  {
    if QuietEnds(p, mayCall) {
      forall m: Machine<L, (), int>, d: nat | CallsOnlyAt(m, mayCall)
        ensures AgreeOn(Env(p, m, d))
      {
        var e := Env(p, m, d);
        forall i, b, s | 0 <= i < |p.bodies| && p.bodies[i].instructions != []
          ensures !ReportsCall(LastExec(m, p.bodies[i], b, s))
        {
          var body := p.bodies[i];
          var last := body.instructions[|body.instructions| - 1];
          assert !mayCall(last);
          assert !ReportsCall(m.execute(last, body.layout, b, s));
        }
        forall f, b, s, final
          ensures NativeEnds(e, f, b, s, final) <==> FrameEnds(e, f, b, s, final)
        {
          DriversAgree(e, f, b, s, final);
        }
      }
    } else {
      var k :| 0 <= k < |p.bodies| && p.bodies[k].instructions != []
        && mayCall(p.bodies[k].instructions[|p.bodies[k].instructions| - 1]);
      var f := p.importedCount + k;
      var m := CallOnceAtEnd<L>(mayCall, f, |p.bodies[k].instructions| - 1);
      var e := Env(p, m, 2);
      NativeReturnsFromTrailingCall(p, mayCall, f);
      FrameCrashesAfterTrailingCall(p, mayCall, f);
      if AgreeOn(e) {
        assert FrameEnds(e, f, (), 0, Completed(4));
        FrameEndsOnce(e, f, (), 0, Completed(4), Panic(4));
        assert false;
      }
      assert CallsOnlyAt(m, mayCall) && !AgreeOn(Env(p, m, 2));
    }
  }
}
