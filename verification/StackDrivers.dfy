/**
 Programs lowered for the stack machine, under the two drivers: whole programs, loops and
 recursion included, do what structured WebAssembly means, on every validated program.
 */
module StackDrivers {
  import opened Values
  import opened Drivers
  import opened DriverAgreement
  import opened DriverRuns
  import opened OperandStack
  import opened StackCode
  import opened BlockCode
  import opened BlockCalls
  import opened BlockPrograms
  import opened LoweredPrograms
  import opened LoweredDrivers
  import opened StackLowering
  import opened StackExecution
  import opened StackHeights
  import opened StackPrograms

  /**
   An activation of function `g` on the recursive driver, its frame above the slots `below`;
   `fuel` is what its callees are given.
   */
  datatype Activation<!W> = Activation(
    e: StackEnv<W>, funcs: seq<StructuredFunc>, decode: Instr -> StackInstr, rt: Runtime<W>, fuel: nat,
    g: nat, below: seq<Value>, depth: nat)

  ghost predicate Runs<W(!new)>(a: Activation<W>) {
    && StackProgramOk(a.funcs) && RealizesStack(a.e, a.funcs, a.decode, a.rt)
    && a.g < |a.funcs| && a.funcs[a.g].Function? && 1 <= a.depth
    && OffsetsParallel(a.e.program) && IsLocal(a.e.program, a.g)
  }

  function FuncOf<W>(a: Activation<W>): StructuredFunc
    requires a.g < |a.funcs|
  {
    a.funcs[a.g]
  }

  function BaseOf<W>(a: Activation<W>): StackBase
    requires a.g < |a.funcs| && a.funcs[a.g].Function?
  {
    StackBase(|a.below|, |a.below| + |FuncOf(a).locals|)
  }

  /** What operators and calls mean inside the activation. */
  ghost function EffectsOf<W>(a: Activation<W>): Effects<World<W>> {
    Within(a.funcs, a.rt, a.fuel, Remaining(a.e.maxDepth, a.depth))
  }

  /** The operand stack with the activation's locals and operands on it. */
  function Placed<W>(below: seq<Value>, st: State<World<W>>): StackStore<W>
    requires st.world.Here?
  {
    StackStore(below + st.locals + st.stack, st.world.world)
  }

  /** A state of the reference that the activation may be in. */
  predicate Holds<W>(a: Activation<W>, st: State<World<W>>)
    requires a.g < |a.funcs| && a.funcs[a.g].Function?
  {
    st.world.Here? && |st.locals| == |FuncOf(a).locals|
  }

  lemma RunsFacts<W(!new)>(a: Activation<W>)
    requires Runs(a)
    ensures ImportsFirst(a.funcs, a.rt) && StackFuncOk(a.funcs, FuncOf(a))
    ensures a.e.machine == StackMachine(StackExecutor(a.decode, a.rt))
  {
    hide Validates, SeqCallsOk;
    assert StackFuncOk(a.funcs, a.funcs[a.g]);
  }

  // ------------------------------------------------------------------ from point to point

  ghost predicate Leads<W(!new)>(
    a: Activation<W>, k: nat, enough: nat, pc: nat, st: State<World<W>>, pc1: nat, st1: State<World<W>>)
    requires Runs(a) && st.world.Here? && st1.world.Here?
  {
    Gets(a.e, k, enough, a.g, pc, BaseOf(a), Placed(a.below, st), pc1, Placed(a.below, st1), a.depth)
  }

  ghost predicate Reaches<W(!new)>(
    a: Activation<W>, pc: nat, st: State<World<W>>, pc1: nat, st1: State<World<W>>)
    requires Runs(a) && st.world.Here? && st1.world.Here?
  {
    exists k: nat, enough: nat :: Leads(a, k, enough, pc, st, pc1, st1)
  }

  ghost predicate UnwindsWith<W(!new)>(a: Activation<W>, m: nat, pc: nat, st: State<World<W>>, w: W)
    requires Runs(a) && st.world.Here?
  {
    var r := NativeLoop(a.e, m, a.g, pc, BaseOf(a), Placed(a.below, st), a.depth);
    r.Unwound? && r.store.rest == w
  }

  ghost predicate GoesOnFor<W(!new)>(a: Activation<W>, upTo: nat, pc: nat, st: State<World<W>>)
    requires Runs(a) && st.world.Here?
  {
    forall m: nat :: m <= upTo ==> LoopGoesOn(a.e, m, a.g, pc, BaseOf(a), Placed(a.below, st), a.depth)
  }

  /**
   What the driver does from `pc` when the reference's run has gone as `flow` says, with `fuel`
   returns to the heads of loops: it falls through to `next`, goes where a branch goes, stops
   alike, or is still running.
   */
  ghost predicate Drives<W(!new)>(
    a: Activation<W>, flow: Flow<World<W>>, exits: seq<Exit>, fuel: nat, pc: nat, st: State<World<W>>, next: nat)
    requires Runs(a) && st.world.Here?
  {
    match flow
    case Fall(st1) => Holds(a, st1) && Reaches(a, pc, st, next, st1)
    case Jump(d, st1) =>
      && Holds(a, st1) && d < |exits|
      && var x := ExitAt(exits, d);
        && 0 <= x.height && x.height + x.arity <= |st1.stack|
        && Reaches(a, pc, st, x.target, Unwind(st1, x.height, x.arity))
    case Stopped(Here(w)) => exists m: nat :: UnwindsWith(a, m, pc, st, w)
    case Stopped(Lost) => GoesOnFor(a, a.fuel, pc, st)
    case OutOfFuel => GoesOnFor(a, fuel, pc, st)
  }

  lemma ReachesSelf<W(!new)>(a: Activation<W>, pc: nat, st: State<World<W>>)
    requires Runs(a) && st.world.Here?
    ensures Reaches(a, pc, st, pc, st)
  {
    hide StackProgramOk, RealizesStack, OffsetsParallel;
    GetsNowhere(a.e, a.g, pc, BaseOf(a), Placed(a.below, st), a.depth);
    assert Leads(a, 0, 0, pc, st, pc, st);
  }

  lemma ReachesThrough<W(!new)>(
    a: Activation<W>, pc: nat, st: State<World<W>>, pc1: nat, st1: State<World<W>>, pc2: nat, st2: State<World<W>>)
    requires Runs(a) && st.world.Here? && st1.world.Here? && st2.world.Here?
    requires Reaches(a, pc, st, pc1, st1) && Reaches(a, pc1, st1, pc2, st2)
    ensures Reaches(a, pc, st, pc2, st2)
  {
    hide StackProgramOk, RealizesStack, OffsetsParallel, Gets;
    var k: nat, enough: nat :| Leads(a, k, enough, pc, st, pc1, st1);
    var k': nat, enough': nat :| Leads(a, k', enough', pc1, st1, pc2, st2);
    GetsThrough(a.e, k, enough, k', enough', a.g, pc, BaseOf(a), Placed(a.below, st), pc1, Placed(a.below, st1), pc2,
                Placed(a.below, st2), a.depth);
    assert Leads(a, k + k', enough + enough', pc, st, pc2, st2);
  }

  lemma GoesOnThrough<W(!new)>(
    a: Activation<W>, upTo: nat, k: nat, enough: nat, pc: nat, st: State<World<W>>, pc1: nat, st1: State<World<W>>)
    requires Runs(a) && st.world.Here? && st1.world.Here?
    requires Leads(a, k, enough, pc, st, pc1, st1) && GoesOnFor(a, upTo, pc1, st1)
    ensures GoesOnFor(a, upTo + k, pc, st)
  {
    hide StackProgramOk, RealizesStack, OffsetsParallel, Gets, LoopGoesOn;
    GoesOnFrom(a.e, upTo, k, enough, a.g, pc, BaseOf(a), Placed(a.below, st), pc1, Placed(a.below, st1), a.depth);
  }

  lemma UnwindsThrough<W(!new)>(
    a: Activation<W>, m: nat, k: nat, enough: nat, pc: nat, st: State<World<W>>, pc1: nat, st1: State<World<W>>, w: W)
    requires Runs(a) && st.world.Here? && st1.world.Here?
    requires Leads(a, k, enough, pc, st, pc1, st1) && UnwindsWith(a, m, pc1, st1, w)
    ensures exists n: nat :: UnwindsWith(a, n, pc, st, w)
  {
    hide StackProgramOk, RealizesStack, OffsetsParallel, Gets, NativeLoop;
    var n := EndsFrom(a.e, m, k, enough, a.g, pc, BaseOf(a), Placed(a.below, st), pc1, Placed(a.below, st1), a.depth);
    assert UnwindsWith(a, n, pc, st, w);
  }

  /** What is driven from a later point is driven from this one. */
  lemma DrivesBefore<W(!new)>(
    a: Activation<W>, flow: Flow<World<W>>, exits: seq<Exit>, fuel: nat, pc: nat, st: State<World<W>>,
    pc1: nat, st1: State<World<W>>, next: nat)
    requires Runs(a) && st.world.Here? && st1.world.Here? && Reaches(a, pc, st, pc1, st1)
    requires Drives(a, flow, exits, fuel, pc1, st1, next)
    ensures Drives(a, flow, exits, fuel, pc, st, next)
  {
    hide StackProgramOk, RealizesStack, OffsetsParallel, Leads, Reaches, GoesOnFor, UnwindsWith;
    match flow
    case Fall(st2) => ReachesThrough(a, pc, st, pc1, st1, next, st2);
    case Jump(d, st2) =>
      var x := ExitAt(exits, d);
      ReachesThrough(a, pc, st, pc1, st1, x.target, Unwind(st2, x.height, x.arity));
    case Stopped(Here(w)) => StopsBefore(a, pc, st, pc1, st1, w);
    case Stopped(Lost) => RunsBefore(a, a.fuel, pc, st, pc1, st1);
    case OutOfFuel => RunsBefore(a, fuel, pc, st, pc1, st1);
  }

  lemma StopsBefore<W(!new)>(
    a: Activation<W>, pc: nat, st: State<World<W>>, pc1: nat, st1: State<World<W>>, w: W)
    requires Runs(a) && st.world.Here? && st1.world.Here? && Reaches(a, pc, st, pc1, st1)
    requires exists m: nat :: UnwindsWith(a, m, pc1, st1, w)
    ensures exists m: nat :: UnwindsWith(a, m, pc, st, w)
  {
    hide StackProgramOk, RealizesStack, OffsetsParallel, Leads, UnwindsWith;
    var k: nat, enough: nat :| Leads(a, k, enough, pc, st, pc1, st1);
    var m: nat :| UnwindsWith(a, m, pc1, st1, w);
    UnwindsThrough(a, m, k, enough, pc, st, pc1, st1, w);
  }

  lemma RunsBefore<W(!new)>(
    a: Activation<W>, upTo: nat, pc: nat, st: State<World<W>>, pc1: nat, st1: State<World<W>>)
    requires Runs(a) && st.world.Here? && st1.world.Here? && Reaches(a, pc, st, pc1, st1)
    requires GoesOnFor(a, upTo, pc1, st1)
    ensures GoesOnFor(a, upTo, pc, st)
  {
    hide StackProgramOk, RealizesStack, OffsetsParallel, Leads, LoopGoesOn;
    var k: nat, enough: nat :| Leads(a, k, enough, pc, st, pc1, st1);
    GoesOnThrough(a, upTo, k, enough, pc, st, pc1, st1);
  }

  // ------------------------------------------------------------------ one instruction

  /** The instruction at `pc`, as the driver executes it. */
  lemma ExecutesAs<W(!new)>(a: Activation<W>, pc: nat, s: StackStore<W>)
    requires Runs(a) && pc < |EmitBodyOf(a)|
    ensures var body := BodyOf(a.e.program, a.g);
      && |body.instructions| == |EmitBodyOf(a)|
      && a.e.machine.execute(body.instructions[pc], body.layout, BaseOf(a), s)
         == ExecuteStack(EmitBodyOf(a)[pc], a.rt, BaseOf(a), s)
  {
    hide ExecuteStack, EmitBody, StackProgramOk, RealizesStack, EmitsCallsOk;
    StackBodyInPlace(a.e, a.funcs, a.decode, a.rt, a.g);
  }

  ghost function EmitBodyOf<W(!new)>(a: Activation<W>): seq<StackInstr>
    requires Runs(a)
  {
    assert StackFuncOk(a.funcs, a.funcs[a.g]);
    EmitBody(FuncOf(a).body, FuncOf(a).results)
  }

  /** An instruction that calls nothing takes the driver one step on. */
  lemma StepReaches<W(!new)>(
    a: Activation<W>, pc: nat, st: State<World<W>>, pc1: nat, st1: State<World<W>>)
    requires Runs(a) && st.world.Here? && st1.world.Here? && pc < |EmitBodyOf(a)| && pc1 < |EmitBodyOf(a)|
    requires var x := ExecuteStack(EmitBodyOf(a)[pc], a.rt, BaseOf(a), Placed(a.below, st));
      (x == Exec.Ok(Next, Placed(a.below, st1)) && pc1 == pc + 1) || x == Exec.Ok(JumpTo(pc1), Placed(a.below, st1))
    ensures Leads(a, 1, 0, pc, st, pc1, st1) && Reaches(a, pc, st, pc1, st1)
  {
    hide ExecuteStack, EmitBodyOf, Gets, AlwaysUnrolls;
    ExecutesAs(a, pc, Placed(a.below, st));
    QuietUnrolls(a.e, a.g, pc, BaseOf(a), Placed(a.below, st), pc1, Placed(a.below, st1), a.depth);
    GetsOne(a.e, 0, a.g, pc, BaseOf(a), Placed(a.below, st), pc1, Placed(a.below, st1), a.depth);
  }

  lemma TrapUnwinds<W(!new)>(a: Activation<W>, pc: nat, st: State<World<W>>, w: W)
    requires Runs(a) && st.world.Here? && pc < |EmitBodyOf(a)|
    requires var x := ExecuteStack(EmitBodyOf(a)[pc], a.rt, BaseOf(a), Placed(a.below, st));
      x.Trap? && x.store.rest == w
    ensures UnwindsWith(a, 1, pc, st, w)
  {
    hide ExecuteStack, EmitBodyOf;
    ExecutesAs(a, pc, Placed(a.below, st));
  }

  // ------------------------------------------------------------------ one operator, on both sides

  /** The stack machine does to the placed state what the reference does to the state. */
  ghost predicate StepAgrees<W>(
    a: Activation<W>, r: Outcome<State<World<W>>, World<W>>, x: Exec<StackBase, StackStore<W>>)
    requires a.g < |a.funcs| && a.funcs[a.g].Function?
  {
    match r
    case Goes(st1) => Holds(a, st1) && x == Exec.Ok(Next, Placed(a.below, st1))
    case Trapped(Here(w)) => x.Trap? && x.store.rest == w
    case Trapped(Lost) => false
  }

  predicate CallsLocal<W>(a: Activation<W>, op: Op) {
    op.Invoke? && a.rt.imports <= op.callee
  }

  lemma OpAgrees<W(!new)>(a: Activation<W>, op: Op, st: State<World<W>>)
    requires Runs(a) && Holds(a, st) && Valid(op, |st.locals|, |st.stack|) && CallsOk(a.funcs, op)
    requires !CallsLocal(a, op)
    ensures StepAgrees(a, StackStep(EffectsOf(a), op, st), ExecuteStackOp(op, a.rt, BaseOf(a), Placed(a.below, st)))
  {
    hide StackProgramOk, RealizesStack, OffsetsParallel, StackStep, ExecuteStackOp, StepAgrees, CallsOk;
    RunsFacts(a);
    match op
    case Const(_) => MoveAgrees(a, op, st);
    case Drop => MoveAgrees(a, op, st);
    case LocalGet(_) => LocalAgrees(a, op, st);
    case LocalSet(_) => LocalAgrees(a, op, st);
    case LocalTee(_) => LocalAgrees(a, op, st);
    case Apply(_, _, _) => ApplyAgrees(a, op, st);
    case Invoke(_, _, _) => HostAgrees(a, op, st);
  }

  lemma MoveAgrees<W>(a: Activation<W>, op: Op, st: State<World<W>>)
    requires a.g < |a.funcs| && a.funcs[a.g].Function? && Holds(a, st) && Valid(op, |st.locals|, |st.stack|)
    requires op.Const? || op.Drop?
    ensures StepAgrees(a, StackStep(EffectsOf(a), op, st), ExecuteStackOp(op, a.rt, BaseOf(a), Placed(a.below, st)))
  {
    var s, n := Placed(a.below, st), |st.stack|;
    if op.Drop? {
      assert s.slots[..|s.slots| - 1] == a.below + st.locals + st.stack[..n - 1];
    } else {
      assert s.slots + [Untag(op.c)] == a.below + st.locals + (st.stack + [Untag(op.c)]);
    }
  }

  lemma LocalAgrees<W>(a: Activation<W>, op: Op, st: State<World<W>>)
    requires a.g < |a.funcs| && a.funcs[a.g].Function? && Holds(a, st) && Valid(op, |st.locals|, |st.stack|)
    requires op.LocalGet? || op.LocalSet? || op.LocalTee?
    ensures StepAgrees(a, StackStep(EffectsOf(a), op, st), ExecuteStackOp(op, a.rt, BaseOf(a), Placed(a.below, st)))
  {
    var s, n, i := Placed(a.below, st), |st.stack|, op.index;
    assert s.slots[|a.below| + i] == st.locals[i];
    if op.LocalGet? {
      assert s.slots + [st.locals[i]] == a.below + st.locals + (st.stack + [st.locals[i]]);
    } else {
      var top := st.stack[n - 1];
      assert s.slots[|s.slots| - 1] == top;
      if op.LocalSet? {
        assert s.slots[..|s.slots| - 1][|a.below| + i := top]
            == a.below + st.locals[i := top] + st.stack[..n - 1];
      } else {
        assert s.slots[|a.below| + i := top] == a.below + st.locals[i := top] + st.stack;
      }
    }
  }

  /** The top `n` slots are the top `n` operands. */
  lemma TopSlots<W>(a: Activation<W>, st: State<World<W>>, n: nat, rs: seq<Value>)
    requires st.world.Here? && n <= |st.stack|
    ensures var slots := Placed(a.below, st).slots;
      && slots[|slots| - n..] == st.stack[|st.stack| - n..]
      && slots[..|slots| - n] + rs == a.below + st.locals + (st.stack[..|st.stack| - n] + rs)
  {
    var slots := Placed(a.below, st).slots;
    assert slots[..|slots| - n] == a.below + st.locals + st.stack[..|st.stack| - n];
  }

  lemma ApplyAgrees<W>(a: Activation<W>, op: Op, st: State<World<W>>)
    requires a.g < |a.funcs| && a.funcs[a.g].Function? && Holds(a, st) && Valid(op, |st.locals|, |st.stack|)
    requires op.Apply?
    ensures StepAgrees(a, StackStep(EffectsOf(a), op, st), ExecuteStackOp(op, a.rt, BaseOf(a), Placed(a.below, st)))
  {
    TopSlots(a, st, op.ins, []);
    var answer := a.rt.apply(op.code, st.stack[|st.stack| - op.ins..], st.world.world);
    if answer.0.Some? {
      TopSlots(a, st, op.ins, answer.0.value);
    }
  }

  lemma HostAgrees<W>(a: Activation<W>, op: Op, st: State<World<W>>)
    requires a.g < |a.funcs| && a.funcs[a.g].Function? && Holds(a, st) && Valid(op, |st.locals|, |st.stack|)
    requires op.Invoke? && op.callee < a.rt.imports && ImportsFirst(a.funcs, a.rt)
    ensures StepAgrees(a, StackStep(EffectsOf(a), op, st), ExecuteStackOp(op, a.rt, BaseOf(a), Placed(a.below, st)))
  {
    hide CallWithin;
    TopSlots(a, st, op.params, []);
    var answer := a.rt.host(op.callee, st.stack[|st.stack| - op.params..], st.world.world);
    if answer.0.Some? {
      TopSlots(a, st, op.params, answer.0.value);
    }
  }

  lemma KeepsEnds(below: seq<Value>, locals: seq<Value>, stack: seq<Value>, height: nat, arity: nat)
    requires height + arity <= |stack|
    ensures var slots, base := below + locals + stack, |below| + |locals| + height;
      slots[..base] + slots[|slots| - arity..] == below + locals + (stack[..height] + stack[|stack| - arity..])
  {
    var slots := below + locals + stack;
    assert slots[..|below| + |locals| + height] == below + locals + stack[..height];
    assert slots[|slots| - arity..] == stack[|stack| - arity..];
  }

  /** A taken branch unwinds the placed state as the reference unwinds the state. */
  lemma LeapAgrees<W>(a: Activation<W>, st: State<World<W>>, target: nat, arity: nat, height: nat)
    requires a.g < |a.funcs| && a.funcs[a.g].Function? && Holds(a, st) && height + arity <= |st.stack|
    ensures Holds(a, Unwind(st, height, arity))
    ensures Leap(target, arity, BaseOf(a).operandBase + height, Placed(a.below, st))
         == Exec.Ok(JumpTo(target), Placed(a.below, Unwind(st, height, arity)))
  {
    KeepsEnds(a.below, st.locals, st.stack, height, arity);
  }

  // ------------------------------------------------------------------ the simulation

  ghost function HeightsOf<W(!new)>(a: Activation<W>): seq<Option<int>>
    requires Runs(a)
  {
    BodyHeights(FuncOf(a).body, FuncOf(a).results)
  }

  /** The body has `cs` at `at`, validated inside `labels` from the height `st` has. */
  ghost predicate AtCode<W(!new)>(
    a: Activation<W>, cs: seq<Ctl>, at: nat, labels: seq<Label>, exits: seq<Exit>, height: nat)
    requires Runs(a)
  {
    && labels != [] && DepthsOk(cs, |exits|) && SeqCallsOk(a.funcs, cs)
    && ExitsMatch(labels, exits, HeightsOf(a))
    && EmittedAt(EmitBodyOf(a), HeightsOf(a), cs, at, exits, Track(height, false))
    && HeightAfterSeq(cs, |FuncOf(a).locals|, labels, height) != Invalid
  }

  /** The same of one construct or operator that control goes on from. */
  ghost predicate AtOne<W(!new)>(
    a: Activation<W>, c: Ctl, at: nat, labels: seq<Label>, exits: seq<Exit>, height: nat)
    requires Runs(a)
  {
    && labels != [] && DepthsOkOne(c, |exits|) && OneCallsOk(a.funcs, c)
    && ExitsMatch(labels, exits, HeightsOf(a))
    && EmittedOneAt(EmitBodyOf(a), HeightsOf(a), c, at, exits, Track(height, false))
    && HeightAfterOne(c, |FuncOf(a).locals|, labels, height).Live?
  }

  /** A run that falls through leaves the height validation expects. */
  predicate LeavesHeight<W>(flow: Flow<W>, h: Height) {
    flow.Fall? ==> h == Live(|flow.state.stack|)
  }

  lemma AtFirst<W(!new)>(
    a: Activation<W>, cs: seq<Ctl>, at: nat, labels: seq<Label>, exits: seq<Exit>, height: nat)
    requires Runs(a) && AtCode(a, cs, at, labels, exits, height) && cs != [] && !cs[0].Br? && !cs[0].Unreachable?
    ensures AtOne(a, cs[0], at, labels, exits, height)
    ensures var h := HeightAfterOne(cs[0], |FuncOf(a).locals|, labels, height).height;
      && AtCode(a, cs[1..], at + SizeOne(cs[0]), labels, exits, h)
      && HeightAfterSeq(cs, |FuncOf(a).locals|, labels, height)
         == HeightAfterSeq(cs[1..], |FuncOf(a).locals|, labels, h)
      && at + Size(cs) == at + SizeOne(cs[0]) + Size(cs[1..])
  {
    hide StackProgramOk, RealizesStack, OffsetsParallel, Emit, Heights, EmittedAt, EmittedOneAt, HeightAfterOne,
         ExitsMatch, CallsOk, EmitBodyOf, HeightsOf;
    var t := Track(height, false);
    EmittedInTurn(EmitBodyOf(a), HeightsOf(a), cs, at, exits, t);
    TrackIsHeight(cs[0], |FuncOf(a).locals|, labels, t);
  }

  /** A sequence of lowered code does what the sequence means, in every context of open labels. */
  lemma {:induction false} SeqDrives<W(!new)>(
    a: Activation<W>, cs: seq<Ctl>, at: nat, labels: seq<Label>, exits: seq<Exit>, fuel: nat, st: State<World<W>>)
    requires Runs(a) && Holds(a, st) && AtCode(a, cs, at, labels, exits, |st.stack|)
    ensures var flow := RunSeq(EffectsOf(a), fuel, cs, st);
      && Drives(a, flow, exits, fuel, at, st, at + Size(cs))
      && LeavesHeight(flow, HeightAfterSeq(cs, |FuncOf(a).locals|, labels, |st.stack|))
    decreases Remaining(a.e.maxDepth, a.depth), fuel, cs, 0
  {
    hide StackProgramOk, RealizesStack, OffsetsParallel, AtCode, AtOne, HeightAfterOne, EffectsOf, Reaches,
         UnwindsWith, GoesOnFor, EmitBodyOf, HeightsOf, RunOne;
    if cs == [] {
      ReachesSelf(a, at, st);
    } else if cs[0].Br? || cs[0].Unreachable? {
      StopDrives(a, cs, at, labels, exits, fuel, st);
    } else {
      AtFirst(a, cs, at, labels, exits, |st.stack|);
      OneDrives(a, cs[0], at, labels, exits, fuel, st);
      var flow := RunOne(EffectsOf(a), fuel, cs[0], st);
      if flow.Fall? {
        var at1 := at + SizeOne(cs[0]);
        SeqDrives(a, cs[1..], at1, labels, exits, fuel, flow.state);
        DrivesBefore(a, RunSeq(EffectsOf(a), fuel, cs[1..], flow.state), exits, fuel, at, st, at1, flow.state,
                     at + Size(cs));
      }
    }
  }

  lemma StopDrives<W(!new)>(
    a: Activation<W>, cs: seq<Ctl>, at: nat, labels: seq<Label>, exits: seq<Exit>, fuel: nat, st: State<World<W>>)
    requires Runs(a) && Holds(a, st) && AtCode(a, cs, at, labels, exits, |st.stack|)
    requires cs != [] && (cs[0].Br? || cs[0].Unreachable?)
    ensures Drives(a, RunSeq(EffectsOf(a), fuel, cs, st), exits, fuel, at, st, at + Size(cs))
    ensures !RunSeq(EffectsOf(a), fuel, cs, st).Fall?
  {
    hide StackProgramOk, RealizesStack, OffsetsParallel, Emit, Heights, Reaches, UnwindsWith, EffectsOf, Leads;
    var c := cs[0];
    EmittedInTurn(EmitBodyOf(a), HeightsOf(a), cs, at, exits, Track(|st.stack|, false));
    assert EmitBodyOf(a)[at] == EmitBodyOf(a)[at..at + 1][0];
    if c.Br? {
      var x := ExitAt(exits, c.depth);
      LeapAgrees(a, st, x.target, x.arity, x.height);
      StepReaches(a, at, st, x.target, Unwind(st, x.height, x.arity));
    } else {
      TrapUnwinds(a, at, st, st.world.world);
    }
  }

  lemma {:induction false} OneDrives<W(!new)>(
    a: Activation<W>, c: Ctl, at: nat, labels: seq<Label>, exits: seq<Exit>, fuel: nat, st: State<World<W>>)
    requires Runs(a) && Holds(a, st) && AtOne(a, c, at, labels, exits, |st.stack|) && !c.Br? && !c.Unreachable?
    ensures var flow := RunOne(EffectsOf(a), fuel, c, st);
      && Drives(a, flow, exits, fuel, at, st, at + SizeOne(c))
      && LeavesHeight(flow, HeightAfterOne(c, |FuncOf(a).locals|, labels, |st.stack|))
    decreases Remaining(a.e.maxDepth, a.depth), fuel, c, 0
  {
    hide StackProgramOk, RealizesStack, OffsetsParallel, AtOne, EffectsOf, Drives, HeightAfterOne, RunOne,
         LeavesHeight, Holds, CallsLocal;
    match c
    case Plain(op) =>
      if CallsLocal(a, op) {
        CallingDrives(a, op, at, labels, exits, fuel, st);
      } else {
        PlainDrives(a, op, at, labels, exits, fuel, st);
      }
    case BrIf(_) => BrIfDrives(a, c, at, labels, exits, fuel, st);
    case Block(_, _, _) => BlockDrives(a, c, at, labels, exits, fuel, st);
    case Loop(_, _, _) => LoopDrives(a, c, at, labels, exits, fuel, st);
  }

  lemma PlainDrives<W(!new)>(
    a: Activation<W>, op: Op, at: nat, labels: seq<Label>, exits: seq<Exit>, fuel: nat, st: State<World<W>>)
    requires Runs(a) && Holds(a, st) && AtOne(a, Plain(op), at, labels, exits, |st.stack|) && !CallsLocal(a, op)
    ensures var flow := RunOne(EffectsOf(a), fuel, Plain(op), st);
      && Drives(a, flow, exits, fuel, at, st, at + 1)
      && LeavesHeight(flow, HeightAfterOne(Plain(op), |FuncOf(a).locals|, labels, |st.stack|))
  {
    hide StackProgramOk, RealizesStack, OffsetsParallel, Reaches, UnwindsWith, EffectsOf, Leads, StackStep,
         ExecuteStackOp, CallsOk;
    assert EmitBodyOf(a)[at] == EmitBodyOf(a)[at..at + 1][0];
    OpAgrees(a, op, st);
    StackStepShape(EffectsOf(a), op, st);
    var r: Outcome<State<World<W>>, World<W>> := StackStep(EffectsOf(a), op, st);
    match r
    case Goes(st1) => StepReaches(a, at, st, at + 1, st1);
    case Trapped(Here(w)) => TrapUnwinds(a, at, st, w);
  }

  lemma BrIfDrives<W(!new)>(
    a: Activation<W>, c: Ctl, at: nat, labels: seq<Label>, exits: seq<Exit>, fuel: nat, st: State<World<W>>)
    requires Runs(a) && Holds(a, st) && c.BrIf? && AtOne(a, c, at, labels, exits, |st.stack|)
    ensures var flow := RunOne(EffectsOf(a), fuel, c, st);
      && Drives(a, flow, exits, fuel, at, st, at + 1)
      && LeavesHeight(flow, HeightAfterOne(c, |FuncOf(a).locals|, labels, |st.stack|))
  {
    hide StackProgramOk, RealizesStack, OffsetsParallel, Reaches, UnwindsWith, EffectsOf, Leads, Leap;
    assert EmitBodyOf(a)[at] == EmitBodyOf(a)[at..at + 1][0];
    var rest := st.(stack := st.stack[..|st.stack| - 1]);
    TopSlots(a, st, 1, []);
    var placed := Placed(a.below, st);
    assert Placed(a.below, rest) == placed.(slots := placed.slots[..|placed.slots| - 1]);
    assert Placed(a.below, st).slots[|Placed(a.below, st).slots| - 1] == st.stack[|st.stack| - 1];
    if IsTrue(st.stack[|st.stack| - 1]) {
      var x := ExitAt(exits, c.depth);
      LeapAgrees(a, rest, x.target, x.arity, x.height);
      StepReaches(a, at, st, x.target, Unwind(rest, x.height, x.arity));
    } else {
      StepReaches(a, at, st, at + 1, rest);
    }
  }

  // ------------------------------------------------------------------ constructs

  /** The label of a construct, as validation and as the pass know it. */
  function LabelOf(c: Ctl, height: nat): Label
    requires (c.Block? || c.Loop?) && c.params <= height
  {
    Label(height - c.params, if c.Block? then c.results else c.params, c.results)
  }

  function ExitOf(c: Ctl, at: nat, height: nat): Exit
    requires c.Block? || c.Loop?
  {
    Exit(if c.Block? then at + 1 + Size(c.body) else at, if c.Block? then c.results else c.params, height - c.params)
  }

  /** Inside a construct. */
  lemma AtBody<W(!new)>(
    a: Activation<W>, c: Ctl, at: nat, labels: seq<Label>, exits: seq<Exit>, height: nat)
    requires Runs(a) && (c.Block? || c.Loop?) && AtOne(a, c, at, labels, exits, height)
    ensures c.params <= height
    ensures var lab, x, end, after := LabelOf(c, height), ExitOf(c, at, height), at + 1 + Size(c.body),
      height - c.params + c.results;
      && AtCode(a, c.body, at + 1, labels + [lab], exits + [x], height)
      && end + 1 == at + SizeOne(c) && end + 1 < |EmitBodyOf(a)|
      && EmitBodyOf(a)[at] == (if c.Block? then IBlock else ILoop)
      && EmitBodyOf(a)[end] == IEnd(c.results, height - c.params)
      && HeightAfterOne(c, |FuncOf(a).locals|, labels, height) == Live(after)
      && (HeightAfterSeq(c.body, |FuncOf(a).locals|, labels + [lab], height) == Live(after)
          || HeightAfterSeq(c.body, |FuncOf(a).locals|, labels + [lab], height) == Dead)
  {
    hide StackProgramOk, RealizesStack, OffsetsParallel, Emit, Heights, EmitOne, HeightsOne, EmittedAt, EmittedOneAt,
         HeightAfterSeq, CallsOk, Size, EmitBodyOf, HeightsOf;
    ConstructAt(EmitBodyOf(a), HeightsOf(a), c, at, exits, Track(height, false), ExitOf(c, at, height));
    ExitsMatchInside(labels, exits, HeightsOf(a), LabelOf(c, height), ExitOf(c, at, height));
  }

  /** From a construct's end, at the height it asserts, control goes on past it. */
  lemma EndReaches<W(!new)>(
    a: Activation<W>, c: Ctl, end: nat, height: nat, st: State<World<W>>)
    requires Runs(a) && Holds(a, st) && (c.Block? || c.Loop?) && c.params <= height
    requires end + 1 < |EmitBodyOf(a)| && EmitBodyOf(a)[end] == IEnd(c.results, height - c.params)
    requires |st.stack| == height - c.params + c.results
    ensures Reaches(a, end, st, end + 1, st)
  {
    hide StackProgramOk, RealizesStack, OffsetsParallel, EmitBodyOf, Leads;
    StepReaches(a, end, st, end + 1, st);
  }

  /** Control at a construct's end, with its results, goes past the end. */
  lemma FallsOut<W(!new)>(
    a: Activation<W>, c: Ctl, at: nat, labels: seq<Label>, exits: seq<Exit>, height: nat, st: State<World<W>>,
    st1: State<World<W>>)
    requires Runs(a) && Holds(a, st) && (c.Block? || c.Loop?) && AtOne(a, c, at, labels, exits, height)
    requires Holds(a, st1) && c.params <= height && |st1.stack| == height - c.params + c.results
    requires Reaches(a, at + 1, st, at + 1 + Size(c.body), st1)
    ensures Reaches(a, at + 1, st, at + SizeOne(c), st1)
    ensures HeightAfterOne(c, |FuncOf(a).locals|, labels, height) == Live(|st1.stack|)
  {
    hide StackProgramOk, RealizesStack, OffsetsParallel, AtOne, HeightAfterOne, HeightAfterSeq, EmitBodyOf, HeightsOf,
         Reaches, AtCode, Size, SizeOne, Runs, Holds, FuncOf;
    AtBody(a, c, at, labels, exits, height);
    var end := at + 1 + Size(c.body);
    EndReaches(a, c, end, height, st1);
    HereIs(a, st, st1);
    ReachesThrough(a, at + 1, st, end, st1, end + 1, st1);
  }

  lemma HereIs<W(!new)>(a: Activation<W>, st: State<World<W>>, st1: State<World<W>>)
    requires Runs(a) && Holds(a, st) && Holds(a, st1)
    ensures st.world.Here? && st1.world.Here?
  {
  }

  /** A branch out of a construct, to a label around it. */
  lemma JumpsOut<W(!new)>(
    a: Activation<W>, exits: seq<Exit>, x: Exit, fuel: nat, d: nat, st: State<World<W>>, st1: State<World<W>>, pc: nat,
    next: nat, next': nat)
    requires Runs(a) && st.world.Here? && d != 0
    requires Drives(a, Flow<World<W>>.Jump(d, st1), exits + [x], fuel, pc, st, next)
    ensures Drives(a, Flow<World<W>>.Jump(d - 1, st1), exits, fuel, pc, st, next')
  {
    hide StackProgramOk, RealizesStack, OffsetsParallel, Reaches;
    assert ExitAt(exits + [x], d) == ExitAt(exits, d - 1);
  }

  /**
   What is driven of a construct's body, up to its end, is driven of the construct: falling through
   goes past the end, and a branch to a block's own label arrives there too.
   */
  lemma OutOf<W(!new)>(
    a: Activation<W>, c: Ctl, at: nat, labels: seq<Label>, exits: seq<Exit>, fuel: nat, height: nat,
    flow: Flow<World<W>>, st: State<World<W>>)
    requires Runs(a) && Holds(a, st) && (c.Block? || c.Loop?) && AtOne(a, c, at, labels, exits, height)
    requires c.params <= height && (c.Loop? ==> !flow.Jump? || flow.depth != 0)
    requires Drives(a, flow, exits + [ExitOf(c, at, height)], fuel, at + 1, st, at + 1 + Size(c.body))
    requires LeavesHeight(flow,
      HeightAfterSeq(c.body, |FuncOf(a).locals|, labels + [LabelOf(c, height)], height))
    ensures var out := Leave(flow, height - c.params, c.results);
      && Drives(a, out, exits, fuel, at + 1, st, at + SizeOne(c))
      && LeavesHeight(out, HeightAfterOne(c, |FuncOf(a).locals|, labels, height))
  {
    hide StackProgramOk, RealizesStack, OffsetsParallel, AtOne, HeightAfterOne, HeightAfterSeq, UnwindsWith, Leads,
         GoesOnFor, EmitBodyOf, HeightsOf, Reaches, AtCode, Size, SizeOne;
    match flow
    case Fall(st1) =>
      AtBody(a, c, at, labels, exits, height);
      FallsOut(a, c, at, labels, exits, height, st, st1);
    case Jump(d, st1) =>
      if d == 0 {
        FallsOut(a, c, at, labels, exits, height, st, Unwind(st1, height - c.params, c.results));
      } else {
        JumpsOut(a, exits, ExitOf(c, at, height), fuel, d, st, st1, at + 1, at + 1 + Size(c.body), at + SizeOne(c));
      }
    case _ =>
  }

  lemma {:induction false} BlockDrives<W(!new)>(
    a: Activation<W>, c: Ctl, at: nat, labels: seq<Label>, exits: seq<Exit>, fuel: nat, st: State<World<W>>)
    requires Runs(a) && Holds(a, st) && c.Block? && AtOne(a, c, at, labels, exits, |st.stack|)
    ensures var flow := RunOne(EffectsOf(a), fuel, c, st);
      && Drives(a, flow, exits, fuel, at, st, at + SizeOne(c))
      && LeavesHeight(flow, HeightAfterOne(c, |FuncOf(a).locals|, labels, |st.stack|))
    decreases Remaining(a.e.maxDepth, a.depth), fuel, c.body, 1
  {
    hide StackProgramOk, RealizesStack, OffsetsParallel, AtOne, HeightAfterOne, HeightAfterSeq, EffectsOf, Drives,
         EmitBodyOf, HeightsOf, Reaches, AtCode, Size, SizeOne, LeavesHeight, RunSeq, Leads;
    var height := |st.stack|;
    AtBody(a, c, at, labels, exits, height);
    var lab, x := LabelOf(c, height), ExitOf(c, at, height);
    StepReaches(a, at, st, at + 1, st);
    SeqDrives(a, c.body, at + 1, labels + [lab], exits + [x], fuel, st);
    var flow := RunSeq(EffectsOf(a), fuel, c.body, st);
    OutOf(a, c, at, labels, exits, fuel, height, flow, st);
    DrivesBefore(a, Leave(flow, height - c.params, c.results), exits, fuel, at, st, at + 1, st, at + SizeOne(c));
  }

  lemma {:induction false} LoopDrives<W(!new)>(
    a: Activation<W>, c: Ctl, at: nat, labels: seq<Label>, exits: seq<Exit>, fuel: nat, st: State<World<W>>)
    requires Runs(a) && Holds(a, st) && c.Loop? && AtOne(a, c, at, labels, exits, |st.stack|)
    ensures var flow := RunOne(EffectsOf(a), fuel, c, st);
      && Drives(a, flow, exits, fuel, at, st, at + SizeOne(c))
      && LeavesHeight(flow, HeightAfterOne(c, |FuncOf(a).locals|, labels, |st.stack|))
    decreases Remaining(a.e.maxDepth, a.depth), fuel, c.body, 1
  {
    hide StackProgramOk, RealizesStack, OffsetsParallel, AtOne, HeightAfterOne, HeightAfterSeq, EffectsOf, Drives,
         EmitBodyOf, HeightsOf, Reaches, AtCode, Size, SizeOne, RunSeq, Leads;
    var height := |st.stack|;
    AtBody(a, c, at, labels, exits, height);
    var lab, x := LabelOf(c, height), ExitOf(c, at, height);
    StepReaches(a, at, st, at + 1, st);
    SeqDrives(a, c.body, at + 1, labels + [lab], exits + [x], fuel, st);
    var inner := RunSeq(EffectsOf(a), fuel, c.body, st);
    LoopIs(EffectsOf(a), fuel, c, st);
    if inner.Jump? && inner.depth == 0 {
      var st1 := Unwind(inner.state, height - c.params, c.params);
      BackAtHead(a, c, at, exits, fuel, height, inner, st);
      if fuel == 0 {
        NotYetDriven(a, exits, at, st, at + SizeOne(c));
      } else {
        LoopDrives(a, c, at, labels, exits, fuel - 1, st1);
        LoopsOn(a, RunOne(EffectsOf(a), fuel - 1, c, st1), exits, fuel, at, st, st1, at + SizeOne(c));
      }
    } else {
      OutOf(a, c, at, labels, exits, fuel, height, inner, st);
      LeavesLoop(inner, height - c.params, c.results);
      DrivesBefore(a, Leave(inner, height - c.params, c.results), exits, fuel, at, st, at + 1, st, at + SizeOne(c));
    }
  }

  /** A loop, from its head: its body, and again if a branch named the loop. */
  lemma LoopIs<W>(fx: Effects<W>, fuel: nat, c: Ctl, st: State<W>)
    requires c.Loop? && c.params <= |st.stack|
    ensures var base, inner := |st.stack| - c.params, RunSeq(fx, fuel, c.body, st);
      RunOne(fx, fuel, c, st) ==
        if inner.Jump? && inner.depth == 0 then
          if fuel == 0 then Flow.OutOfFuel
          else if base + c.params <= |inner.state.stack| then
            RunOne(fx, fuel - 1, c, Unwind(inner.state, base, c.params))
          else RunLoop(fx, fuel - 1, c.body, base, c.params, inner.state)
        else Leave(inner, base, c.results)
  {
    hide RunSeq;
  }

  lemma LeavesLoop<W>(inner: Flow<W>, base: nat, arity: nat)
    requires !inner.Jump? || inner.depth != 0
    ensures Leave(inner, base, arity) == if inner.Jump? then Jump(inner.depth - 1, inner.state) else inner
  {
  }

  /** A branch to the loop is back at its head with the loop's operands. */
  lemma BackAtHead<W(!new)>(
    a: Activation<W>, c: Ctl, at: nat, exits: seq<Exit>, fuel: nat, height: nat, inner: Flow<World<W>>,
    st: State<World<W>>)
    requires Runs(a) && st.world.Here? && c.Loop? && c.params <= height && inner.Jump? && inner.depth == 0
    requires Drives(a, inner, exits + [ExitOf(c, at, height)], fuel, at + 1, st, at + 1 + Size(c.body))
    ensures var st1 := Unwind(inner.state, height - c.params, c.params);
      Holds(a, st1) && |st1.stack| == height && height <= |inner.state.stack| && Reaches(a, at + 1, st, at, st1)
  {
    hide StackProgramOk, RealizesStack, OffsetsParallel, Reaches, Size;
  }

  lemma NotYetDriven<W(!new)>(a: Activation<W>, exits: seq<Exit>, pc: nat, st: State<World<W>>, next: nat)
    requires Runs(a) && st.world.Here?
    ensures Drives(a, Flow.OutOfFuel, exits, 0, pc, st, next)
  {
    hide StackProgramOk, RealizesStack, OffsetsParallel;
    NotYet(a.e, a.g, pc, BaseOf(a), Placed(a.below, st), a.depth);
  }

  /** Another round of a loop takes at least an instruction, which pays for the round's fuel. */
  lemma LoopsOn<W(!new)>(
    a: Activation<W>, flow: Flow<World<W>>, exits: seq<Exit>, fuel: nat, at: nat, st: State<World<W>>,
    st1: State<World<W>>, next: nat)
    requires Runs(a) && st.world.Here? && st1.world.Here? && 0 < fuel
    requires Leads(a, 1, 0, at, st, at + 1, st) && Reaches(a, at + 1, st, at, st1)
    requires Drives(a, flow, exits, fuel - 1, at, st1, next)
    ensures Drives(a, flow, exits, fuel, at, st, next)
  {
    hide StackProgramOk, RealizesStack, OffsetsParallel, UnwindsWith, Leads, GoesOnFor;
    assert Reaches(a, at, st, at + 1, st);
    DrivesBefore(a, flow, exits, fuel - 1, at + 1, st, at, st1, next);
    DrivesBefore(a, flow, exits, fuel - 1, at, st, at + 1, st, next);
    if flow.OutOfFuel? {
      GoesOnThrough(a, fuel - 1, 1, 0, at, st, at + 1, st);
    }
  }

  // ------------------------------------------------------------------ calls

  ghost predicate CallUnwindsWith<W(!new)>(
    e: StackEnv<W>, n: nat, g: nat, b: StackBase, s: StackStore<W>, depth: nat, w: W)
    requires OffsetsParallel(e.program)
  {
    NativeCall(e, n, g, b, s, depth).Unwound? && NativeCall(e, n, g, b, s, depth).store.rest == w
  }

  ghost predicate CallReturnsWith<W(!new)>(
    e: StackEnv<W>, n: nat, g: nat, b: StackBase, s: StackStore<W>, depth: nat, rs: seq<Value>, w: W)
    requires OffsetsParallel(e.program)
  {
    b.baseHeight <= |s.slots| &&
    NativeCall(e, n, g, b, s, depth) == Returned(StackStore(s.slots[..b.baseHeight] + rs, w), depth)
  }

  /**
   The recursive driver, on a call, does what the reference replied: the results take the place of
   the arguments and nothing else changes, or it fails with the same effects; while the reference
   is unfinished, so is it.
   */
  ghost predicate StackCallSettles<W(!new)>(
    e: StackEnv<W>, fuel: nat, g: nat, b: StackBase, s: StackStore<W>, depth: nat, results: nat, reply: Reply<W>)
    requires OffsetsParallel(e.program)
  {
    match reply
    case Answered(rs, w) => |rs| == results && exists n: nat :: CallReturnsWith(e, n, g, b, s, depth, rs, w)
    case Stuck(w) => exists n: nat :: CallUnwindsWith(e, n, g, b, s, depth, w)
    case Unfinished => forall m: nat :: m <= fuel ==> NativeCall(e, m, g, b, s, depth).OutOfFuel?
  }

  /** What the reference replies to a call the activation makes. */
  ghost function ReplyTo<W(!new)>(a: Activation<W>, op: Op, st: State<World<W>>): Reply<W>
    requires st.world.Here? && op.Invoke? && op.params <= |st.stack|
  {
    CallWithin(a.funcs, a.rt, a.fuel, Remaining(a.e.maxDepth, a.depth) - 1, op.callee,
               st.stack[|st.stack| - op.params..], st.world.world)
  }

  /** What the activation's reference makes of the reply. */
  lemma ReplyIs<W(!new)>(a: Activation<W>, op: Op, st: State<World<W>>, fuel: nat)
    requires Runs(a) && Holds(a, st) && CallsLocal(a, op) && CallsOk(a.funcs, op) && op.params <= |st.stack|
    requires ReplyTo(a, op, st).Answered? ==> |ReplyTo(a, op, st).results| == op.results
    ensures RunOne(EffectsOf(a), fuel, Plain(op), st) ==
      match ReplyTo(a, op, st)
      case Answered(rs, w) => Flow.Fall(State(st.locals, st.stack[..|st.stack| - op.params] + rs, Here(w)))
      case Stuck(w) => Stopped(Here(w))
      case Unfinished => Stopped(Lost)
  {
    hide CallWithin, StackProgramOk, RealizesStack, OffsetsParallel, Runs;
    var args, w := st.stack[|st.stack| - op.params..], st.world.world;
    EffectIs(a, op, args, w);
    assert st.world == Here(w);
  }

  lemma EffectIs<W(!new)>(a: Activation<W>, op: Op, args: seq<Value>, w: W)
    requires Runs(a) && CallsLocal(a, op) && CallsOk(a.funcs, op)
    ensures EffectsOf(a).call(op.callee, args, Here(w))
         == Delivery(CallWithin(a.funcs, a.rt, a.fuel, Remaining(a.e.maxDepth, a.depth) - 1, op.callee, args, w))
  {
    hide CallWithin, StackProgramOk, RealizesStack, OffsetsParallel;
    RunsFacts(a);
    var d := Remaining(a.e.maxDepth, a.depth);
    assert !Imported(a.funcs, op.callee);
    WithinCalls(a.funcs, a.rt, a.fuel, d, op.callee, args, w);
  }

  lemma WithinCalls<W>(
    funcs: seq<StructuredFunc>, rt: Runtime<W>, fuel: nat, d: nat, g: nat, args: seq<Value>, w: W)
    requires 0 < d && !Imported(funcs, g)
    ensures Within(funcs, rt, fuel, d).call(g, args, Here(w))
         == Delivery(CallWithin(funcs, rt, fuel, d - 1, g, args, w))
  {
    hide CallWithin;
  }

  /** The call instruction, as the driver sees it. */
  lemma CallingAt<W(!new)>(
    a: Activation<W>, op: Op, at: nat, labels: seq<Label>, exits: seq<Exit>, st: State<World<W>>)
    requires Runs(a) && Holds(a, st) && AtOne(a, Plain(op), at, labels, exits, |st.stack|) && CallsLocal(a, op)
    ensures op.params <= |st.stack| && CallsOk(a.funcs, op) && at + 1 < |EmitBodyOf(a)|
    ensures HeightAfterOne(Plain(op), |FuncOf(a).locals|, labels, |st.stack|)
         == Live(|st.stack| - op.params + op.results)
    ensures var s, body := Placed(a.below, st), BodyOf(a.e.program, a.g);
      && |body.instructions| == |EmitBodyOf(a)|
      && a.e.machine.execute(body.instructions[at], body.layout, BaseOf(a), s)
         == Exec.Ok(Step.Call(op.callee, StackBase(|s.slots| - op.params, UNSET), None), s)
  {
    hide StackProgramOk, RealizesStack, OffsetsParallel;
    assert EmitBodyOf(a)[at] == EmitBodyOf(a)[at..at + 1][0];
    ExecutesAs(a, at, Placed(a.below, st));
  }

  /** A call of a local function, when the callee's reply is known to be met. */
  lemma {:induction false} CallingDrives<W(!new)>(
    a: Activation<W>, op: Op, at: nat, labels: seq<Label>, exits: seq<Exit>, fuel: nat, st: State<World<W>>)
    requires Runs(a) && Holds(a, st) && AtOne(a, Plain(op), at, labels, exits, |st.stack|) && CallsLocal(a, op)
    ensures var flow := RunOne(EffectsOf(a), fuel, Plain(op), st);
      && Drives(a, flow, exits, fuel, at, st, at + 1)
      && LeavesHeight(flow, HeightAfterOne(Plain(op), |FuncOf(a).locals|, labels, |st.stack|))
    decreases Remaining(a.e.maxDepth, a.depth), fuel, op
  {
    hide StackProgramOk, RealizesStack, OffsetsParallel, AtOne, HeightAfterOne, EffectsOf, Reaches, UnwindsWith,
         GoesOnFor, EmitBodyOf, RunOne, CallWithin, NativeCall, NativeLoop, StackCallSettles, CallsOk;
    CallingAt(a, op, at, labels, exits, st);
    var s, h := Placed(a.below, st), op.callee;
    var hb := StackBase(|s.slots| - op.params, UNSET);
    var reply := ReplyTo(a, op, st);
    if a.e.maxDepth <= a.depth {
      NoneLeft(a.funcs, a.rt, a.fuel, h, st.stack[|st.stack| - op.params..], st.world.world);
      ReplyIs(a, op, st, fuel);
      Exhausted(a, at, st, h, hb);
    } else {
      CalleeIs(a, op);
      TopSlots(a, st, op.params, []);
      StackCallDrives(a.e, a.funcs, a.decode, a.rt, a.fuel, h, hb, s, a.depth);
      SettledArity(a, op, h, hb, s, reply);
      ReplyIs(a, op, st, fuel);
      CallSettledDrives(a, op, at, exits, fuel, st, hb, reply);
    }
  }

  lemma SettledArity<W(!new)>(
    a: Activation<W>, op: Op, h: nat, hb: StackBase, s: StackStore<W>, reply: Reply<W>)
    requires OffsetsParallel(a.e.program) && op.Invoke?
    requires StackCallSettles(a.e, a.fuel, h, hb, s, a.depth, op.results, reply)
    ensures reply.Answered? ==> |reply.results| == op.results
  {
  }

  lemma NoneLeft<W>(
    funcs: seq<StructuredFunc>, rt: Runtime<W>, fuel: nat, g: nat, args: seq<Value>, w: W)
    ensures CallWithin(funcs, rt, fuel, 0, g, args, w) == Stuck(w)
  {
  }

  /** A local callee is a function of the program with the call's counts. */
  lemma CalleeIs<W(!new)>(a: Activation<W>, op: Op)
    requires Runs(a) && CallsLocal(a, op) && CallsOk(a.funcs, op)
    ensures op.callee < |a.funcs| && a.funcs[op.callee].Function?
    ensures op.params == a.funcs[op.callee].params && op.results == a.funcs[op.callee].results
  {
    hide StackProgramOk;
    RunsFacts(a);
  }

  lemma Exhausted<W(!new)>(a: Activation<W>, at: nat, st: State<World<W>>, h: nat, hb: StackBase)
    requires Runs(a) && st.world.Here? && at < |BodyOf(a.e.program, a.g).instructions| && a.e.maxDepth <= a.depth
    requires var body := BodyOf(a.e.program, a.g);
      a.e.machine.execute(body.instructions[at], body.layout, BaseOf(a), Placed(a.below, st))
        == Exec.Ok(Step.Call(h, hb, None), Placed(a.below, st))
    ensures UnwindsWith(a, 1, at, st, st.world.world)
  {
    hide StackProgramOk, RealizesStack, OffsetsParallel, NativeCall;
  }

  lemma CallSettledDrives<W(!new)>(
    a: Activation<W>, op: Op, at: nat, exits: seq<Exit>, fuel: nat, st: State<World<W>>, hb: StackBase,
    reply: Reply<W>)
    requires Runs(a) && Holds(a, st) && op.Invoke? && op.params <= |st.stack| && a.depth < a.e.maxDepth
    requires at + 1 < |BodyOf(a.e.program, a.g).instructions|
    requires hb == StackBase(|Placed(a.below, st).slots| - op.params, UNSET)
    requires var body, s := BodyOf(a.e.program, a.g), Placed(a.below, st);
      a.e.machine.execute(body.instructions[at], body.layout, BaseOf(a), s)
        == Exec.Ok(Step.Call(op.callee, hb, None), s)
    requires StackCallSettles(a.e, a.fuel, op.callee, hb, Placed(a.below, st), a.depth, op.results, reply)
    ensures var flow: Flow<World<W>> := match reply
        case Answered(rs, w) => Flow.Fall(State(st.locals, st.stack[..|st.stack| - op.params] + rs, Here(w)))
        case Stuck(w) => Stopped(Here(w))
        case Unfinished => Stopped(Lost);
      Drives(a, flow, exits, fuel, at, st, at + 1)
  {
    hide StackProgramOk, RealizesStack, OffsetsParallel, NativeCall, NativeLoop, Gets, AlwaysUnrolls;
    var s, h := Placed(a.below, st), op.callee;
    match reply
    case Answered(rs, w) =>
      var n: nat :| CallReturnsWith(a.e, n, h, hb, s, a.depth, rs, w);
      var st1 := State(st.locals, st.stack[..|st.stack| - op.params] + rs, Here(w));
      TopSlots(a, st, op.params, rs);
      CallUnrolls(a.e, n, a.g, at, BaseOf(a), s, a.depth, h, hb);
      GetsOne(a.e, n, a.g, at, BaseOf(a), s, at + 1, Placed(a.below, st1), a.depth);
      assert Leads(a, 1, n, at, st, at + 1, st1);
    case Stuck(w) =>
      var n: nat :| CallUnwindsWith(a.e, n, h, hb, s, a.depth, w);
      CallUnwinds(a, n, at, st, h, hb, w);
    case Unfinished => CallGoesOn(a.e, a.fuel, a.g, at, BaseOf(a), s, a.depth, h, hb);
  }

  lemma CallUnwinds<W(!new)>(a: Activation<W>, n: nat, at: nat, st: State<World<W>>, h: nat, hb: StackBase, w: W)
    requires Runs(a) && st.world.Here?
    requires CallsAt(a.e, a.g, at, BaseOf(a), Placed(a.below, st), a.depth, h, hb)
    requires CallUnwindsWith(a.e, n, h, hb, Placed(a.below, st), a.depth, w)
    ensures UnwindsWith(a, n + 1, at, st, w)
  {
    hide StackProgramOk, RealizesStack, OffsetsParallel, NativeCall;
  }

  /** The activation a call enters. */
  function Entered<W>(
    e: StackEnv<W>, funcs: seq<StructuredFunc>, decode: Instr -> StackInstr, rt: Runtime<W>, fuel: nat,
    g: nat, b: StackBase, s: StackStore<W>, depth: nat): Activation<W>
    requires b.baseHeight <= |s.slots|
  {
    Activation(e, funcs, decode, rt, fuel, g, s.slots[..b.baseHeight], depth + 1)
  }

  function Entry<W>(f: StructuredFunc, b: StackBase, s: StackStore<W>): State<World<W>>
    requires f.Function? && b.baseHeight <= |s.slots| && f.params <= |f.locals|
  {
    State(s.slots[b.baseHeight..] + Zeros(f.locals[f.params..]), [], Here(s.rest))
  }

  /** A call runs the activation's loop from its first instruction. */
  lemma CallIsLoop<W(!new)>(a: Activation<W>, m: nat, b: StackBase, s: StackStore<W>, depth: nat)
    requires Runs(a) && b.baseHeight + FuncOf(a).params == |s.slots| && FuncOf(a).params <= |FuncOf(a).locals|
    requires a.below == s.slots[..b.baseHeight] && a.depth == depth + 1
    ensures Holds(a, Entry(FuncOf(a), b, s))
    ensures NativeCall(a.e, m, a.g, b, s, depth)
         == NativeLoop(a.e, m, a.g, 0, BaseOf(a), Placed(a.below, Entry(FuncOf(a), b, s)), depth + 1)
  {
    hide StackProgramOk, NativeLoop, EmitBody, ExecuteStack, Validates, EmitsCallsOk;
    RunsFacts(a);
    StackBodyInPlace(a.e, a.funcs, a.decode, a.rt, a.g);
    var f := FuncOf(a);
    var st := Entry(f, b, s);
    assert s.slots + Zeros(f.locals[f.params..]) == a.below + st.locals + [];
  }

  /** The body of a function, as code the simulation is about. */
  lemma AtBodyOf<W(!new)>(a: Activation<W>)
    requires Runs(a)
    ensures var f, exits := FuncOf(a), [Exit(Size(FuncOf(a).body), FuncOf(a).results, 0)];
      && AtCode(a, f.body, 0, FuncLabels(f.results), exits, 0)
      && |EmitBodyOf(a)| == Size(f.body) + 1 && EmitBodyOf(a)[Size(f.body)] == IEnd(f.results, 0)
      && (HeightAfterSeq(f.body, |f.locals|, FuncLabels(f.results), 0) == Live(f.results)
          || HeightAfterSeq(f.body, |f.locals|, FuncLabels(f.results), 0) == Dead)
  {
    hide StackProgramOk, RealizesStack, OffsetsParallel, Emit, Heights, HeightAfterSeq, SeqCallsOk, DepthsOk;
    RunsFacts(a);
    var f := FuncOf(a);
    var code, hs, exits := EmitBodyOf(a), HeightsOf(a), [Exit(Size(f.body), f.results, 0)];
    assert code[0..0 + Size(f.body)] == Emit(f.body, 0, exits, Track(0, false));
    assert hs[0..0 + Size(f.body)] == Heights(f.body, Track(0, false));
  }

  /** From the end of the body, with its results on top, the driver returns them. */
  lemma EndReturns<W(!new)>(a: Activation<W>, pc: nat, st: State<World<W>>, st1: State<World<W>>)
    returns (m: nat)
    requires Runs(a) && st.world.Here? && Holds(a, st1) && |st1.stack| == FuncOf(a).results
    requires Reaches(a, pc, st, Size(FuncOf(a).body), st1)
    ensures NativeLoop(a.e, m, a.g, pc, BaseOf(a), Placed(a.below, st), a.depth)
         == Returned(StackStore(a.below + st1.stack, st1.world.world), a.depth - 1)
  {
    hide StackProgramOk, RealizesStack, OffsetsParallel, Gets, NativeLoop, EmitBodyOf, EmitBody, AtCode;
    var f, end := FuncOf(a), Size(FuncOf(a).body);
    var s1 := Placed(a.below, st1);
    AtBodyOf(a);
    ExecutesAs(a, end, s1);
    QuietUnrolls(a.e, a.g, end, BaseOf(a), s1, end + 1, s1, a.depth);
    ExitsWith(a, st1);
    var k: nat, enough: nat :| Leads(a, k, enough, pc, st, end, st1);
    m := EndsFrom(a.e, 1, k, enough, a.g, pc, BaseOf(a), Placed(a.below, st), end, s1, a.depth);
  }

  lemma ExitsWith<W(!new)>(a: Activation<W>, st: State<World<W>>)
    requires Runs(a) && Holds(a, st) && |st.stack| == FuncOf(a).results
    ensures var body := BodyOf(a.e.program, a.g);
      a.e.machine.exit(ResultCount(a.e.program, a.g), BaseOf(a), body.layout, Placed(a.below, st))
        == StackStore(a.below + st.stack, st.world.world)
  {
    hide StackProgramOk, EmitBody, ExecuteStack, Validates, EmitsCallsOk;
    RunsFacts(a);
    StackBodyInPlace(a.e, a.funcs, a.decode, a.rt, a.g);
    var slots, n := Placed(a.below, st).slots, |st.stack|;
    assert slots[..|a.below|] == a.below && slots[|slots| - n..] == st.stack;
  }

  /**
   A call of a function lowered for the stack machine, by the recursive driver, at any depth and on
   any stack, settles as structured WebAssembly says, on every validated program.
   */
  lemma {:induction false} StackCallDrives<W(!new)>(
    e: StackEnv<W>, funcs: seq<StructuredFunc>, decode: Instr -> StackInstr, rt: Runtime<W>, fuel: nat,
    g: nat, b: StackBase, s: StackStore<W>, depth: nat)
    requires StackProgramOk(funcs) && RealizesStack(e, funcs, decode, rt) && g < |funcs| && funcs[g].Function?
    requires b.baseHeight + funcs[g].params == |s.slots|
    ensures OffsetsParallel(e.program)
    ensures StackCallSettles(e, fuel, g, b, s, depth, funcs[g].results,
                             CallWithin(funcs, rt, fuel, Remaining(e.maxDepth, depth + 1), g,
                                        s.slots[b.baseHeight..], s.rest))
    decreases Remaining(e.maxDepth, depth + 1), fuel
  {
    hide StackProgramOk, RealizesStack, NativeCall, NativeLoop, RunSeq, Drives, StackCallSettles, CallWithin,
         HeightAfterSeq, AtCode, Within, Holds, EmitBodyOf, ReplyOf;
    StackBodyFacts(e, funcs, decode, rt, g);
    var f, a := funcs[g], Entered(e, funcs, decode, rt, fuel, g, b, s, depth);
    var st := Entry(f, b, s);
    CallIsLoop(a, 0, b, s, depth);
    AtBodyOf(a);
    var exits := [Exit(Size(f.body), f.results, 0)];
    SeqDrives(a, f.body, 0, FuncLabels(f.results), exits, fuel, st);
    CallIs(funcs, rt, fuel, Remaining(e.maxDepth, depth + 1), g, s.slots[b.baseHeight..], s.rest);
    FlowSettles(a, RunSeq(EffectsOf(a), fuel, f.body, st), b, s, depth);
  }

  lemma StackBodyFacts<W(!new)>(
    e: StackEnv<W>, funcs: seq<StructuredFunc>, decode: Instr -> StackInstr, rt: Runtime<W>, g: nat)
    requires StackProgramOk(funcs) && RealizesStack(e, funcs, decode, rt) && g < |funcs| && funcs[g].Function?
    ensures OffsetsParallel(e.program) && IsLocal(e.program, g) && funcs[g].params <= |funcs[g].locals|
    ensures ResultCount(e.program, g) == funcs[g].results
  {
    hide EmitBody, Validates, ExecuteStack, EmitsCallsOk;
    StackBodyInPlace(e, funcs, decode, rt, g);
  }

  /** From what the activation's loop does to what the call does. */
  lemma FlowSettles<W(!new)>(
    a: Activation<W>, flow: Flow<World<W>>, b: StackBase, s: StackStore<W>, depth: nat)
    requires Runs(a) && b.baseHeight + FuncOf(a).params == |s.slots| && FuncOf(a).params <= |FuncOf(a).locals|
    requires a.below == s.slots[..b.baseHeight] && a.depth == depth + 1
    requires var f := FuncOf(a);
      && Drives(a, flow, [Exit(Size(f.body), f.results, 0)], a.fuel, 0, Entry(f, b, s), Size(f.body))
      && (flow.Fall? ==> |flow.state.stack| == f.results)
    ensures StackCallSettles(a.e, a.fuel, a.g, b, s, depth, FuncOf(a).results, ReplyOf(flow, FuncOf(a).results))
  {
    hide StackProgramOk, RealizesStack, OffsetsParallel, Drives, StackCallSettles, ReplyOf, Runs;
    match flow
    case Fall(_) => FallSettles(a, flow, b, s, depth);
    case Jump(_, _) => JumpSettles(a, flow, b, s, depth);
    case Stopped(Here(w)) => StopSettles(a, flow, w, b, s, depth);
    case Stopped(Lost) => GoingOnSettles(a, flow, b, s, depth);
    case OutOfFuel => GoingOnSettles(a, flow, b, s, depth);
  }

  lemma FallSettles<W(!new)>(
    a: Activation<W>, flow: Flow<World<W>>, b: StackBase, s: StackStore<W>, depth: nat)
    requires Runs(a) && b.baseHeight + FuncOf(a).params == |s.slots| && FuncOf(a).params <= |FuncOf(a).locals|
    requires a.below == s.slots[..b.baseHeight] && a.depth == depth + 1
    requires var f := FuncOf(a);
      && Drives(a, flow, [Exit(Size(f.body), f.results, 0)], a.fuel, 0, Entry(f, b, s), Size(f.body))
      && (flow.Fall? ==> |flow.state.stack| == f.results)
    requires flow.Fall?
    ensures StackCallSettles(a.e, a.fuel, a.g, b, s, depth, FuncOf(a).results, ReplyOf(flow, FuncOf(a).results))
  {
    hide StackProgramOk, RealizesStack, OffsetsParallel, NativeCall, NativeLoop, Reaches, CallReturnsWith;
    var st1 := flow.state;
    Delivers(a, b, s, depth, st1);
    assert st1.stack[|st1.stack| - FuncOf(a).results..] == st1.stack;
  }

  lemma JumpSettles<W(!new)>(
    a: Activation<W>, flow: Flow<World<W>>, b: StackBase, s: StackStore<W>, depth: nat)
    requires Runs(a) && b.baseHeight + FuncOf(a).params == |s.slots| && FuncOf(a).params <= |FuncOf(a).locals|
    requires a.below == s.slots[..b.baseHeight] && a.depth == depth + 1
    requires var f := FuncOf(a);
      && Drives(a, flow, [Exit(Size(f.body), f.results, 0)], a.fuel, 0, Entry(f, b, s), Size(f.body))
      && (flow.Fall? ==> |flow.state.stack| == f.results)
    requires flow.Jump?
    ensures StackCallSettles(a.e, a.fuel, a.g, b, s, depth, FuncOf(a).results, ReplyOf(flow, FuncOf(a).results))
  {
    hide StackProgramOk, RealizesStack, OffsetsParallel, NativeCall, NativeLoop, Reaches, CallReturnsWith;
    var st1, n := flow.state, FuncOf(a).results;
    Delivers(a, b, s, depth, Unwind(st1, 0, n));
    assert st1.stack[..0] + st1.stack[|st1.stack| - n..] == st1.stack[|st1.stack| - n..];
  }

  lemma StopSettles<W(!new)>(
    a: Activation<W>, flow: Flow<World<W>>, w: W, b: StackBase, s: StackStore<W>, depth: nat)
    requires Runs(a) && b.baseHeight + FuncOf(a).params == |s.slots| && FuncOf(a).params <= |FuncOf(a).locals|
    requires a.below == s.slots[..b.baseHeight] && a.depth == depth + 1
    requires var f := FuncOf(a);
      && Drives(a, flow, [Exit(Size(f.body), f.results, 0)], a.fuel, 0, Entry(f, b, s), Size(f.body))
      && (flow.Fall? ==> |flow.state.stack| == f.results)
    requires flow == Stopped(Here(w))
    ensures StackCallSettles(a.e, a.fuel, a.g, b, s, depth, FuncOf(a).results, ReplyOf(flow, FuncOf(a).results))
  {
    hide StackProgramOk, RealizesStack, OffsetsParallel, NativeCall, NativeLoop, UnwindsWith, CallUnwindsWith;
    var m: nat :| UnwindsWith(a, m, 0, Entry(FuncOf(a), b, s), w);
    Fails(a, m, b, s, depth, w);
  }

  lemma GoingOnSettles<W(!new)>(
    a: Activation<W>, flow: Flow<World<W>>, b: StackBase, s: StackStore<W>, depth: nat)
    requires Runs(a) && b.baseHeight + FuncOf(a).params == |s.slots| && FuncOf(a).params <= |FuncOf(a).locals|
    requires a.below == s.slots[..b.baseHeight] && a.depth == depth + 1
    requires var f := FuncOf(a);
      && Drives(a, flow, [Exit(Size(f.body), f.results, 0)], a.fuel, 0, Entry(f, b, s), Size(f.body))
      && (flow.Fall? ==> |flow.state.stack| == f.results)
    requires flow == Stopped(Lost) || flow.OutOfFuel?
    ensures StackCallSettles(a.e, a.fuel, a.g, b, s, depth, FuncOf(a).results, ReplyOf(flow, FuncOf(a).results))
  {
    hide StackProgramOk, RealizesStack, OffsetsParallel, NativeCall, NativeLoop, GoesOnFor;
    KeepsOn(a, b, s, depth);
  }

  lemma Delivers<W(!new)>(a: Activation<W>, b: StackBase, s: StackStore<W>, depth: nat, st1: State<World<W>>)
    requires Runs(a) && b.baseHeight + FuncOf(a).params == |s.slots| && FuncOf(a).params <= |FuncOf(a).locals|
    requires a.below == s.slots[..b.baseHeight] && a.depth == depth + 1
    requires Holds(a, st1) && |st1.stack| == FuncOf(a).results
    requires Reaches(a, 0, Entry(FuncOf(a), b, s), Size(FuncOf(a).body), st1)
    ensures exists n: nat :: CallReturnsWith(a.e, n, a.g, b, s, depth, st1.stack, st1.world.world)
  {
    hide StackProgramOk, RealizesStack, OffsetsParallel, NativeCall, NativeLoop, Reaches;
    var m := EndReturns(a, 0, Entry(FuncOf(a), b, s), st1);
    CallIsLoop(a, m, b, s, depth);
    assert CallReturnsWith(a.e, m, a.g, b, s, depth, st1.stack, st1.world.world);
  }

  lemma Fails<W(!new)>(a: Activation<W>, m: nat, b: StackBase, s: StackStore<W>, depth: nat, w: W)
    requires Runs(a) && b.baseHeight + FuncOf(a).params == |s.slots| && FuncOf(a).params <= |FuncOf(a).locals|
    requires a.below == s.slots[..b.baseHeight] && a.depth == depth + 1
    requires UnwindsWith(a, m, 0, Entry(FuncOf(a), b, s), w)
    ensures exists n: nat :: CallUnwindsWith(a.e, n, a.g, b, s, depth, w)
  {
    hide StackProgramOk, RealizesStack, OffsetsParallel, NativeCall, NativeLoop;
    CallIsLoop(a, m, b, s, depth);
    assert CallUnwindsWith(a.e, m, a.g, b, s, depth, w);
  }

  lemma KeepsOn<W(!new)>(a: Activation<W>, b: StackBase, s: StackStore<W>, depth: nat)
    requires Runs(a) && b.baseHeight + FuncOf(a).params == |s.slots| && FuncOf(a).params <= |FuncOf(a).locals|
    requires a.below == s.slots[..b.baseHeight] && a.depth == depth + 1
    requires GoesOnFor(a, a.fuel, 0, Entry(FuncOf(a), b, s))
    ensures forall m: nat :: m <= a.fuel ==> NativeCall(a.e, m, a.g, b, s, depth).OutOfFuel?
  {
    hide StackProgramOk, RealizesStack, OffsetsParallel, NativeCall, NativeLoop;
    forall m: nat | m <= a.fuel ensures NativeCall(a.e, m, a.g, b, s, depth).OutOfFuel? {
      CallIsLoop(a, m, b, s, depth);
      assert LoopGoesOn(a.e, m, a.g, 0, BaseOf(a), Placed(a.below, Entry(FuncOf(a), b, s)), a.depth);
    }
  }

  // ------------------------------------------------------------------ whole programs

  /** What the reference replies, allowed as many activations as the drivers allow. */
  ghost function MeaningOf<W(!new)>(
    e: StackEnv<W>, funcs: seq<StructuredFunc>, rt: Runtime<W>, fuel: nat, g: nat, s: StackStore<W>): Reply<W>
  {
    CallWithin(funcs, rt, fuel, Remaining(e.maxDepth, 1), g, s.slots, s.rest)
  }

  /** Both drivers end in `final`: with exactly the results on the stack, or with an error and the same effects. */
  ghost predicate StackEndsAlike<W(!new)>(
    e: StackEnv<W>, g: nat, s: StackStore<W>, reply: Reply<W>, final: Final<StackStore<W>>)
    requires OffsetsParallel(e.program) && IsLocal(e.program, g)
  {
    && NativeEnds(e, g, ENTRY_BASE, s, final) && FrameEnds(e, g, ENTRY_BASE, s, final)
    && match reply
       case Answered(rs, w) => final == Completed(StackStore(rs, w)) && |rs| == ResultCount(e.program, g)
       case Stuck(w) => final.Error? && final.store.rest == w
       case Unfinished => false
  }

  /** When the reference replies, both drivers end, and alike. */
  lemma MeaningEndsDrivers<W(!new)>(
    e: StackEnv<W>, funcs: seq<StructuredFunc>, decode: Instr -> StackInstr, rt: Runtime<W>, fuel: nat, g: nat,
    s: StackStore<W>)
    returns (final: Final<StackStore<W>>)
    requires StackProgramOk(funcs) && RealizesStack(e, funcs, decode, rt) && g < |funcs| && funcs[g].Function?
    requires funcs[g].params == |s.slots| && !MeaningOf(e, funcs, rt, fuel, g, s).Unfinished?
    ensures OffsetsParallel(e.program) && IsLocal(e.program, g)
    ensures StackEndsAlike(e, g, s, MeaningOf(e, funcs, rt, fuel, g, s), final)
  {
    hide StackProgramOk, RealizesStack, NativeCall, FrameEnds, NeverCallsLast, CallWithin;
    StackCallDrives(e, funcs, decode, rt, fuel, g, ENTRY_BASE, s, 0);
    assert s.slots[0..] == s.slots;
    StackEndsWell(e, funcs, decode, rt);
    StackBodyFacts(e, funcs, decode, rt, g);
    var n: nat;
    match MeaningOf(e, funcs, rt, fuel, g, s) {
      case Answered(rs, w) =>
        n :| CallReturnsWith(e, n, g, ENTRY_BASE, s, 0, rs, w);
        assert s.slots[..0] + rs == rs;
      case Stuck(w) =>
        n :| CallUnwindsWith(e, n, g, ENTRY_BASE, s, 0, w);
    }
    final := NativeFinal(NativeCall(e, n, g, ENTRY_BASE, s, 0)).value;
    assert NativeEnds(e, g, ENTRY_BASE, s, final);
    DriversAgree(e, g, ENTRY_BASE, s, final);
  }

  /** A call the reference has not finished with some fuel, the driver has not finished with as much. */
  lemma MeaningStillRunning<W(!new)>(
    e: StackEnv<W>, funcs: seq<StructuredFunc>, decode: Instr -> StackInstr, rt: Runtime<W>, fuel: nat, g: nat,
    s: StackStore<W>)
    requires StackProgramOk(funcs) && RealizesStack(e, funcs, decode, rt) && g < |funcs| && funcs[g].Function?
    requires funcs[g].params == |s.slots|
    ensures OffsetsParallel(e.program)
    ensures MeaningOf(e, funcs, rt, fuel, g, s).Unfinished? ==> NativeCall(e, fuel, g, ENTRY_BASE, s, 0).OutOfFuel?
  {
    hide StackProgramOk, RealizesStack, NativeCall, CallWithin;
    StackCallDrives(e, funcs, decode, rt, fuel, g, ENTRY_BASE, s, 0);
    assert s.slots[0..] == s.slots;
  }

  /**
   A validated program lowered for the stack machine, run by either driver, ends if and only if its
   meaning does; and however a driver ends, its meaning is the same.
   */
  lemma StackProgramRuns<W(!new)>(
    e: StackEnv<W>, funcs: seq<StructuredFunc>, decode: Instr -> StackInstr, rt: Runtime<W>, g: nat,
    s: StackStore<W>, final: Final<StackStore<W>>)
    requires StackProgramOk(funcs) && RealizesStack(e, funcs, decode, rt) && g < |funcs| && funcs[g].Function?
    requires funcs[g].params == |s.slots|
    ensures OffsetsParallel(e.program) && IsLocal(e.program, g)
    ensures NativeEnds(e, g, ENTRY_BASE, s, final) <==> FrameEnds(e, g, ENTRY_BASE, s, final)
    ensures NativeEnds(e, g, ENTRY_BASE, s, final) <==>
      exists fuel: nat :: StackEndsAlike(e, g, s, MeaningOf(e, funcs, rt, fuel, g, s), final)
  {
    hide StackProgramOk, RealizesStack, NativeCall, FrameEnds, NeverCallsLast, MeaningOf;
    StackBodyFacts(e, funcs, decode, rt, g);
    StackEndsWell(e, funcs, decode, rt);
    DriversAgree(e, g, ENTRY_BASE, s, final);
    if NativeEnds(e, g, ENTRY_BASE, s, final) {
      var n: nat :| NativeFinal(NativeCall(e, n, g, ENTRY_BASE, s, 0)) == Some(final);
      MeaningStillRunning(e, funcs, decode, rt, n, g, s);
      var final' := MeaningEndsDrivers(e, funcs, decode, rt, n, g, s);
      OneEnd(e, g, ENTRY_BASE, s, final, final');
      assert StackEndsAlike(e, g, s, MeaningOf(e, funcs, rt, n, g, s), final);
    }
  }
}
