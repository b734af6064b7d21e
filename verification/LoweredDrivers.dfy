/**
 Lowered programs under the two drivers.  The instruction set of the lowered code becomes a
 machine in the drivers' sense; the programs satisfy what the drivers and the register file
 ask of lowering, and both drivers deliver the stack machine's answer.
 */
module LoweredDrivers {
  import opened Values
  import opened Drivers
  import opened DriverAgreement
  import opened FrameConvention
  import opened FrameInvariant
  import opened RegisterFrame
  import opened RegisterLayout
  import opened RegisterCallTrees
  import opened StackCode
  import opened LoweredBody
  import opened LoweredPrograms

  /** `Instruction::execute` for lowered code: one instruction, on the frame based at `b`. */
  function Execute<W>(decode: Instr -> FrameOp, rt: Runtime<W>, i: Instr, l: RegLayout, b: nat, s: RegStore<W>)
    : Exec<nat, RegStore<W>>
  {
    ExecuteOp(decode(i), rt, l, b, s)
  }

  function ExecuteOp<W>(op: FrameOp, rt: Runtime<W>, l: RegLayout, b: nat, s: RegStore<W>)
    : Exec<nat, RegStore<W>>
  {
    if !InRange(l, b, op, s.regs) then Exec.Trap(PANIC, s)
    else if op.FCall? && rt.imports <= op.callee then Exec.Ok(Step.Call(op.callee, b + op.base, None), s)
    else
      match
        if op.FCall? then HostCall(rt, op, b + op.base, s.regs, s.rest)
        else RegStep(Local(rt), l, b, op, s.regs, s.rest)
      case Goes((regs, w)) => Exec.Ok(Next, RegStore(regs, w))
      case Trapped(w) => Exec.Trap(Fault(0), s.(rest := w))
  }

  function Executor<W>(decode: Instr -> FrameOp, rt: Runtime<W>)
    : (Instr, RegLayout, nat, RegStore<W>) -> Exec<nat, RegStore<W>>
  {
    (i: Instr, l: RegLayout, b: nat, s: RegStore<W>) => Execute(decode, rt, i, l, b, s)
  }

  /** The lowered program, laid out as the drivers expect a program to be. */
  ghost predicate Realizes<W(!new)>(
    e: Env<RegLayout, nat, RegStore<W>>, funcs: seq<Func>, decode: Instr -> FrameOp, rt: Runtime<W>)
    requires ProgramOk(funcs)
  {
    && e.machine == RegMachine(Executor(decode, rt))
    && OffsetsParallel(e.program) && e.program.importedCount == rt.imports && ImportsFirst(funcs, rt)
    && |e.program.signatures| == |funcs| && |e.program.bodies| == |funcs| - rt.imports
    && (forall g :: 0 <= g < |funcs| ==> SignatureMatches(e.program.signatures[g], funcs[g]))
    && forall g :: 0 <= g < |funcs| && funcs[g].Function? ==> FuncRealized(e, funcs, decode, g)
  }

  predicate SignatureMatches<B>(ty: FuncType, f: Function<B>) {
    |ty.params| == f.params && |ty.results| == f.results
  }

  ghost predicate FuncRealized<W(!new)>(
    e: Env<RegLayout, nat, RegStore<W>>, funcs: seq<Func>, decode: Instr -> FrameOp, g: nat)
    requires ProgramOk(funcs) && g < |funcs| && funcs[g].Function?
  {
    && IsLocal(e.program, g)
    && var (body, lowered) := (BodyOf(e.program, g), Lower(funcs, g));
      && body.locals == funcs[g].locals && body.layout == lowered.layout
      && |body.instructions| == |lowered.code|
      && forall j :: 0 <= j < |lowered.code| ==> decode(body.instructions[j]) == lowered.code[j]
  }

  // ------------------------------------------------------------------ what lowering guarantees its runtime

  /** An instruction writes only slots its frame may write, and calls from its own operand registers. */
  lemma LoweredStepOk<W(!new)>(
    e: Env<RegLayout, nat, RegStore<W>>, funcs: seq<Func>, decode: Instr -> FrameOp, rt: Runtime<W>,
    f: nat, pc: nat, b: nat, s: RegStore<W>)
    requires ProgramOk(funcs) && Realizes(e, funcs, decode, rt)
    requires IsLocal(e.program, f) && pc < |BodyOf(e.program, f).instructions|
    ensures RegStepOk(e, f, pc, b, s)
  {
    hide Lower, ProgramOk, RegIntact;
    assert FuncRealized(e, funcs, decode, f);
    LoweredShape(funcs, f);
    var body, lowered := BodyOf(e.program, f), Lower(funcs, f);
    var op := lowered.code[pc];
    assert decode(body.instructions[pc]) == op && FrameCallsOk(funcs, op);
    assert InFrame(lowered.layout, op);
    if op.FCall? {
      assert SignatureMatches(e.program.signatures[op.callee], funcs[op.callee]);
    }
    if ReportsCall(ExecuteOp(op, rt, lowered.layout, b, s)) {
    } else if op.FCall? {
      HostWritesOwn(rt, lowered.layout, b, op, s);
    } else {
      StepWritesOwn(rt, lowered.layout, b, op, s.regs, s.rest);
    }
  }

  lemma StepWritesOwn<W>(rt: Runtime<W>, l: RegLayout, b: nat, op: FrameOp, regs: seq<Value>, w: W)
    requires !op.FCall?
    ensures InRange(l, b, op, regs) ==>
      var r := RegStep(Local(rt), l, b, op, regs, w);
      r.Goes? ==>
        && |r.state.0| == |regs|
        && forall i :: 0 <= i < |regs| && r.state.0[i] != regs[i] ==> Writable(l, b, i)
  {
  }

  /** The host's results go into the caller's operand registers. */
  lemma HostWritesOwn<W>(rt: Runtime<W>, l: RegLayout, b: nat, op: FrameOp, s: RegStore<W>)
    requires op.FCall?
    ensures var t := ExecuteOp(op, rt, l, b, s).store;
      && |t.regs| == |s.regs|
      && forall i :: 0 <= i < |s.regs| && t.regs[i] != s.regs[i] ==> Writable(l, b, i)
  {
  }

  /** Lowering meets what the register file and the explicit driver rely on. */
  lemma LoweredIsDisciplined<W(!new)>(
    e: Env<RegLayout, nat, RegStore<W>>, funcs: seq<Func>, decode: Instr -> FrameOp, rt: Runtime<W>)
    requires ProgramOk(funcs) && Realizes(e, funcs, decode, rt)
    ensures OffsetsParallel(e.program) && RegDisciplined(e)
  {
    hide ProgramOk, RegStepOk;
    LoweredEndsWell(e, funcs, decode, rt);
    forall f: nat | IsLocal(e.program, f)
      ensures RegWellFormed(BodyOf(e.program, f), e.program.signatures[f])
    {
      assert FuncRealized(e, funcs, decode, f);
      LoweredShape(funcs, f);
    }
    forall f: nat, pc: nat, b: nat, s | IsLocal(e.program, f) && pc < |BodyOf(e.program, f).instructions|
      ensures RegStepOk(e, f, pc, b, s)
    {
      LoweredStepOk(e, funcs, decode, rt, f, pc, b, s);
    }
  }

  lemma LoweredEndsWell<W(!new)>(
    e: Env<RegLayout, nat, RegStore<W>>, funcs: seq<Func>, decode: Instr -> FrameOp, rt: Runtime<W>)
    requires ProgramOk(funcs) && Realizes(e, funcs, decode, rt)
    ensures NeverCallsLast(e)
  {
    hide ProgramOk, Lower;
    forall i, b, s | 0 <= i < |e.program.bodies| && e.program.bodies[i].instructions != []
      ensures !ReportsCall(LastExec(e.machine, e.program.bodies[i], b, s))
    {
      var g := i + rt.imports;
      assert FuncRealized(e, funcs, decode, g);
      LoweredShape(funcs, g);
    }
  }

  // ------------------------------------------------------------------ the recursive driver runs lowered code

  /** How many activations there may still be, the running one included, when `depth` are counted. */
  function Remaining(maxDepth: nat, depth: nat): nat {
    if depth < maxDepth then maxDepth - depth + 1 else 1
  }

  /** The driver's result is that of the lowered activation. */
  ghost predicate RunsAs<W>(r: Native<RegStore<W>>, expected: Outcome<(seq<Value>, W), W>) {
    match expected
    case Goes((regs, w)) => r.Returned? && r.store == RegStore(regs, w)
    case Trapped(w) => r.Unwound? && r.store.rest == w
  }

  ghost function Ending<W>(x: Outcome<(seq<Value>, W), W>, results: nat, b: nat,
    l: RegLayout): Outcome<(seq<Value>, W), W> {
    match x
    case Goes((regs, w)) => Goes((LeaveFrame(regs, results, b, l), w))
    case Trapped(w) => Trapped(w)
  }

  /** What the driver sees of a lowered function: its code, one instruction at a time. */
  lemma RealizedBody<W(!new)>(
    e: Env<RegLayout, nat, RegStore<W>>, funcs: seq<Func>, decode: Instr -> FrameOp, rt: Runtime<W>, g: nat)
    requires ProgramOk(funcs) && Realizes(e, funcs, decode, rt) && g < |funcs| && funcs[g].Function?
    ensures OffsetsParallel(e.program) && IsLocal(e.program, g) && ImportsFirst(funcs, rt)
    ensures var body, lowered := BodyOf(e.program, g), Lower(funcs, g);
      && body.layout == lowered.layout && |body.instructions| == |lowered.code| == |body.offsets|
      && ResultCount(e.program, g) == funcs[g].results
      && |e.program.signatures[g].params| == funcs[g].params && body.locals == funcs[g].locals
      && |body.locals| <= lowered.layout.registers && funcs[g].params <= |body.locals|
      && lowered.code != [] && lowered.code[|lowered.code| - 1] == FEnd
      && (forall j :: 0 <= j < |lowered.code| ==> FrameCallsOk(funcs, lowered.code[j]))
      && forall j, b, s :: 0 <= j < |lowered.code| ==>
        e.machine.execute(body.instructions[j], body.layout, b, s) ==
        ExecuteOp(lowered.code[j], rt, body.layout, b, s)
    ensures forall n, b, l, s :: e.machine.exit(n, b, l, s) == RegStore(LeaveFrame(s.regs, n, b, l), s.rest)
  {
    hide ProgramOk, Lower, ExecuteOp, ExitRegs;
    assert FuncRealized(e, funcs, decode, g);
    LoweredShape(funcs, g);
  }

  /** One instruction of a lowered body, as `execute` reports it. */
  lemma RegBodyIs<W>(
    funcs: seq<Func>, rt: Runtime<W>, d: nat, l: RegLayout, b: nat, code: seq<FrameOp>, pc: nat, s: RegStore<W>)
    requires ProgramOk(funcs) && 0 < d && pc < |code| && ImportsFirst(funcs, rt) && FrameCallsOk(funcs, code[pc])
    ensures var all := RegBody(funcs, rt, d, l, b, code[pc..], s.regs, s.rest);
      match ExecuteOp(code[pc], rt, l, b, s)
      case Trap(_, s') => all == Trapped(s'.rest)
      case Ok(Next, s') => all == RegBody(funcs, rt, d, l, b, code[pc + 1..], s'.regs, s'.rest)
      case Ok(JumpTo(_), _) => false
      case Ok(Call(h, hb, _), s') =>
        && s' == s && code[pc].FCall? && h == code[pc].callee && hb == b + code[pc].base
           && InRange(l, b, code[pc], s.regs) && funcs[h].Function?
        && var c := RegCall(funcs, rt, d - 1, h, hb, s.regs, s.rest);
          all == if c.Trapped? then c else RegBody(funcs, rt, d, l, b, code[pc + 1..], c.state.0, c.state.1)
  {
    hide ProgramOk, RegCall, RegStep, InRange;
    assert code[pc..][1..] == code[pc + 1..];
  }

  lemma CallFits(l: RegLayout, b: nat, op: FrameOp, regs: seq<Value>)
    requires op.FCall? && InRange(l, b, op, regs)
    ensures b + op.base + op.params <= |regs|
  {
  }

  /** A call past the last allowed activation traps. */
  lemma NoneLeft<W>(funcs: seq<Func>, rt: Runtime<W>, h: nat, hb: nat, regs: seq<Value>, w: W)
    requires ProgramOk(funcs)
    ensures RegCall(funcs, rt, 0, h, hb, regs, w) == Outcome<(seq<Value>, W), W>.Trapped(w)
  {
  }

  /** What one instruction of the recursive driver's loop does, whatever fuel is left after it. */
  lemma LoopIs<W>(e: Env<RegLayout, nat, RegStore<W>>, fuel: nat, g: nat, pc: nat, b: nat, s: RegStore<W>, depth: nat)
    requires OffsetsParallel(e.program) && IsLocal(e.program, g) && 1 <= depth && 0 < fuel
    requires pc < |BodyOf(e.program, g).instructions|
    ensures var body := BodyOf(e.program, g);
      var loop := NativeLoop(e, fuel, g, pc, b, s, depth);
      match e.machine.execute(body.instructions[pc], body.layout, b, s)
      case Trap(err, s') => loop == Unwound(TrapHere(g, pc, body.offsets, err), s', depth)
      case Ok(Next, s') =>
        loop == if pc + 1 == |body.instructions|
                then Returned(e.machine.exit(ResultCount(e.program, g), b, body.layout, s'), depth - 1)
                else NativeLoop(e, fuel - 1, g, pc + 1, b, s', depth)
      case Ok(JumpTo(_), _) => true
      case Ok(Call(h, hb, table), s') =>
        if e.maxDepth <= depth
        then loop == Unwound(TrapHere(g, pc, body.offsets, CallStackExhausted(e.maxDepth)), s', depth)
        else
          var c := NativeCall(e, fuel - 1, h, hb, s', depth);
          (c.Returned? && pc + 1 < |body.instructions| ==>
            loop == NativeLoop(e, fuel - 1, g, pc + 1, b, c.store, depth))
          && (c.Unwound? ==>
            loop == Unwound(c.trace + [TraceRecord(g, pc, CallRecord(h, table), body.offsets[pc])], c.store, c.depth))
  {
  }

  /** With enough fuel, the rest of an activation ends as its lowered code does. */
  lemma {:induction false} LoopRuns<W(!new)>(
    e: Env<RegLayout, nat, RegStore<W>>, funcs: seq<Func>, decode: Instr -> FrameOp, rt: Runtime<W>,
    g: nat, pc: nat, b: nat, s: RegStore<W>, depth: nat)
    returns (n: nat, r: Native<RegStore<W>>)
    requires ProgramOk(funcs) && Realizes(e, funcs, decode, rt) && g < |funcs| && funcs[g].Function?
    requires pc < |Lower(funcs, g).code|
      && 1 <= depth
    ensures OffsetsParallel(e.program) && IsLocal(e.program, g)
    ensures forall fuel: nat :: n <= fuel ==> NativeLoop(e, fuel, g, pc, b, s, depth) == r
    ensures var lowered := Lower(funcs, g);
      RunsAs(r, Ending(
        RegBody(funcs, rt, Remaining(e.maxDepth, depth), lowered.layout, b, lowered.code[pc..], s.regs, s.rest),
        funcs[g].results, b, lowered.layout))
    decreases Remaining(e.maxDepth, depth), 0, |Lower(funcs, g).code| - pc
  {
    hide ProgramOk, Lower, RegStep, InRange, RegCall, NativeLoop, NativeCall, RegBody, Realizes, ExecuteOp;
    RealizedBody(e, funcs, decode, rt, g);
    var body, lowered, d := BodyOf(e.program, g), Lower(funcs, g), Remaining(e.maxDepth, depth);
    var op, l := lowered.code[pc], lowered.layout;
    assert FrameCallsOk(funcs, op);
    RegBodyIs(funcs, rt, d, l, b, lowered.code, pc, s);
    var x := ExecuteOp(op, rt, l, b, s);
    assert x == e.machine.execute(body.instructions[pc], body.layout, b, s);
    n := 1;
    match x {
      case Trap(err, s') =>
        r := Unwound(TrapHere(g, pc, body.offsets, err), s', depth);
      case Ok(Next, s') =>
        if pc + 1 == |lowered.code| {
          r := Returned(e.machine.exit(funcs[g].results, b, l, s'), depth - 1);
          NothingAfter(funcs, rt, d, l, b, lowered.code, s');
        } else {
          n, r := LoopRuns(e, funcs, decode, rt, g, pc + 1, b, s', depth);
          n := n + 1;
        }
      case Ok(Call(h, hb, table), s') =>
        assert FrameCallsOk(funcs, op);
        if e.maxDepth <= depth {
          r := Unwound(TrapHere(g, pc, body.offsets, CallStackExhausted(e.maxDepth)), s', depth);
          NoneLeft(funcs, rt, h, hb, s.regs, s.rest);
        } else {
          CallFits(l, b, op, s.regs);
          n, r := CallRuns(e, funcs, decode, rt, h, hb, s', depth);
          if r.Returned? {
            var n', r' := LoopRuns(e, funcs, decode, rt, g, pc + 1, b, r.store, depth);
            n, r := (if n < n' then n' else n) + 1, r';
          } else {
            n, r := n + 1, Unwound(r.trace + [TraceRecord(g, pc, CallRecord(h, table), body.offsets[pc])], r.store,
              r.depth);
          }
        }
    }
    forall fuel: nat | n <= fuel ensures NativeLoop(e, fuel, g, pc, b, s, depth) == r {
      LoopIs(e, fuel, g, pc, b, s, depth);
    }
  }

  lemma NothingAfter<W>(
    funcs: seq<Func>, rt: Runtime<W>, d: nat, l: RegLayout, b: nat, code: seq<FrameOp>, s: RegStore<W>)
    requires ProgramOk(funcs) && 0 < d
    ensures RegBody(funcs, rt, d, l, b, code[|code|..], s.regs, s.rest)
      == Outcome<(seq<Value>, W), W>.Goes((s.regs, s.rest))
  {
  }

  /** With enough fuel, a call of a lowered function ends as the function does. */
  lemma {:induction false} CallRuns<W(!new)>(
    e: Env<RegLayout, nat, RegStore<W>>, funcs: seq<Func>, decode: Instr -> FrameOp, rt: Runtime<W>,
    g: nat, b: nat, s: RegStore<W>, depth: nat)
    returns (n: nat, r: Native<RegStore<W>>)
    requires ProgramOk(funcs) && Realizes(e, funcs, decode, rt) && g < |funcs| && funcs[g].Function?
    requires b + funcs[g].params <= |s.regs|
    ensures OffsetsParallel(e.program)
    ensures forall fuel: nat :: n <= fuel ==> NativeCall(e, fuel, g, b, s, depth) == r
    ensures RunsAs(r, RegCall(funcs, rt, Remaining(e.maxDepth, depth + 1), g, b, s.regs, s.rest))
    decreases Remaining(e.maxDepth, depth + 1), 1, 0
  {
    hide ProgramOk, Lower, RegCall, NativeLoop, RegBody, EnterRegs, LeaveFrame;
    RealizedBody(e, funcs, decode, rt, g);
    var f, l := funcs[g], Lower(funcs, g).layout;
    var entered := s.(regs := EnterRegs(s.regs, f.params, f.locals, b, l));
    n, r := LoopRuns(e, funcs, decode, rt, g, 0, b, entered, depth + 1);
    assert Lower(funcs, g).code[0..] == Lower(funcs, g).code;
    RegCallIs(funcs, rt, Remaining(e.maxDepth, depth + 1), g, b, s.regs, s.rest);
    forall fuel: nat | n <= fuel ensures NativeCall(e, fuel, g, b, s, depth) == r {
      assert NativeCall(e, fuel, g, b, s, depth) == NativeLoop(e, fuel, g, 0, b, entered, depth + 1);
    }
  }

  // ------------------------------------------------------------------ both drivers

  /** Both drivers end in `final`, which is what the stack machine, with the same limit on activations, answers. */
  ghost predicate EndsAsStackMachine<W(!new)>(
    e: Env<RegLayout, nat, RegStore<W>>, funcs: seq<Func>, rt: Runtime<W>, g: nat, s: RegStore<W>,
    final: Final<RegStore<W>>)
    requires ProgramOk(funcs) && OffsetsParallel(e.program) && g < |funcs| && funcs[g].params <= |s.regs|
  {
    && NativeEnds(e, g, 0, s, final) && FrameEnds(e, g, 0, s, final)
    && var answer := StackCall(funcs, rt, Remaining(e.maxDepth, 1), g, s.regs[..funcs[g].params], s.rest);
      match final
      case Completed(t) =>
        && answer.0.Some? && |answer.0.value| == funcs[g].results <= |t.regs|
        && t.regs[..funcs[g].results] == answer.0.value && t.rest == answer.1
      case Error(_, t) => answer.0.None? && t.rest == answer.1
      case Panic(_) => false
  }

  /**
   A lowered program, run by either driver from a file whose first slots are the arguments,
   ends.  If the stack machine, given as many activations as the drivers allow, answers, both
   drivers complete with that answer in the first slots and the same effects on the rest of the
   instance; if it traps, both stop with an error, with the same backtrace and the same effects.
   */
  lemma LoweredProgramRuns<W(!new)>(
    e: Env<RegLayout, nat, RegStore<W>>, funcs: seq<Func>, decode: Instr -> FrameOp, rt: Runtime<W>,
    g: nat, s: RegStore<W>)
    requires ProgramOk(funcs) && Realizes(e, funcs, decode, rt) && g < |funcs| && funcs[g].Function?
    requires funcs[g].params <= |s.regs|
    ensures exists final :: EndsAsStackMachine(e, funcs, rt, g, s, final)
  {
    hide ProgramOk, RegCall, StackCall, NativeCall, NeverCallsLast, FrameEnds, FuncRealized;
    var n, r := CallRuns(e, funcs, decode, rt, g, 0, s, 0);
    assert s.regs[0..0 + funcs[g].params] == s.regs[..funcs[g].params];
    CallMeets(funcs, rt, Remaining(e.maxDepth, 1), g, 0, s.regs, s.rest);
    LoweredEndsWell(e, funcs, decode, rt);
    assert NativeCall(e, n, g, 0, s, 0) == r;
    var final := NativeFinal(r).value;
    assert NativeFinal(NativeCall(e, n, g, 0, s, 0)) == Some(final);
    DriversAgree(e, g, 0, s, final);
    assert EndsAsStackMachine(e, funcs, rt, g, s, final);
  }

  // ------------------------------------------------------------------ no lowered program panics

  /** In a frame that lies in the file, an instruction that keeps to its frame finds every index in range. */
  lemma InFrameDoesNotPanic<W>(op: FrameOp, rt: Runtime<W>, l: RegLayout, b: nat, s: RegStore<W>)
    requires InFrame(l, op) && l.localsCount <= l.registers && b + Width(l) <= |s.regs|
    ensures var x := ExecuteOp(op, rt, l, b, s);
      x.Trap? ==> x.err != PANIC
  {
    hide RegStep, HostCall;
  }

  lemma LoweredIsSafe<W(!new)>(
    e: Env<RegLayout, nat, RegStore<W>>, funcs: seq<Func>, decode: Instr -> FrameOp, rt: Runtime<W>)
    requires ProgramOk(funcs) && Realizes(e, funcs, decode, rt)
    ensures AllSafe(RegView<W>(), e, AnyState(), PANIC)
  {
    hide ProgramOk, RegView, AnyState, RegIntact, InFrame, ExecuteOp, Realizes;
    forall f: nat | IsLocal(e.program, f) ensures BodyOf(e.program, f).instructions != [] {
      LocalIsLowered(e, funcs, decode, rt, f);
      RealizedBody(e, funcs, decode, rt, f);
    }
    forall f: nat, pc: nat, b: nat, s | IsLocal(e.program, f) && pc < |BodyOf(e.program, f).instructions|
      ensures StepSafe(RegView<W>(), e, AnyState(), PANIC, f, pc, b, s)
    {
      LoweredStepSafe(e, funcs, decode, rt, f, pc, b, s);
    }
  }

  lemma LocalIsLowered<W(!new)>(
    e: Env<RegLayout, nat, RegStore<W>>, funcs: seq<Func>, decode: Instr -> FrameOp, rt: Runtime<W>, f: nat)
    requires ProgramOk(funcs) && Realizes(e, funcs, decode, rt) && IsLocal(e.program, f)
    ensures f < |funcs| && funcs[f].Function? && |e.program.bodies| == |funcs| - e.program.importedCount
    ensures |e.program.signatures| == |funcs| && e.program.importedCount == rt.imports && ImportsFirst(funcs, rt)
  {
  }

  lemma LoweredStepSafe<W(!new)>(
    e: Env<RegLayout, nat, RegStore<W>>, funcs: seq<Func>, decode: Instr -> FrameOp, rt: Runtime<W>,
    f: nat, pc: nat, b: nat, s: RegStore<W>)
    requires ProgramOk(funcs) && Realizes(e, funcs, decode, rt)
    requires IsLocal(e.program, f) && pc < |BodyOf(e.program, f).instructions|
    ensures StepSafe(RegView<W>(), e, AnyState(), PANIC, f, pc, b, s)
  {
    hide ProgramOk, RegView, AnyState, RegIntact, Realizes, InFrame;
    LocalIsLowered(e, funcs, decode, rt, f);
    RealizedBody(e, funcs, decode, rt, f);
    LoweredShape(funcs, f);
    var body, lowered := BodyOf(e.program, f), Lower(funcs, f);
    if FrameOk(RegView<W>(), body, b, s) {
      FrameInFile(body, b, s);
      InFrameDoesNotPanic(lowered.code[pc], rt, lowered.layout, b, s);
      assert FrameCallsOk(funcs, lowered.code[pc]);
    }
  }

  /** However a lowered program's run ends, under either driver, no index was out of range and no body overrun. */
  lemma LoweredDoesNotPanic<W(!new)>(
    e: Env<RegLayout, nat, RegStore<W>>, funcs: seq<Func>, decode: Instr -> FrameOp, rt: Runtime<W>,
    g: nat, s: RegStore<W>, final: Final<RegStore<W>>)
    requires ProgramOk(funcs) && Realizes(e, funcs, decode, rt) && g < |funcs| && funcs[g].Function?
    requires funcs[g].params <= |s.regs|
    requires OffsetsParallel(e.program) && Ends(e, g, 0, s, final)
    ensures NoPanic(final, PANIC)
  {
    hide ProgramOk, Realizes, RegView, AnyState, NativeCall, FrameEnds, RegDisciplined, AllSafe, Disciplined,
         Implements;
    RealizedBody(e, funcs, decode, rt, g);
    LoweredIsDisciplined(e, funcs, decode, rt);
    RegDisciplineHolds(e);
    LoweredIsSafe(e, funcs, decode, rt);
    RegStaged<W>(e.program.signatures[g], 0, s);
    RunsDoNotPanic(RegView<W>(), e, AnyState(), PANIC, g, 0, s, final);
  }
}
