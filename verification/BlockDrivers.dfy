/**
 Programs with structured control under the two drivers: whole programs, loops and recursion
 included, end on the register machine if and only if they end on the stack machine, and then
 alike.
 */
module BlockDrivers {
  import opened Values
  import opened Drivers
  import opened DriverAgreement
  import opened DriverRuns
  import opened FrameConvention
  import opened FrameInvariant
  import opened RegisterFrame
  import opened RegisterLayout
  import opened RegisterCallTrees
  import opened StackCode
  import opened BlockCode
  import opened RegisterLowering
  import opened LoweredBody
  import opened LoweredPrograms
  import opened LoweredDrivers
  import opened BlockMachine
  import opened BlockCalls
  import opened BlockBody
  import opened BlockShape
  import opened BlockPrograms

  // ------------------------------------------------------------------ the lowered program as a program for the drivers

  /** `Instruction::execute` for lowered structured code. */
  function ExecuteCtl<W>(op: FrameCtl, rt: Runtime<W>, l: RegLayout, b: nat, s: RegStore<W>)
    : Exec<nat, RegStore<W>>
  {
    match op
    case FDo(x) => ExecuteOp(x, rt, l, b, s)
    case FGoto(t) => Exec.Ok(JumpTo(t), s)
    case FBranch(cond, inputs, out, t) =>
      if !BranchInRange(l, b, op, s.regs) then Exec.Trap(PANIC, s)
      else if IsTrue(s.regs[b + cond]) then
        Exec.Ok(JumpTo(t), s.(regs := Overwrite(s.regs, b + out, Gather(s.regs, b, inputs))))
      else Exec.Ok(Next, s)
    case FMark => Exec.Ok(Next, s)
    case FStop => Exec.Trap(Fault(2), s)
  }

  function CtlExecutor<W>(decode: Instr -> FrameCtl, rt: Runtime<W>)
    : (Instr, RegLayout, nat, RegStore<W>) -> Exec<nat, RegStore<W>>
  {
    (i: Instr, l: RegLayout, b: nat, s: RegStore<W>) => ExecuteCtl(decode(i), rt, l, b, s)
  }

  ghost predicate RealizesBlocks<W(!new)>(
    e: Env<RegLayout, nat, RegStore<W>>, funcs: seq<StructuredFunc>, decode: Instr -> FrameCtl, rt: Runtime<W>)
    requires StructuredProgramOk(funcs)
  {
    && e.machine == RegMachine(CtlExecutor(decode, rt))
    && OffsetsParallel(e.program) && e.program.importedCount == rt.imports && ImportsFirst(funcs, rt)
    && |e.program.signatures| == |funcs| && |e.program.bodies| == |funcs| - rt.imports
    && (forall g :: 0 <= g < |funcs| ==> SignatureMatches(e.program.signatures[g], funcs[g]))
    && forall g :: 0 <= g < |funcs| && funcs[g].Function? ==> FuncInPlace(e, funcs, decode, g)
  }

  ghost predicate FuncInPlace<W(!new)>(
    e: Env<RegLayout, nat, RegStore<W>>, funcs: seq<StructuredFunc>, decode: Instr -> FrameCtl, g: nat)
    requires StructuredProgramOk(funcs) && g < |funcs| && funcs[g].Function?
  {
    && IsLocal(e.program, g)
    && var (body, lowered) := (BodyOf(e.program, g), LowerFunc(funcs, g));
      && body.locals == funcs[g].locals && body.layout == lowered.layout
      && |body.instructions| == |lowered.code|
      && forall j :: 0 <= j < |lowered.code| ==> decode(body.instructions[j]) == lowered.code[j]
  }

  /** What the driver sees of a lowered function. */
  lemma BodyInPlace<W(!new)>(
    e: Env<RegLayout, nat, RegStore<W>>, funcs: seq<StructuredFunc>, decode: Instr -> FrameCtl, rt: Runtime<W>,
    g: nat)
    requires StructuredProgramOk(funcs) && RealizesBlocks(e, funcs, decode, rt) && g < |funcs| && funcs[g].Function?
    ensures OffsetsParallel(e.program) && IsLocal(e.program, g) && ImportsFirst(funcs, rt)
    ensures var f, body, lowered := funcs[g], BodyOf(e.program, g), LowerFunc(funcs, g);
      && body.layout == lowered.layout && |body.instructions| == |lowered.code| == |body.offsets|
      && ResultCount(e.program, g) == f.results && |e.program.signatures[g].params| == f.params
         && body.locals == f.locals
      && f.params <= |f.locals| == lowered.layout.localsCount <= lowered.layout.registers
      && lowered.layout.localsCount + f.results <= lowered.layout.registers
      && lowered.code != [] && lowered.code[|lowered.code| - 1] == FMark
      && (forall j :: 0 <= j < |lowered.code| ==>
        StepCallsOk(funcs, lowered.code[j]) && CtlShaped(lowered.layout, lowered.code[j], |lowered.code|))
      && forall j, b, s :: 0 <= j < |lowered.code| ==>
        e.machine.execute(body.instructions[j], body.layout, b, s)
          == ExecuteCtl(lowered.code[j], rt, body.layout, b, s)
    ensures forall n, b, l, s :: e.machine.exit(n, b, l, s) == RegStore(LeaveFrame(s.regs, n, b, l), s.rest)
  {
    hide StructuredProgramOk, LowerFunc, ExecuteCtl, ExitRegs, StepCallsOk, CtlShaped;
    assert FuncInPlace(e, funcs, decode, g);
    LoweredFuncShape(funcs, g);
  }

  /** No lowered body ends in a call: it ends with its end. */
  lemma EndsInMark<W(!new)>(
    e: Env<RegLayout, nat, RegStore<W>>, funcs: seq<StructuredFunc>, decode: Instr -> FrameCtl, rt: Runtime<W>)
    requires StructuredProgramOk(funcs) && RealizesBlocks(e, funcs, decode, rt)
    ensures OffsetsParallel(e.program) && NeverCallsLast(e)
  {
    hide StructuredProgramOk, LowerFunc;
    forall i, b, s | 0 <= i < |e.program.bodies| && e.program.bodies[i].instructions != []
      ensures !ReportsCall(LastExec(e.machine, e.program.bodies[i], b, s))
    {
      BodyInPlace(e, funcs, decode, rt, i + rt.imports);
    }
  }

  // ------------------------------------------------------------------ what lowering guarantees its runtime

  /** An instruction that calls nothing writes only slots its frame may write. */
  lemma CtlWritesOwn<W>(op: FrameCtl, rt: Runtime<W>, l: RegLayout, b: nat, s: RegStore<W>)
    requires !ReportsCall(ExecuteCtl(op, rt, l, b, s))
    ensures var t := ExecuteCtl(op, rt, l, b, s).store;
      && |t.regs| == |s.regs|
      && forall i :: 0 <= i < |s.regs| && t.regs[i] != s.regs[i] ==> Writable(l, b, i)
  {
    if op.FDo? && op.op.FCall? {
      HostWritesOwn(rt, l, b, op.op, s);
    } else if op.FDo? && InRange(l, b, op.op, s.regs) {
      StepWritesOwn(rt, l, b, op.op, s.regs, s.rest);
    }
  }

  lemma StructuredStepOk<W(!new)>(
    e: Env<RegLayout, nat, RegStore<W>>, funcs: seq<StructuredFunc>, decode: Instr -> FrameCtl, rt: Runtime<W>,
    f: nat, pc: nat, b: nat, s: RegStore<W>)
    requires StructuredProgramOk(funcs) && RealizesBlocks(e, funcs, decode, rt)
    requires IsLocal(e.program, f) && pc < |BodyOf(e.program, f).instructions|
    ensures RegStepOk(e, f, pc, b, s)
  {
    hide LowerFunc, StructuredProgramOk, RealizesBlocks;
    LocalIsFunc(e, funcs, decode, rt, f);
    BodyInPlace(e, funcs, decode, rt, f);
    var l, op := LowerFunc(funcs, f).layout, LowerFunc(funcs, f).code[pc];
    assert StepCallsOk(funcs, op);
    if ReportsCall(ExecuteCtl(op, rt, l, b, s)) {
      CalleeSignature(e, funcs, decode, rt, op.op.callee);
    } else {
      CtlWritesOwn(op, rt, l, b, s);
    }
  }

  lemma CalleeSignature<W(!new)>(
    e: Env<RegLayout, nat, RegStore<W>>, funcs: seq<StructuredFunc>, decode: Instr -> FrameCtl, rt: Runtime<W>,
    h: nat)
    requires StructuredProgramOk(funcs) && RealizesBlocks(e, funcs, decode, rt) && h < |funcs|
    ensures |e.program.signatures| == |funcs| && |e.program.signatures[h].params| == funcs[h].params
  {
    assert SignatureMatches(e.program.signatures[h], funcs[h]);
  }

  lemma LocalIsFunc<W(!new)>(
    e: Env<RegLayout, nat, RegStore<W>>, funcs: seq<StructuredFunc>, decode: Instr -> FrameCtl, rt: Runtime<W>,
    f: nat)
    requires StructuredProgramOk(funcs) && RealizesBlocks(e, funcs, decode, rt) && IsLocal(e.program, f)
    ensures f < |funcs| && funcs[f].Function? && ImportsFirst(funcs, rt)
    ensures e.machine == RegMachine(CtlExecutor(decode, rt))
  {
  }

  /** Lowered structured programs keep to their own frames, as the register file's theorems ask. */
  lemma StructuredIsDisciplined<W(!new)>(
    e: Env<RegLayout, nat, RegStore<W>>, funcs: seq<StructuredFunc>, decode: Instr -> FrameCtl, rt: Runtime<W>)
    requires StructuredProgramOk(funcs) && RealizesBlocks(e, funcs, decode, rt)
    ensures OffsetsParallel(e.program) && RegDisciplined(e)
  {
    hide StructuredProgramOk, RegStepOk, LowerFunc;
    EndsInMark(e, funcs, decode, rt);
    forall f: nat | IsLocal(e.program, f)
      ensures RegWellFormed(BodyOf(e.program, f), e.program.signatures[f])
    {
      LocalIsFunc(e, funcs, decode, rt, f);
      BodyInPlace(e, funcs, decode, rt, f);
    }
    forall f: nat, pc: nat, b: nat, s | IsLocal(e.program, f) && pc < |BodyOf(e.program, f).instructions|
      ensures RegStepOk(e, f, pc, b, s)
    {
      StructuredStepOk(e, funcs, decode, rt, f, pc, b, s);
    }
  }

  // ------------------------------------------------------------------ one instruction, on both sides

  /** What a callee left in the file above its results, if it returned. */
  ghost function Left<W(!new)>(
    e: Env<RegLayout, nat, RegStore<W>>, funcs: seq<StructuredFunc>, g: nat, b: nat, regs: seq<Value>, x: World<W>,
    depth: nat)
    : seq<Value>
    requires OffsetsParallel(e.program)
  {
    if Imported(funcs, g) then if b + funcs[g].results <= |regs| then regs[b + funcs[g].results..] else []
    else if
      x.Here? && g < |funcs| && exists n: nat :: NativeCall(e, n, g, b, RegStore(regs, x.world), depth).Returned?
    then
      var n: nat :| NativeCall(e, n, g, b, RegStore(regs, x.world), depth).Returned?;
      var t := NativeCall(e, n, g, b, RegStore(regs, x.world), depth).store.regs;
      if b + funcs[g].results <= |t| then t[b + funcs[g].results..] else []
    else []
  }

  /** Any run of the callee that returned will do. */
  lemma LeftIs<W(!new)>(
    e: Env<RegLayout, nat, RegStore<W>>, funcs: seq<StructuredFunc>, n: nat, g: nat, b: nat, s: RegStore<W>, depth: nat)
    requires OffsetsParallel(e.program) && g < |funcs| && funcs[g].Function?
    requires NativeCall(e, n, g, b, s, depth).Returned?
    requires b + funcs[g].results <= |NativeCall(e, n, g, b, s, depth).store.regs|
    ensures Left(e, funcs, g, b, s.regs, Here(s.rest), depth)
         == NativeCall(e, n, g, b, s, depth).store.regs[b + funcs[g].results..]
  {
    hide NativeCall;
    assert s == RegStore(s.regs, s.rest);
    forall m: nat | NativeCall(e, m, g, b, s, depth).Returned?
      ensures NativeCall(e, m, g, b, s, depth) == NativeCall(e, n, g, b, s, depth)
    {
      if n <= m {
        MoreFuel(e, n, m, g, b, s, depth);
      } else {
        MoreFuel(e, m, n, g, b, s, depth);
      }
    }
  }

  /** The effects a lowered activation at `depth` sees. */
  ghost function Files<W(!new)>(
    e: Env<RegLayout, nat, RegStore<W>>, funcs: seq<StructuredFunc>, rt: Runtime<W>, fuel: nat, depth: nat)
    : FileEffects<World<W>>
    requires OffsetsParallel(e.program)
  {
    FileEffects(
      Within(funcs, rt, fuel, Remaining(e.maxDepth, depth)),
      (g: nat, b: nat, regs: seq<Value>, x: World<W>) => Left(e, funcs, g, b, regs, x, depth))
  }

  /** An instruction that calls nothing computes the same on both sides. */
  lemma QuietOp<W(!new)>(
    fx: FileEffects<World<W>>, rt: Runtime<W>, l: RegLayout, b: nat, op: FrameOp, s: RegStore<W>)
    requires forall code, args, x :: fx.effects.apply(code, args, x) == Lifted(rt, code, args, x)
    requires InRange(l, b, op, s.regs) && !op.FCall?
    ensures match RegStep(Local(rt), l, b, op, s.regs, s.rest)
      case Goes((regs, w)) => RegStep(fx, l, b, op, s.regs, Here(s.rest)) == Goes((regs, Here(w)))
      case Trapped(w) => RegStep(fx, l, b, op, s.regs, Here(s.rest)) == Trapped(Here(w))
  {
  }

  /** An imported callee, as a lowered activation sees it: the host's results over the arguments. */
  ghost predicate SeesHost<W(!new)>(fx: FileEffects<World<W>>, funcs: seq<StructuredFunc>, rt: Runtime<W>) {
    && (forall g: nat, args, w :: Imported(funcs, g) ==>
      fx.effects.call(g, args, Here(w)) == (rt.host(g, args, w).0, Here(rt.host(g, args, w).1)))
    && forall g: nat, b: nat, regs, x :: Imported(funcs, g) && b + funcs[g].results <= |regs| ==>
      fx.leftover(g, b, regs, x) == regs[b + funcs[g].results..]
  }

  lemma HostStep<W(!new)>(
    fx: FileEffects<World<W>>, funcs: seq<StructuredFunc>, rt: Runtime<W>, l: RegLayout, b: nat, op: FrameOp,
    s: RegStore<W>)
    requires SeesHost(fx, funcs, rt) && FrameCallsOk(funcs, op) && op.FCall? && Imported(funcs, op.callee)
    requires InRange(l, b, op, s.regs)
    ensures match HostCall(rt, op, b + op.base, s.regs, s.rest)
      case Goes((regs, w)) => RegStep(fx, l, b, op, s.regs, Here(s.rest)) == Goes((regs, Here(w)))
      case Trapped(w) => RegStep(fx, l, b, op, s.regs, Here(s.rest)) == Trapped(Here(w))
  {
    hide AfterCallee, Overwrite;
    HostOverwrites(rt, op, b + op.base, s.regs, s.rest);
  }

  lemma QuietStep<W(!new)>(
    fx: FileEffects<World<W>>, funcs: seq<StructuredFunc>, rt: Runtime<W>, l: RegLayout, b: nat, code: seq<FrameCtl>,
    pc: nat, s: RegStore<W>)
    requires forall code, args, x :: fx.effects.apply(code, args, x) == Lifted(rt, code, args, x)
    requires SeesHost(fx, funcs, rt) && ImportsFirst(funcs, rt) && pc < |code| && StepCallsOk(funcs, code[pc])
    requires !ReportsCall(ExecuteCtl(code[pc], rt, l, b, s))
    ensures var pt := CtlStep(fx, l, b, code, At(pc, s.regs, Here(s.rest)));
      match ExecuteCtl(code[pc], rt, l, b, s)
      case Trap(_, t) => pt == Halted(Here(t.rest))
      case Ok(Next, t) => pt == At(pc + 1, t.regs, Here(t.rest))
      case Ok(JumpTo(i), t) => pt == At(i, t.regs, Here(t.rest))
      case Ok(Call(_, _, _), _) => false
  {
    hide RegStep, InRange, Overwrite, Gather, HostCall, SeesHost;
    if code[pc].FDo? && code[pc].op.FCall? && InRange(l, b, code[pc].op, s.regs) {
      HostStep(fx, funcs, rt, l, b, code[pc].op, s);
    } else if code[pc].FDo? && InRange(l, b, code[pc].op, s.regs) {
      QuietOp(fx, rt, l, b, code[pc].op, s);
    }
  }

  /** A call, as `execute` reports it, and as the run of the callee's frame makes it. */
  lemma CallStep<W(!new)>(
    fx: FileEffects<World<W>>, rt: Runtime<W>, l: RegLayout, b: nat, code: seq<FrameCtl>, pc: nat, s: RegStore<W>)
    requires pc < |code| && ReportsCall(ExecuteCtl(code[pc], rt, l, b, s))
    ensures code[pc].FDo? && code[pc].op.FCall? && InRange(l, b, code[pc].op, s.regs)
    ensures rt.imports <= code[pc].op.callee
    ensures var op := code[pc].op;
      && ExecuteCtl(code[pc], rt, l, b, s) == Exec.Ok(Step.Call(op.callee, b + op.base, None), s)
      && b + op.base + op.params <= |s.regs|
      && CtlStep(fx, l, b, code, At(pc, s.regs, Here(s.rest))) ==
         match Answer(fx.effects.call(op.callee, s.regs[b + op.base..b + op.base + op.params], Here(s.rest)),
           op.results) {
           case Goes((rs, x)) =>
             At(pc + 1, AfterCallee(s.regs, b + op.base, rs,
               fx.leftover(op.callee, b + op.base, s.regs, Here(s.rest))), x)
           case Trapped(x) => Halted(x)
         }
  {
    hide AfterCallee, Overwrite, Gather;
    var op := code[pc].op;
    CallBounds(l, op);
  }

  // ------------------------------------------------------------------ runs, on both sides

  ghost predicate LoopUnwinds<W>(
    e: Env<RegLayout, nat, RegStore<W>>, m: nat, g: nat, pc: nat, b: nat, s: RegStore<W>, depth: nat, w: W)
    requires OffsetsParallel(e.program) && IsLocal(e.program, g) && 1 <= depth
  {
    NativeLoop(e, m, g, pc, b, s, depth).Unwound? && NativeLoop(e, m, g, pc, b, s, depth).store.rest == w
  }

  /**
   What the recursive driver does from instruction `pc` of `g` when `n` steps of the lowered
   code, with callees given `fuel`, come to `pt`.
   */
  ghost predicate Driven<W>(
    e: Env<RegLayout, nat, RegStore<W>>, results: nat, l: RegLayout, size: nat, fuel: nat, n: nat,
    g: nat, pc: nat, b: nat, s: RegStore<W>, depth: nat, pt: Point<World<W>>)
    requires OffsetsParallel(e.program) && IsLocal(e.program, g) && 1 <= depth
  {
    match pt
    case Halted(Here(w)) => exists m: nat :: LoopUnwinds(e, m, g, pc, b, s, depth, w)
    case Halted(Lost) => forall m: nat :: m <= fuel ==> LoopGoesOn(e, m, g, pc, b, s, depth)
    case At(pc', regs, x) =>
      if pc' < size then x.Here? && forall m: nat :: m <= n ==> LoopGoesOn(e, m, g, pc, b, s, depth)
      else
        && pc' == size && x.Here?
        && exists m: nat :: LoopReturns(e, m, g, pc, b, s, depth, RegStore(LeaveFrame(regs, results, b, l), x.world))
  }

  lemma DrivenBefore<W>(
    e: Env<RegLayout, nat, RegStore<W>>, results: nat, l: RegLayout, size: nat, fuel: nat, n: nat,
    g: nat, pc: nat, b: nat, s: RegStore<W>, pc1: nat, s1: RegStore<W>, depth: nat, enough: nat, pt: Point<World<W>>)
    requires OffsetsParallel(e.program) && IsLocal(e.program, g) && 1 <= depth && 0 < n
    requires AlwaysUnrolls(e, enough, g, pc, b, s, pc1, s1, depth)
    requires Driven(e, results, l, size, fuel, n - 1, g, pc1, b, s1, depth, pt)
    ensures Driven(e, results, l, size, fuel, n, g, pc, b, s, depth, pt)
  {
    hide NativeLoop, LeaveFrame;
    match pt
    case Halted(Here(w)) =>
      var m: nat :| LoopUnwinds(e, m, g, pc1, b, s1, depth, w);
      var k := Later(e, m, enough, g, pc, b, s, pc1, s1, depth);
      assert LoopUnwinds(e, k, g, pc, b, s, depth, w);
    case Halted(Lost) =>
      GoesOnBefore(e, fuel, fuel, enough, g, pc, b, s, pc1, s1, depth);
    case At(pc', regs, x) =>
      if pc' < size {
        GoesOnBefore(e, n, n - 1, enough, g, pc, b, s, pc1, s1, depth);
      } else {
        var t := RegStore(LeaveFrame(regs, results, b, l), x.world);
        var m: nat :| LoopReturns(e, m, g, pc1, b, s1, depth, t);
        var k := Later(e, m, enough, g, pc, b, s, pc1, s1, depth);
        assert LoopReturns(e, k, g, pc, b, s, depth, t);
      }
  }

  // ------------------------------------------------------------------ one iteration of the recursive driver

  lemma TrapUnwinds<W>(
    e: Env<RegLayout, nat, RegStore<W>>, g: nat, pc: nat, b: nat, s: RegStore<W>, depth: nat)
    requires OffsetsParallel(e.program) && IsLocal(e.program, g) && 1 <= depth
      && pc < |BodyOf(e.program, g).instructions|
    requires var body := BodyOf(e.program, g);
      var x := e.machine.execute(body.instructions[pc], body.layout, b, s);
      x.Trap? || (ReportsCall(x) && e.maxDepth <= depth)
    ensures var body := BodyOf(e.program, g);
      LoopUnwinds(e, 1, g, pc, b, s, depth, e.machine.execute(body.instructions[pc], body.layout, b, s).store.rest)
  {
  }

  lemma CallUnwinds<W>(
    e: Env<RegLayout, nat, RegStore<W>>, n: nat, g: nat, pc: nat, b: nat, s: RegStore<W>, depth: nat, h: nat, hb: nat,
    w: W)
    requires OffsetsParallel(e.program) && IsLocal(e.program, g) && 1 <= depth && CallsAt(e, g, pc, b, s, depth, h, hb)
    requires NativeCall(e, n, h, hb, s, depth).Unwound? && NativeCall(e, n, h, hb, s, depth).store.rest == w
    ensures LoopUnwinds(e, n + 1, g, pc, b, s, depth, w)
  {
    hide NativeCall;
  }

  // ------------------------------------------------------------------ calls settle alike

  ghost predicate CallReturns<W>(
    e: Env<RegLayout, nat, RegStore<W>>, n: nat, results: nat, g: nat, b: nat, s: RegStore<W>, depth: nat,
    rs: seq<Value>, w: W)
    requires OffsetsParallel(e.program)
  {
    var r := NativeCall(e, n, g, b, s, depth);
    && r.Returned? && r.store.rest == w && |rs| == results
    && b <= |s.regs| <= |r.store.regs| && b + results <= |r.store.regs|
    && r.store.regs[..b] == s.regs[..b] && r.store.regs[b..b + results] == rs
  }

  ghost predicate CallFails<W>(
    e: Env<RegLayout, nat, RegStore<W>>, n: nat, g: nat, b: nat, s: RegStore<W>, depth: nat, w: W)
    requires OffsetsParallel(e.program)
  {
    NativeCall(e, n, g, b, s, depth).Unwound? && NativeCall(e, n, g, b, s, depth).store.rest == w
  }

  /** The recursive driver, on a call, does what the stack machine replied; while that is unfinished, it is too. */
  ghost predicate CallSettles<W>(
    e: Env<RegLayout, nat, RegStore<W>>, results: nat, fuel: nat, g: nat, b: nat, s: RegStore<W>, depth: nat,
    reply: Reply<W>)
    requires OffsetsParallel(e.program)
  {
    match reply
    case Answered(rs, w) => exists n: nat :: CallReturns(e, n, results, g, b, s, depth, rs, w)
    case Stuck(w) => exists n: nat :: CallFails(e, n, g, b, s, depth, w)
    case Unfinished => forall m: nat :: m <= fuel ==> NativeCall(e, m, g, b, s, depth).OutOfFuel?
  }

  /** A callee that returned leaves the file as the abstract callee of the single-body theorem does. */
  lemma ReturnedFile(regs: seq<Value>, at: nat, rs: seq<Value>, t: seq<Value>)
    requires at <= |regs| <= |t| && at + |rs| <= |t| && t[..at] == regs[..at] && t[at..at + |rs|] == rs
    ensures AfterCallee(regs, at, rs, t[at + |rs|..]) == t
  {
    assert t == t[..at] + t[at..at + |rs|] + t[at + |rs|..];
  }

  // ------------------------------------------------------------------ the simulation

  lemma FilesSeeHost<W(!new)>(
    e: Env<RegLayout, nat, RegStore<W>>, funcs: seq<StructuredFunc>, rt: Runtime<W>, fuel: nat, depth: nat)
    requires OffsetsParallel(e.program)
    ensures SeesHost(Files(e, funcs, rt, fuel, depth), funcs, rt)
  {
    hide CallWithin, NativeCall;
  }

  lemma FilesAre<W(!new)>(
    e: Env<RegLayout, nat, RegStore<W>>, funcs: seq<StructuredFunc>, rt: Runtime<W>, fuel: nat, depth: nat)
    requires OffsetsParallel(e.program)
    ensures var fx, d := Files(e, funcs, rt, fuel, depth), Remaining(e.maxDepth, depth);
      && 1 <= d && fx.effects == Within(funcs, rt, fuel, d)
      && (forall code, args, x :: fx.effects.apply(code, args, x) == Lifted(rt, code, args, x))
      && SeesHost(fx, funcs, rt)
      && (forall g: nat, args, w :: !Imported(funcs, g) ==>
        fx.effects.call(g, args, Here(w)) == Delivery(CallWithin(funcs, rt, fuel, d - 1, g, args, w)))
      && (forall g, b, regs, x :: fx.leftover(g, b, regs, x) == Left(e, funcs, g, b, regs, x, depth))
  {
    hide CallWithin, Left, SeesHost;
    FilesSeeHost(e, funcs, rt, fuel, depth);
  }

  lemma NoActivationLeft<W>(
    funcs: seq<StructuredFunc>, rt: Runtime<W>, fuel: nat, g: nat, args: seq<Value>, w: W)
    ensures CallWithin(funcs, rt, fuel, 0, g, args, w) == Stuck(w)
  {
  }

  /** Any number of steps of a lowered activation, as the recursive driver makes them. */
  lemma {:induction false} StepsDrive<W(!new)>(
    e: Env<RegLayout, nat, RegStore<W>>, funcs: seq<StructuredFunc>, decode: Instr -> FrameCtl, rt: Runtime<W>,
    fuel: nat,
    n: nat, g: nat, pc: nat, b: nat, s: RegStore<W>, depth: nat, fx: FileEffects<World<W>>, pt: Point<World<W>>)
    requires StructuredProgramOk(funcs) && RealizesBlocks(e, funcs, decode, rt)
    requires g < |funcs| && funcs[g].Function? && 1 <= depth
    requires pc < |LowerFunc(funcs, g).code| && fx == Files(e, funcs, rt, fuel, depth)
    requires var lowered := LowerFunc(funcs, g);
      pt == Steps(fx, lowered.layout, b, lowered.code, n, At(pc, s.regs, Here(s.rest)))
    requires pt.At? ==> pt.pc <= |LowerFunc(funcs, g).code|
    ensures IsLocal(e.program, g)
    ensures var lowered := LowerFunc(funcs, g);
      Driven(e, funcs[g].results, lowered.layout, |lowered.code|, fuel, n, g, pc, b, s, depth, pt)
    decreases Remaining(e.maxDepth, depth), 0, n, 1
  {
    hide StructuredProgramOk, LowerFunc, RealizesBlocks, ExecuteCtl, CtlStep, NativeLoop, Driven, AlwaysUnrolls, Files,
         LeaveFrame,
         StepCallsOk, CallWithin;
    BodyInPlace(e, funcs, decode, rt, g);
    FilesAre(e, funcs, rt, fuel, depth);
    var f, body, lowered := funcs[g], BodyOf(e.program, g), LowerFunc(funcs, g);
    var code, l := lowered.code, lowered.layout;
    var at := At(pc, s.regs, Here(s.rest));
    if n == 0 {
      NotYet(e, g, pc, b, s, depth);
      DrivenNow(e, f.results, l, |code|, fuel, g, pc, b, s, depth);
    } else {
      var x := ExecuteCtl(code[pc], rt, l, b, s);
      assert x == e.machine.execute(body.instructions[pc], body.layout, b, s);
      var pt1 := CtlStep(fx, l, b, code, at);
      if ReportsCall(x) {
        CallDrivesOn(e, funcs, decode, rt, fuel, n, g, pc, b, s, depth, fx, pt);
      } else {
        QuietStep(fx, funcs, rt, l, b, code, pc, s);
        match x {
          case Trap(_, t) =>
            TrapUnwinds(e, g, pc, b, s, depth);
            HaltedStays(fx, l, b, code, n - 1, Here(t.rest));
            DrivenHalt(e, f.results, l, |code|, fuel, n, g, pc, b, s, depth, 1, t.rest);
          case Ok(step, s1) =>
            var pc1 := if step.Next? then pc + 1 else step.target;
            QuietUnrolls(e, g, pc, b, s, pc1, s1, depth);
            if pc1 < |code| {
              StepsDrive(e, funcs, decode, rt, fuel, n - 1, g, pc1, b, s1, depth, fx, pt);
              DrivenBefore(e, f.results, l, |code|, fuel, n, g, pc, b, s, pc1, s1, depth, 0, pt);
            } else {
              EndedStays(fx, l, b, code, n - 1, pt1);
              DrivenEnd(e, f.results, l, |code|, fuel, n, g, pc, b, s, depth, 1, s1);
            }
        }
      }
    }
  }

  lemma DrivenNow<W>(
    e: Env<RegLayout, nat, RegStore<W>>, results: nat, l: RegLayout, size: nat, fuel: nat, g: nat, pc: nat, b: nat,
    s: RegStore<W>,
    depth: nat)
    requires OffsetsParallel(e.program) && IsLocal(e.program, g) && 1 <= depth && pc < size
    requires LoopGoesOn(e, 0, g, pc, b, s, depth)
    ensures Driven(e, results, l, size, fuel, 0, g, pc, b, s, depth, At(pc, s.regs, Here(s.rest)))
  {
  }

  lemma DrivenHalt<W>(
    e: Env<RegLayout, nat, RegStore<W>>, results: nat, l: RegLayout, size: nat, fuel: nat, n: nat, g: nat, pc: nat,
    b: nat,
    s: RegStore<W>, depth: nat, m: nat, w: W)
    requires OffsetsParallel(e.program) && IsLocal(e.program, g) && 1 <= depth
      && LoopUnwinds(e, m, g, pc, b, s, depth, w)
    ensures Driven(e, results, l, size, fuel, n, g, pc, b, s, depth, Halted(Here(w)))
  {
  }

  lemma DrivenEnd<W>(
    e: Env<RegLayout, nat, RegStore<W>>, results: nat, l: RegLayout, size: nat, fuel: nat, n: nat, g: nat, pc: nat,
    b: nat,
    s: RegStore<W>, depth: nat, m: nat, s1: RegStore<W>)
    requires OffsetsParallel(e.program) && IsLocal(e.program, g) && 1 <= depth
    requires LoopReturns(e, m, g, pc, b, s, depth, RegStore(LeaveFrame(s1.regs, results, b, l), s1.rest))
    ensures Driven(e, results, l, size, fuel, n, g, pc, b, s, depth, At(size, s1.regs, Here(s1.rest)))
  {
  }

  /** The same when the next step is a call. */
  lemma {:induction false} CallDrivesOn<W(!new)>(
    e: Env<RegLayout, nat, RegStore<W>>, funcs: seq<StructuredFunc>, decode: Instr -> FrameCtl, rt: Runtime<W>,
    fuel: nat,
    n: nat, g: nat, pc: nat, b: nat, s: RegStore<W>, depth: nat, fx: FileEffects<World<W>>, pt: Point<World<W>>)
    requires StructuredProgramOk(funcs) && RealizesBlocks(e, funcs, decode, rt)
    requires g < |funcs| && funcs[g].Function? && 1 <= depth && 0 < n
    requires pc < |LowerFunc(funcs, g).code| && fx == Files(e, funcs, rt, fuel, depth)
    requires var lowered := LowerFunc(funcs, g);
      && pt == Steps(fx, lowered.layout, b, lowered.code, n, At(pc, s.regs, Here(s.rest)))
      && ReportsCall(ExecuteCtl(lowered.code[pc], rt, lowered.layout, b, s))
    requires pt.At? ==> pt.pc <= |LowerFunc(funcs, g).code|
    ensures IsLocal(e.program, g)
    ensures var lowered := LowerFunc(funcs, g);
      Driven(e, funcs[g].results, lowered.layout, |lowered.code|, fuel, n, g, pc, b, s, depth, pt)
    decreases Remaining(e.maxDepth, depth), 0, n, 0
  {
    hide StructuredProgramOk, LowerFunc, RealizesBlocks, ExecuteCtl, CtlStep, NativeLoop, NativeCall, Driven,
         AlwaysUnrolls, Files,
         LeaveFrame, CallWithin, AfterCallee, Left, Within, CallReturns;
    BodyInPlace(e, funcs, decode, rt, g);
    FilesAre(e, funcs, rt, fuel, depth);
    var f, body, lowered := funcs[g], BodyOf(e.program, g), LowerFunc(funcs, g);
    var code, l := lowered.code, lowered.layout;
    CallStep(fx, rt, l, b, code, pc, s);
    assert StepCallsOk(funcs, code[pc]);
    var op := code[pc].op;
    var h, hb := op.callee, b + op.base;
    var args := s.regs[hb..hb + op.params];
    assert e.machine.execute(body.instructions[pc], body.layout, b, s) == Exec.Ok(Step.Call(h, hb, None), s);
    if e.maxDepth <= depth {
      NoActivationLeft(funcs, rt, fuel, h, args, s.rest);
      TrapUnwinds(e, g, pc, b, s, depth);
      HaltedStays(fx, l, b, code, n - 1, Here(s.rest));
      DrivenHalt(e, f.results, l, |code|, fuel, n, g, pc, b, s, depth, 1, s.rest);
    } else {
      CallDrives(e, funcs, decode, rt, fuel, h, hb, s, depth);
      match CallWithin(funcs, rt, fuel, Remaining(e.maxDepth, depth + 1), h, args, s.rest) {
        case Stuck(w) =>
          var m: nat :| CallFails(e, m, h, hb, s, depth, w);
          CallUnwinds(e, m, g, pc, b, s, depth, h, hb, w);
          HaltedStays(fx, l, b, code, n - 1, Here(w));
          DrivenHalt(e, f.results, l, |code|, fuel, n, g, pc, b, s, depth, m + 1, w);
        case Unfinished =>
          CallGoesOn(e, fuel, g, pc, b, s, depth, h, hb);
          HaltedStays(fx, l, b, code, n - 1, Lost);
          DrivenLost(e, f.results, l, |code|, fuel, n, g, pc, b, s, depth);
        case Answered(rs, w) =>
          var m: nat :| CallReturns(e, m, op.results, h, hb, s, depth, rs, w);
          var t := ReturnedStep(e, funcs, m, h, hb, s, depth, rs, w);
          CallUnrolls(e, m, g, pc, b, s, depth, h, hb);
          StepsDrive(e, funcs, decode, rt, fuel, n - 1, g, pc + 1, b, t, depth, fx, pt);
          DrivenBefore(e, f.results, l, |code|, fuel, n, g, pc, b, s, pc + 1, t, depth, m, pt);
      }
    }
  }

  lemma DrivenLost<W>(
    e: Env<RegLayout, nat, RegStore<W>>, results: nat, l: RegLayout, size: nat, fuel: nat, n: nat, g: nat, pc: nat,
    b: nat,
    s: RegStore<W>, depth: nat)
    requires OffsetsParallel(e.program) && IsLocal(e.program, g) && 1 <= depth
    requires forall m: nat :: m <= fuel ==> LoopGoesOn(e, m, g, pc, b, s, depth)
    ensures Driven(e, results, l, size, fuel, n, g, pc, b, s, depth, Halted(Lost))
  {
  }

  /** A callee that returned: the file after it, in the terms of the abstract callee. */
  lemma ReturnedStep<W(!new)>(
    e: Env<RegLayout, nat, RegStore<W>>, funcs: seq<StructuredFunc>, m: nat, h: nat, hb: nat, s: RegStore<W>,
    depth: nat,
    rs: seq<Value>, w: W)
    returns (t: RegStore<W>)
    requires OffsetsParallel(e.program) && h < |funcs| && funcs[h].Function?
    requires CallReturns(e, m, funcs[h].results, h, hb, s, depth, rs, w)
    ensures NativeCall(e, m, h, hb, s, depth).Returned? && t == NativeCall(e, m, h, hb, s, depth).store && t.rest == w
    ensures |rs| == funcs[h].results && hb <= |s.regs|
    ensures AfterCallee(s.regs, hb, rs, Left(e, funcs, h, hb, s.regs, Here(s.rest), depth)) == t.regs
  {
    hide NativeCall, Left, AfterCallee;
    t := NativeCall(e, m, h, hb, s, depth).store;
    LeftIs(e, funcs, m, h, hb, s, depth);
    ReturnedFile(s.regs, hb, rs, t.regs);
  }

  /** A call of a lowered function, by the recursive driver, settles as the stack machine's. */
  lemma {:induction false} CallDrives<W(!new)>(
    e: Env<RegLayout, nat, RegStore<W>>, funcs: seq<StructuredFunc>, decode: Instr -> FrameCtl, rt: Runtime<W>,
    fuel: nat,
    g: nat, b: nat, s: RegStore<W>, depth: nat)
    requires StructuredProgramOk(funcs) && RealizesBlocks(e, funcs, decode, rt) && g < |funcs| && funcs[g].Function?
    requires b + funcs[g].params <= |s.regs|
    ensures OffsetsParallel(e.program)
    ensures CallSettles(e, funcs[g].results, fuel, g, b, s, depth,
                        CallWithin(funcs, rt, fuel, Remaining(e.maxDepth, depth + 1), g,
                          s.regs[b..b + funcs[g].params], s.rest))
    decreases Remaining(e.maxDepth, depth + 1), 1
  {
    hide StructuredProgramOk, LowerFunc, RealizesBlocks, NativeLoop, NativeCall, Driven, Files, CallWithin, RunSeq,
         Steps, EnterRegs,
         LowerStructured, NoOperandStranded, BodyValid, StructuredOk, Answers, CallSettles, Within, SeqCallsOk;
    BodyInPlace(e, funcs, decode, rt, g);
    StructuredFacts(funcs, g);
    FuncParts(funcs, funcs[g]);
    var f, lowered := funcs[g], LowerFunc(funcs, g);
    var l, code := lowered.layout, lowered.code;
    var fx := Files(e, funcs, rt, fuel, depth + 1);
    FilesAre(e, funcs, rt, fuel, depth + 1);
    StructuredBodyCorrect(fx, f.body, f.params, f.locals, f.results, lowered, b, s.regs, Here(s.rest), fuel);
    var entered := s.(regs := EnterRegs(s.regs, f.params, f.locals, b, l));
    var at := At(0, entered.regs, Here(s.rest));
    var args := s.regs[b..b + f.params];
    var flow := RunSeq(fx.effects, fuel, f.body, State(args + Zeros(f.locals[f.params..]), [], Here(s.rest)));
    CallIs(funcs, rt, fuel, Remaining(e.maxDepth, depth + 1), g, args, s.rest);
    var n: nat :| Answers(flow, f.results, l, b, s.regs, |code|, fuel, n, Steps(fx, l, b, code, n, at));
    var pt := Steps(fx, l, b, code, n, at);
    AnswersAt(flow, f.results, l, b, s.regs, |code|, fuel, n, pt);
    StepsDrive(e, funcs, decode, rt, fuel, n, g, 0, b, entered, depth + 1, fx, pt);
    CallIsLoop(e, funcs, decode, rt, g, b, s, entered, depth);
    Settled(e, f.results, l, fuel, n, g, b, s, entered, depth, |code|, flow, pt);
  }

  lemma AnswersAt<W>(
    f: Flow<W>, results: nat, l: RegLayout, b: nat, regs: seq<Value>, end: nat, fuel: nat, n: nat, pt: Point<W>)
    requires Answers(f, results, l, b, regs, end, fuel, n, pt)
    ensures pt.At? ==> pt.pc <= end
  {
    hide ExitRegs;
  }

  ghost predicate CallRunsLoop<W>(
    e: Env<RegLayout, nat, RegStore<W>>, g: nat, b: nat, s: RegStore<W>, entered: RegStore<W>, depth: nat)
    requires OffsetsParallel(e.program) && IsLocal(e.program, g)
  {
    forall m: nat :: NativeCall(e, m, g, b, s, depth) == NativeLoop(e, m, g, 0, b, entered, depth + 1)
  }

  lemma CallIsLoop<W(!new)>(
    e: Env<RegLayout, nat, RegStore<W>>, funcs: seq<StructuredFunc>, decode: Instr -> FrameCtl, rt: Runtime<W>,
    g: nat, b: nat, s: RegStore<W>, entered: RegStore<W>, depth: nat)
    requires StructuredProgramOk(funcs) && RealizesBlocks(e, funcs, decode, rt) && g < |funcs| && funcs[g].Function?
    requires funcs[g].params <= |funcs[g].locals| <= LowerFunc(funcs, g).layout.registers
    requires entered == s.(regs := EnterRegs(s.regs, funcs[g].params, funcs[g].locals, b, LowerFunc(funcs, g).layout))
    ensures OffsetsParallel(e.program) && IsLocal(e.program, g) && CallRunsLoop(e, g, b, s, entered, depth)
  {
    hide StructuredProgramOk, LowerFunc, NativeLoop, EnterRegs;
    BodyInPlace(e, funcs, decode, rt, g);
  }

  /** From what the activation's loop does to what the call does. */
  lemma Settled<W>(
    e: Env<RegLayout, nat, RegStore<W>>, results: nat, l: RegLayout, fuel: nat, n: nat, g: nat, b: nat, s: RegStore<W>,
    entered: RegStore<W>, depth: nat, size: nat, flow: Flow<World<W>>, pt: Point<World<W>>)
    requires OffsetsParallel(e.program) && IsLocal(e.program, g) && CallRunsLoop(e, g, b, s, entered, depth)
    requires Answers(flow, results, l, b, s.regs, size, fuel, n, pt)
    requires Driven(e, results, l, size, fuel, n, g, 0, b, entered, depth + 1, pt)
    ensures CallSettles(e, results, fuel, g, b, s, depth, ReplyOf(flow, results))
  {
    hide NativeCall, NativeLoop, ExitRegs;
    match flow
    case Stopped(Here(w)) =>
      var m: nat :| LoopUnwinds(e, m, g, 0, b, entered, depth + 1, w);
      assert CallFails(e, m, g, b, s, depth, w);
    case Stopped(Lost) =>
      forall m: nat | m <= fuel ensures NativeCall(e, m, g, b, s, depth).OutOfFuel? {
        assert LoopGoesOn(e, m, g, 0, b, entered, depth + 1);
      }
    case OutOfFuel =>
      forall m: nat | m <= fuel ensures NativeCall(e, m, g, b, s, depth).OutOfFuel? {
        assert LoopGoesOn(e, m, g, 0, b, entered, depth + 1);
      }
    case Fall(st) =>
      var m: nat :|
        LoopReturns(e, m, g, 0, b, entered, depth + 1, RegStore(LeaveFrame(pt.regs, results, b, l), pt.world.world));
      Delivered(e, results, l, g, b, s, entered, depth, st, pt, m);
    case Jump(_, st) =>
      var m: nat :|
        LoopReturns(e, m, g, 0, b, entered, depth + 1, RegStore(LeaveFrame(pt.regs, results, b, l), pt.world.world));
      Delivered(e, results, l, g, b, s, entered, depth, st, pt, m);
  }

  lemma Delivered<W>(
    e: Env<RegLayout, nat, RegStore<W>>, results: nat, l: RegLayout, g: nat, b: nat, s: RegStore<W>,
    entered: RegStore<W>, depth: nat, st: State<World<W>>, pt: Point<World<W>>, m: nat)
    requires OffsetsParallel(e.program) && IsLocal(e.program, g) && CallRunsLoop(e, g, b, s, entered, depth)
    requires pt.At? && Delivers(st, results, l, b, s.regs, pt.pc, pt) && pt.world.Here?
    requires LoopReturns(e, m, g, 0, b, entered, depth + 1,
      RegStore(LeaveFrame(pt.regs, results, b, l), pt.world.world))
    ensures var rs, w := st.stack[|st.stack| - results..], st.world.world;
      exists m: nat :: CallReturns(e, m, results, g, b, s, depth, rs, w)
  {
    hide NativeCall, NativeLoop, ExitRegs;
    var t := RegStore(LeaveFrame(pt.regs, results, b, l), pt.world.world);
    assert NativeCall(e, m, g, b, s, depth) == Returned(t, depth);
    assert CallReturns(e, m, results, g, b, s, depth, st.stack[|st.stack| - results..], st.world.world);
  }

  // ------------------------------------------------------------------ whole programs

  /** Both drivers end in `final`, which is what the stack machine replied. */
  ghost predicate EndsAlike<W(!new)>(
    e: Env<RegLayout, nat, RegStore<W>>, g: nat, s: RegStore<W>, reply: Reply<W>, final: Final<RegStore<W>>)
    requires OffsetsParallel(e.program)
  {
    && NativeEnds(e, g, 0, s, final) && FrameEnds(e, g, 0, s, final)
    && match reply
       case Answered(rs, w) => final.Completed? && |rs| <= |final.store.regs|
           && final.store == RegStore(rs + final.store.regs[|rs|..], w)
       case Stuck(w) => final.Error? && final.store.rest == w
       case Unfinished => false
  }

  /** What the stack machine replies, allowed as many activations as the drivers allow. */
  ghost function StackReply<W(!new)>(
    e: Env<RegLayout, nat, RegStore<W>>, funcs: seq<StructuredFunc>, rt: Runtime<W>, fuel: nat, g: nat,
    s: RegStore<W>): Reply<W>
    requires g < |funcs| && funcs[g].params <= |s.regs|
  {
    CallWithin(funcs, rt, fuel, Remaining(e.maxDepth, 1), g, s.regs[..funcs[g].params], s.rest)
  }

  /** When the stack machine replies, both drivers end, and alike. */
  lemma ReplyEndsDrivers<W(!new)>(
    e: Env<RegLayout, nat, RegStore<W>>, funcs: seq<StructuredFunc>, decode: Instr -> FrameCtl, rt: Runtime<W>,
    fuel: nat,
    g: nat, s: RegStore<W>)
    returns (final: Final<RegStore<W>>)
    requires StructuredProgramOk(funcs) && RealizesBlocks(e, funcs, decode, rt) && g < |funcs| && funcs[g].Function?
      && funcs[g].params <= |s.regs|
    requires !StackReply(e, funcs, rt, fuel, g, s).Unfinished?
    ensures OffsetsParallel(e.program) && EndsAlike(e, g, s, StackReply(e, funcs, rt, fuel, g, s), final)
  {
    hide StructuredProgramOk, FuncInPlace, NativeCall, FrameEnds, NeverCallsLast, CallWithin, RealizesBlocks;
    CallDrives(e, funcs, decode, rt, fuel, g, 0, s, 0);
    assert s.regs[0..0 + funcs[g].params] == s.regs[..funcs[g].params];
    EndsInMark(e, funcs, decode, rt);
    var n: nat;
    match StackReply(e, funcs, rt, fuel, g, s) {
      case Answered(rs, w) =>
        var m: nat :| CallReturns(e, m, funcs[g].results, g, 0, s, 0, rs, w);
        n := m;
        var t := NativeCall(e, m, g, 0, s, 0).store;
        assert t.regs == t.regs[0..0 + |rs|] + t.regs[|rs|..];
      case Stuck(w) =>
        var m: nat :| CallFails(e, m, g, 0, s, 0, w);
        n := m;
    }
    final := NativeFinal(NativeCall(e, n, g, 0, s, 0)).value;
    assert NativeEnds(e, g, 0, s, final);
    DriversAgree(e, g, 0, s, final);
  }

  /**
   A lowered program of structured functions, run by either driver, ends if and only if the
   stack machine does; and however a driver ends, the stack machine's reply is the same.
   */
  lemma StructuredProgramRuns<W(!new)>(
    e: Env<RegLayout, nat, RegStore<W>>, funcs: seq<StructuredFunc>, decode: Instr -> FrameCtl, rt: Runtime<W>,
    g: nat, s: RegStore<W>, final: Final<RegStore<W>>)
    requires StructuredProgramOk(funcs) && RealizesBlocks(e, funcs, decode, rt) && g < |funcs| && funcs[g].Function?
      && funcs[g].params <= |s.regs|
    ensures OffsetsParallel(e.program)
    ensures NativeEnds(e, g, 0, s, final) <==> FrameEnds(e, g, 0, s, final)
    ensures NativeEnds(e, g, 0, s, final) <==>
      exists fuel: nat :: EndsAlike(e, g, s, StackReply(e, funcs, rt, fuel, g, s), final)
  {
    hide StructuredProgramOk, FuncInPlace, NativeCall, FrameEnds, NeverCallsLast, CallWithin, RealizesBlocks,
         StackReply;
    EndsInMark(e, funcs, decode, rt);
    DriversAgree(e, g, 0, s, final);
    if NativeEnds(e, g, 0, s, final) {
      var n: nat :| NativeFinal(NativeCall(e, n, g, 0, s, 0)) == Some(final);
      StillRunning(e, funcs, decode, rt, n, g, s);
      var final' := ReplyEndsDrivers(e, funcs, decode, rt, n, g, s);
      OneEnd(e, g, 0, s, final, final');
      assert EndsAlike(e, g, s, StackReply(e, funcs, rt, n, g, s), final);
    }
  }

  /** A call that the stack machine has not finished with some fuel, the driver has not finished with as much. */
  lemma StillRunning<W(!new)>(
    e: Env<RegLayout, nat, RegStore<W>>, funcs: seq<StructuredFunc>, decode: Instr -> FrameCtl, rt: Runtime<W>,
    fuel: nat,
    g: nat, s: RegStore<W>)
    requires StructuredProgramOk(funcs) && RealizesBlocks(e, funcs, decode, rt) && g < |funcs| && funcs[g].Function?
      && funcs[g].params <= |s.regs|
    ensures OffsetsParallel(e.program)
    ensures StackReply(e, funcs, rt, fuel, g, s).Unfinished? ==> NativeCall(e, fuel, g, 0, s, 0).OutOfFuel?
  {
    hide StructuredProgramOk, NativeCall, CallWithin, RealizesBlocks;
    CallDrives(e, funcs, decode, rt, fuel, g, 0, s, 0);
    assert s.regs[0..0 + funcs[g].params] == s.regs[..funcs[g].params];
  }


  // ------------------------------------------------------------------ no lowered program panics

  lemma ShapedDoesNotPanic<W>(op: FrameCtl, rt: Runtime<W>, l: RegLayout, b: nat, s: RegStore<W>, size: nat)
    requires CtlShaped(l, op, size) && l.localsCount <= l.registers && b + Width(l) <= |s.regs|
    ensures var x := ExecuteCtl(op, rt, l, b, s);
      x.Trap? ==> x.err != PANIC
  {
    hide ExecuteOp, InFrame, Overwrite, Gather;
    if op.FDo? {
      InFrameDoesNotPanic(op.op, rt, l, b, s);
    }
  }

  lemma StructuredStepSafe<W(!new)>(
    e: Env<RegLayout, nat, RegStore<W>>, funcs: seq<StructuredFunc>, decode: Instr -> FrameCtl, rt: Runtime<W>,
    f: nat, pc: nat, b: nat, s: RegStore<W>)
    requires StructuredProgramOk(funcs) && RealizesBlocks(e, funcs, decode, rt)
    requires IsLocal(e.program, f) && pc < |BodyOf(e.program, f).instructions|
    ensures StepSafe(RegView<W>(), e, AnyState(), PANIC, f, pc, b, s)
  {
    hide StructuredProgramOk, RealizesBlocks, RegView, AnyState, RegIntact, LowerFunc, CtlShaped;
    LocalIsFunc(e, funcs, decode, rt, f);
    BodyInPlace(e, funcs, decode, rt, f);
    var body, lowered := BodyOf(e.program, f), LowerFunc(funcs, f);
    if FrameOk(RegView<W>(), body, b, s) {
      FrameInFile(body, b, s);
      ShapedDoesNotPanic(lowered.code[pc], rt, lowered.layout, b, s, |lowered.code|);
      assert StepCallsOk(funcs, lowered.code[pc]);
      if ReportsCall(ExecuteCtl(lowered.code[pc], rt, lowered.layout, b, s)) {
        BodyInPlace(e, funcs, decode, rt, lowered.code[pc].op.callee);
      }
    }
  }

  lemma StructuredIsSafe<W(!new)>(
    e: Env<RegLayout, nat, RegStore<W>>, funcs: seq<StructuredFunc>, decode: Instr -> FrameCtl, rt: Runtime<W>)
    requires StructuredProgramOk(funcs) && RealizesBlocks(e, funcs, decode, rt)
    ensures AllSafe(RegView<W>(), e, AnyState(), PANIC)
  {
    hide StructuredProgramOk, RealizesBlocks, RegView, AnyState, StepSafe, LowerFunc;
    forall f: nat | IsLocal(e.program, f) ensures BodyOf(e.program, f).instructions != [] {
      LocalIsFunc(e, funcs, decode, rt, f);
      BodyInPlace(e, funcs, decode, rt, f);
    }
    forall f: nat, pc: nat, b: nat, s | IsLocal(e.program, f) && pc < |BodyOf(e.program, f).instructions|
      ensures StepSafe(RegView<W>(), e, AnyState(), PANIC, f, pc, b, s)
    {
      StructuredStepSafe(e, funcs, decode, rt, f, pc, b, s);
    }
  }

  /**
   However the run of a lowered program of structured functions ends, under either driver, no index
   was out of range, no body was overrun and every callee was there.
   */
  lemma StructuredDoesNotPanic<W(!new)>(
    e: Env<RegLayout, nat, RegStore<W>>, funcs: seq<StructuredFunc>, decode: Instr -> FrameCtl, rt: Runtime<W>,
    g: nat, s: RegStore<W>, final: Final<RegStore<W>>)
    requires StructuredProgramOk(funcs) && RealizesBlocks(e, funcs, decode, rt) && g < |funcs| && funcs[g].Function?
    requires funcs[g].params <= |s.regs|
    requires OffsetsParallel(e.program) && Ends(e, g, 0, s, final)
    ensures NoPanic(final, PANIC)
  {
    hide StructuredProgramOk, RealizesBlocks, RegView, AnyState, NativeCall, FrameEnds, RegDisciplined, AllSafe,
         Disciplined, Implements, LowerFunc;
    BodyInPlace(e, funcs, decode, rt, g);
    StructuredIsDisciplined(e, funcs, decode, rt);
    RegDisciplineHolds(e);
    StructuredIsSafe(e, funcs, decode, rt);
    RegStaged<W>(e.program.signatures[g], 0, s);
    RunsDoNotPanic(RegView<W>(), e, AnyState(), PANIC, g, 0, s, final);
  }
}
