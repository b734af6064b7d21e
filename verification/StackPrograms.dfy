/**
 Programs lowered for the stack machine, as programs for the drivers, and the proof that they
 meet what the calling convention asks: the heights the pass computes are those the operand
 stack has wherever control goes.
 */
module StackPrograms {
  import opened Values
  import opened Drivers
  import opened DriverAgreement
  import opened FrameConvention
  import opened FrameInvariant
  import opened DriverTraces
  import opened OperandStack
  import opened StackCode
  import opened BlockCode
  import opened BlockCalls
  import opened LoweredPrograms
  import opened LoweredDrivers
  import opened StackLowering
  import opened StackExecution
  import opened StackHeights

  /** The stack machine needs nothing of a frame but its heights. */
  type StackEnv<!W> = Env<(), StackBase, StackStore<W>>

  /** Validated. */
  ghost predicate StackFuncOk(funcs: seq<StructuredFunc>, f: StructuredFunc)
    requires f.Function?
  {
    && f.params <= |f.locals| && Validates(f.body, |f.locals|, f.results)
    && DepthsOk(f.body, 1) && SeqCallsOk(funcs, f.body)
  }

  ghost predicate StackProgramOk(funcs: seq<StructuredFunc>) {
    forall g :: 0 <= g < |funcs| && funcs[g].Function? ==> StackFuncOk(funcs, funcs[g])
  }

  function StackExecutor<W>(decode: Instr -> StackInstr, rt: Runtime<W>)
    : (Instr, (), StackBase, StackStore<W>) -> Exec<StackBase, StackStore<W>>
  {
    (i: Instr, l: (), b: StackBase, s: StackStore<W>) => ExecuteStack(decode(i), rt, b, s)
  }

  /** The lowered program, laid out as the drivers expect a program to be. */
  ghost predicate RealizesStack<W(!new)>(
    e: StackEnv<W>, funcs: seq<StructuredFunc>, decode: Instr -> StackInstr, rt: Runtime<W>)
    requires StackProgramOk(funcs)
  {
    && e.machine == StackMachine(StackExecutor(decode, rt))
    && OffsetsParallel(e.program) && e.program.importedCount == rt.imports && ImportsFirst(funcs, rt)
    && |e.program.signatures| == |funcs| && |e.program.bodies| == |funcs| - rt.imports
    && (forall g :: 0 <= g < |funcs| ==> SignatureMatches(e.program.signatures[g], funcs[g]))
    && forall g :: 0 <= g < |funcs| && funcs[g].Function? ==> StackFuncInPlace(e, funcs, decode, g)
  }

  ghost predicate StackFuncInPlace<W(!new)>(
    e: StackEnv<W>, funcs: seq<StructuredFunc>, decode: Instr -> StackInstr, g: nat)
    requires StackProgramOk(funcs) && g < |funcs| && funcs[g].Function?
  {
    assert StackFuncOk(funcs, funcs[g]);
    && IsLocal(e.program, g)
    && var (body, code) := (BodyOf(e.program, g), EmitBody(funcs[g].body, funcs[g].results));
      && body.locals == funcs[g].locals && |body.instructions| == |code|
      && forall j :: 0 <= j < |code| ==> decode(body.instructions[j]) == code[j]
  }

  // ------------------------------------------------------------------ emitted code calls what the program has

  predicate EmitsCallsOk(funcs: seq<StructuredFunc>, i: StackInstr) {
    i.IOp? ==> CallsOk(funcs, i.op)
  }

  lemma {:induction false} EmittedCallsOk(
    funcs: seq<StructuredFunc>, cs: seq<Ctl>, at: nat, exits: seq<Exit>, t: Track, j: nat)
    requires DepthsOk(cs, |exits|) && SeqCallsOk(funcs, cs) && j < Size(cs)
    ensures EmitsCallsOk(funcs, Emit(cs, at, exits, t)[j])
    decreases cs, 0
  {
    hide CallsOk;
    var first := SizeOne(cs[0]);
    if j < first {
      EmittedOneCallsOk(funcs, cs[0], at, exits, t, j);
    } else {
      EmittedCallsOk(funcs, cs[1..], at + first, exits, TrackOne(cs[0], t), j - first);
    }
  }

  lemma {:induction false} EmittedOneCallsOk(
    funcs: seq<StructuredFunc>, c: Ctl, at: nat, exits: seq<Exit>, t: Track, j: nat)
    requires DepthsOkOne(c, |exits|) && OneCallsOk(funcs, c) && j < SizeOne(c)
    ensures EmitsCallsOk(funcs, EmitOne(c, at, exits, t)[j])
    decreases c, 0
  {
    hide CallsOk;
    match c
    case Block(params, results, body) =>
      if 1 <= j <= Size(body) {
        var x := Exit(at + 1 + Size(body), results, BaseOf(t, params));
        EmittedCallsOk(funcs, body, at + 1, exits + [x], t, j - 1);
      }
    case Loop(params, results, body) =>
      if 1 <= j <= Size(body) {
        EmittedCallsOk(funcs, body, at + 1, exits + [Exit(at, params, BaseOf(t, params))], t, j - 1);
      }
    case _ =>
  }

  // ------------------------------------------------------------------ a function in place

  /** What the driver sees of a lowered function, and what is known of its code. */
  lemma StackBodyInPlace<W(!new)>(
    e: StackEnv<W>, funcs: seq<StructuredFunc>, decode: Instr -> StackInstr, rt: Runtime<W>, g: nat)
    requires StackProgramOk(funcs) && RealizesStack(e, funcs, decode, rt) && g < |funcs| && funcs[g].Function?
    ensures OffsetsParallel(e.program) && IsLocal(e.program, g) && ImportsFirst(funcs, rt)
    ensures var f, body := funcs[g], BodyOf(e.program, g);
      && StackFuncOk(funcs, f)
      && ResultCount(e.program, g) == f.results && |e.program.signatures[g].params| == f.params
      && body.locals == f.locals && |body.instructions| == |body.offsets| == Size(f.body) + 1
      && var code := EmitBody(f.body, f.results);
        && |code| == Size(f.body) + 1 && code[Size(f.body)] == IEnd(f.results, 0)
        && (forall j :: 0 <= j < |code| ==> EmitsCallsOk(funcs, code[j]))
        && forall j, l, b, s :: 0 <= j < |code| ==>
          e.machine.execute(body.instructions[j], l, b, s) == ExecuteStack(code[j], rt, b, s)
  {
    hide Emit, ExecuteStack, Validates, SeqCallsOk;
    assert StackFuncInPlace(e, funcs, decode, g) && StackFuncOk(funcs, funcs[g]);
    assert SignatureMatches(e.program.signatures[g], funcs[g]);
    var f := funcs[g];
    var code := EmitBody(f.body, f.results);
    forall j | 0 <= j < |code| ensures EmitsCallsOk(funcs, code[j]) {
      if j < Size(f.body) {
        EmittedCallsOk(funcs, f.body, 0, [Exit(Size(f.body), f.results, 0)], Track(0, false), j);
      }
    }
  }

  /** A local function of the program. */
  lemma LocalIsFunction<W(!new)>(
    e: StackEnv<W>, funcs: seq<StructuredFunc>, decode: Instr -> StackInstr, rt: Runtime<W>, f: nat)
    requires StackProgramOk(funcs) && RealizesStack(e, funcs, decode, rt) && IsLocal(e.program, f)
    ensures f < |funcs| && funcs[f].Function?
  {
  }

  lemma StackCallee<W(!new)>(
    e: StackEnv<W>, funcs: seq<StructuredFunc>, decode: Instr -> StackInstr, rt: Runtime<W>, h: nat)
    requires StackProgramOk(funcs) && RealizesStack(e, funcs, decode, rt) && h < |funcs|
    ensures |e.program.signatures| == |funcs|
    ensures |e.program.signatures[h].params| == funcs[h].params && |e.program.signatures[h].results| == funcs[h].results
  {
    assert SignatureMatches(e.program.signatures[h], funcs[h]);
  }

  // ------------------------------------------------------------------ the heights are right

  /** The operands are as many as the pass counted. */
  predicate AtHeight<W>(funcs: seq<StructuredFunc>, f: nat, pc: nat, b: StackBase, s: StackStore<W>) {
    f < |funcs| && funcs[f].Function? &&
    var hs := BodyHeights(funcs[f].body, funcs[f].results);
    pc < |hs| && hs[pc].Some? && |s.slots| == b.operandBase + hs[pc].value
  }

  function KnownHeights<W>(funcs: seq<StructuredFunc>): Known<StackBase, StackStore<W>> {
    (f: nat, pc: nat, b: StackBase, s: StackStore<W>) => AtHeight(funcs, f, pc, b, s)
  }

  /** The frame at `b` is live: its locals are below its operands. */
  predicate InFrameAt<W>(b: StackBase, locals: nat, s: StackStore<W>) {
    b.operandBase == b.baseHeight + locals <= |s.slots|
  }

  /** Below the frame nothing changed, and the locals are still there. */
  predicate FrameKept<W>(b: StackBase, s: StackStore<W>, t: StackStore<W>) {
    b.operandBase <= |s.slots| && b.baseHeight <= b.operandBase <= |t.slots|
    && t.slots[..b.baseHeight] == s.slots[..b.baseHeight]
  }

  /** Where an instruction of lowered code leads from the height it was given: to the height that awaits it there. */
  ghost predicate StepFits<W>(
    funcs: seq<StructuredFunc>, hs: seq<Option<int>>, rt: Runtime<W>, results: nat, pc: nat, b: StackBase,
    s: StackStore<W>, x: Exec<StackBase, StackStore<W>>)
  {
    && FrameKept(b, s, x.store)
    && match x
       case Trap(err, _) => err != PANIC
       case Ok(Next, t) => Awaited(hs, results, pc + 1, b, t)
       case Ok(JumpTo(target), t) => Awaited(hs, results, target, b, t)
       case Ok(Call(h, hb, _), t) =>
         && t == s && h < |funcs| && rt.imports <= h
         && b.operandBase <= hb.baseHeight && hb.baseHeight + funcs[h].params == |s.slots|
         && HeightIs(hs, pc + 1, hb.baseHeight + funcs[h].results - b.operandBase)
  }

  /** The height at `pc`, or the results at the end of the body. */
  predicate Awaited<W>(hs: seq<Option<int>>, results: nat, pc: nat, b: StackBase, s: StackStore<W>) {
    if pc == |hs| then |s.slots| == b.operandBase + results else HeightIs(hs, pc, |s.slots| - b.operandBase)
  }

  /** No instruction of lowered code panics, and each goes where its height is awaited. */
  lemma CertifiedStep<W>(
    funcs: seq<StructuredFunc>, code: seq<StackInstr>, hs: seq<Option<int>>, locals: nat, results: nat, pc: nat,
    rt: Runtime<W>, b: StackBase, s: StackStore<W>)
    requires Certified(code, hs, locals, results, pc) && HeightIs(hs, pc, |s.slots| - b.operandBase)
    requires InFrameAt(b, locals, s) && EmitsCallsOk(funcs, code[pc])
    ensures StepFits(funcs, hs, rt, results, pc, b, s, ExecuteStack(code[pc], rt, b, s))
  {
    hide ExecuteStackOp, StepFits, Respects, Leap, EmitsCallsOk;
    match code[pc]
    case IOp(Const(_)) => CertifiedMove(funcs, code, hs, locals, results, pc, rt, b, s);
    case IOp(Drop) => CertifiedMove(funcs, code, hs, locals, results, pc, rt, b, s);
    case IOp(LocalGet(_)) => CertifiedLocal(funcs, code, hs, locals, results, pc, rt, b, s);
    case IOp(LocalSet(_)) => CertifiedLocal(funcs, code, hs, locals, results, pc, rt, b, s);
    case IOp(LocalTee(_)) => CertifiedLocal(funcs, code, hs, locals, results, pc, rt, b, s);
    case IOp(Apply(_, _, _)) => CertifiedApply(funcs, code, hs, locals, results, pc, rt, b, s);
    case IOp(Invoke(_, _, _)) => CertifiedCall(funcs, code, hs, locals, results, pc, rt, b, s);
    case IBr(_, _, _) => CertifiedLeap(funcs, code, hs, locals, results, pc, rt, b, s);
    case IBrIf(_, _, _) => CertifiedLeap(funcs, code, hs, locals, results, pc, rt, b, s);
    case _ => CertifiedMark(funcs, code, hs, locals, results, pc, rt, b, s);
  }

  lemma CertifiedMove<W>(
    funcs: seq<StructuredFunc>, code: seq<StackInstr>, hs: seq<Option<int>>, locals: nat, results: nat, pc: nat,
    rt: Runtime<W>, b: StackBase, s: StackStore<W>)
    requires Certified(code, hs, locals, results, pc) && HeightIs(hs, pc, |s.slots| - b.operandBase)
    requires InFrameAt(b, locals, s) && EmitsCallsOk(funcs, code[pc])
    requires code[pc].IOp? && (code[pc].op.Const? || code[pc].op.Drop?)
    ensures StepFits(funcs, hs, rt, results, pc, b, s, ExecuteStack(code[pc], rt, b, s))
  {
  }

  lemma CertifiedLocal<W>(
    funcs: seq<StructuredFunc>, code: seq<StackInstr>, hs: seq<Option<int>>, locals: nat, results: nat, pc: nat,
    rt: Runtime<W>, b: StackBase, s: StackStore<W>)
    requires Certified(code, hs, locals, results, pc) && HeightIs(hs, pc, |s.slots| - b.operandBase)
    requires InFrameAt(b, locals, s) && EmitsCallsOk(funcs, code[pc])
    requires code[pc].IOp? && (code[pc].op.LocalGet? || code[pc].op.LocalSet? || code[pc].op.LocalTee?)
    ensures StepFits(funcs, hs, rt, results, pc, b, s, ExecuteStack(code[pc], rt, b, s))
  {
  }

  lemma CertifiedApply<W>(
    funcs: seq<StructuredFunc>, code: seq<StackInstr>, hs: seq<Option<int>>, locals: nat, results: nat, pc: nat,
    rt: Runtime<W>, b: StackBase, s: StackStore<W>)
    requires Certified(code, hs, locals, results, pc) && HeightIs(hs, pc, |s.slots| - b.operandBase)
    requires InFrameAt(b, locals, s) && EmitsCallsOk(funcs, code[pc])
    requires code[pc].IOp? && code[pc].op.Apply?
    ensures StepFits(funcs, hs, rt, results, pc, b, s, ExecuteStack(code[pc], rt, b, s))
  {
    var op := code[pc].op;
    ReplacedFits(funcs, hs, rt, results, pc, b, s, rt.apply(op.code, s.slots[|s.slots| - op.ins..], s.rest), op.ins,
                 op.outs);
  }

  lemma CertifiedCall<W>(
    funcs: seq<StructuredFunc>, code: seq<StackInstr>, hs: seq<Option<int>>, locals: nat, results: nat, pc: nat,
    rt: Runtime<W>, b: StackBase, s: StackStore<W>)
    requires Certified(code, hs, locals, results, pc) && HeightIs(hs, pc, |s.slots| - b.operandBase)
    requires InFrameAt(b, locals, s) && EmitsCallsOk(funcs, code[pc])
    requires code[pc].IOp? && code[pc].op.Invoke?
    ensures StepFits(funcs, hs, rt, results, pc, b, s, ExecuteStack(code[pc], rt, b, s))
  {
    hide Replaced;
    var op := code[pc].op;
    ReplacedFits(funcs, hs, rt, results, pc, b, s, rt.host(op.callee, s.slots[|s.slots| - op.params..], s.rest),
                 op.params, op.results);
  }

  /** The results of an operator or of the host take the place of the operands. */
  lemma ReplacedFits<W>(
    funcs: seq<StructuredFunc>, hs: seq<Option<int>>, rt: Runtime<W>, results: nat, pc: nat, b: StackBase,
    s: StackStore<W>, answer: (Option<seq<Value>>, W), ins: nat, outs: nat)
    requires b.baseHeight <= b.operandBase <= |s.slots| - ins
    requires HeightIs(hs, pc + 1, |s.slots| - b.operandBase - ins + outs)
    ensures StepFits(funcs, hs, rt, results, pc, b, s, Replaced(answer, ins, outs, s))
  {
  }

  lemma CertifiedLeap<W>(
    funcs: seq<StructuredFunc>, code: seq<StackInstr>, hs: seq<Option<int>>, locals: nat, results: nat, pc: nat,
    rt: Runtime<W>, b: StackBase, s: StackStore<W>)
    requires Certified(code, hs, locals, results, pc) && HeightIs(hs, pc, |s.slots| - b.operandBase)
    requires InFrameAt(b, locals, s) && EmitsCallsOk(funcs, code[pc])
    requires code[pc].IBr? || code[pc].IBrIf?
    ensures StepFits(funcs, hs, rt, results, pc, b, s, ExecuteStack(code[pc], rt, b, s))
  {
  }

  lemma CertifiedMark<W>(
    funcs: seq<StructuredFunc>, code: seq<StackInstr>, hs: seq<Option<int>>, locals: nat, results: nat, pc: nat,
    rt: Runtime<W>, b: StackBase, s: StackStore<W>)
    requires Certified(code, hs, locals, results, pc) && HeightIs(hs, pc, |s.slots| - b.operandBase)
    requires InFrameAt(b, locals, s) && EmitsCallsOk(funcs, code[pc])
    requires code[pc].IBlock? || code[pc].ILoop? || code[pc].IUnreachable? || code[pc].IEnd?
    ensures StepFits(funcs, hs, rt, results, pc, b, s, ExecuteStack(code[pc], rt, b, s))
  {
  }

  // ------------------------------------------------------------------ the calling convention's demands are met

  /** The view, in terms of the stack. */
  lemma StackViewIs<W>(body: Body<()>, ty: FuncType, n: nat, b: StackBase, s: StackStore<W>)
    ensures var v := StackView<(), W>();
      && v.slots(s) == s.slots && v.reserved(s) == 0 && v.baseOf(b) == b.baseHeight
      && v.operandBase(body, b) == b.baseHeight + |body.locals|
      && v.intact(body, b, s) == (b.operandBase == b.baseHeight + |body.locals|)
      && v.staged(ty, b, s) == (b.baseHeight + |ty.params| == |s.slots|)
      && v.wellFormed(body, ty) == (|ty.params| <= |body.locals|)
      && (forall end: nat :: v.endsAt(end, s) == (|s.slots| == end))
      && v.ready(body, n, b, s) == (b.operandBase + n <= |s.slots|)
  {
  }

  lemma KnownIs<W>(funcs: seq<StructuredFunc>, f: nat, pc: nat, b: StackBase, s: StackStore<W>)
    ensures KnownHeights<W>(funcs)(f, pc, b, s) == AtHeight(funcs, f, pc, b, s)
  {
    hide AtHeight;
  }

  lemma AwaitedLands<W(!new)>(
    e: StackEnv<W>, funcs: seq<StructuredFunc>, f: nat, pc: nat, b: StackBase, s: StackStore<W>)
    requires IsLocal(e.program, f) && f < |funcs| && funcs[f].Function?
    requires ResultCount(e.program, f) == funcs[f].results
    requires |BodyOf(e.program, f).instructions| == |BodyHeights(funcs[f].body, funcs[f].results)|
    requires Awaited(BodyHeights(funcs[f].body, funcs[f].results), funcs[f].results, pc, b, s)
    ensures Lands(StackView<(), W>(), e, KnownHeights(funcs), f, pc, b, s)
  {
    hide BodyHeights, StackView, KnownHeights;
    StackViewIs(BodyOf(e.program, f), e.program.signatures[f], funcs[f].results, b, s);
    KnownIs(funcs, f, pc, b, s);
  }

  /** However a callee returns, the caller has its results and is at the height that awaits them. */
  lemma CalleeResumes<W(!new)>(
    funcs: seq<StructuredFunc>, f: nat, pc: nat, b: StackBase, base: nat, n: nat, s: StackStore<W>)
    requires f < |funcs| && funcs[f].Function?
    requires HeightIs(BodyHeights(funcs[f].body, funcs[f].results), pc + 1, base + n - b.operandBase)
    ensures Resumes(StackView<(), W>(), KnownHeights(funcs), f, pc, b, base, n, s)
  {
    hide BodyHeights, StackView, KnownHeights, Keeps;
    var v, end := StackView<(), W>(), base + n;
    forall t: StackStore<W> | v.endsAt(end, t) ensures KnownHeights(funcs)(f, pc + 1, b, t) {
      StackViewIs(Body([], [], [], ()), FuncType([], []), 0, b, t);
      KnownIs(funcs, f, pc + 1, b, t);
    }
  }

  lemma FitsLands<W(!new)>(
    e: StackEnv<W>, funcs: seq<StructuredFunc>, decode: Instr -> StackInstr, rt: Runtime<W>, f: nat, pc: nat,
    b: StackBase, s: StackStore<W>, x: Exec<StackBase, StackStore<W>>)
    requires StackProgramOk(funcs) && RealizesStack(e, funcs, decode, rt) && IsLocal(e.program, f)
    requires f < |funcs| && funcs[f].Function? && x.Ok?
    requires StepFits(funcs, BodyHeights(funcs[f].body, funcs[f].results), rt, funcs[f].results, pc, b, s, x)
    requires InFrameAt(b, |funcs[f].locals|, s)
    ensures StepLands(StackView<(), W>(), e, KnownHeights(funcs), f, pc, b, x.step, x.store)
  {
    hide StackProgramOk, RealizesStack, BodyHeights, StackView, KnownHeights, Resumes, Lands, StackFuncOk;
    StackBodyInPlace(e, funcs, decode, rt, f);
    var t := x.store;
    match x.step
    case Next => AwaitedLands(e, funcs, f, pc + 1, b, t);
    case JumpTo(target) => AwaitedLands(e, funcs, f, target, b, t);
    case Call(h, hb, _) =>
      StackCallee(e, funcs, decode, rt, h);
      StackViewIs(BodyOf(e.program, f), e.program.signatures[h], 0, b, t);
      StackViewIs(BodyOf(e.program, f), e.program.signatures[h], 0, hb, t);
      CalleeResumes(funcs, f, pc, b, hb.baseHeight, funcs[h].results, t);
  }

  /** One instruction keeps to its frame and to its heights. */
  lemma StackStepDisciplined<W(!new)>(
    e: StackEnv<W>, funcs: seq<StructuredFunc>, decode: Instr -> StackInstr, rt: Runtime<W>, f: nat, pc: nat,
    b: StackBase, s: StackStore<W>)
    requires StackProgramOk(funcs) && RealizesStack(e, funcs, decode, rt)
    requires IsLocal(e.program, f) && pc < |BodyOf(e.program, f).instructions|
    ensures StepDisciplined(StackView<(), W>(), e, KnownHeights(funcs), f, pc, b, s)
  {
    hide StackProgramOk, RealizesStack, ExecuteStack, EmitBody, BodyHeights, Validates, StackView, KnownHeights,
         StepLands, StepFits, Certified, EmitsCallsOk;
    LocalIsFunction(e, funcs, decode, rt, f);
    StackBodyInPlace(e, funcs, decode, rt, f);
    var fn, body := funcs[f], BodyOf(e.program, f);
    var code, hs := EmitBody(fn.body, fn.results), BodyHeights(fn.body, fn.results);
    StackViewIs(body, e.program.signatures[f], 0, b, s);
    KnownIs(funcs, f, pc, b, s);
    if FrameOk(StackView<(), W>(), body, b, s) && KnownHeights(funcs)(f, pc, b, s) {
      BodyCertified(fn.body, |fn.locals|, fn.results, pc);
      var x := ExecuteStack(code[pc], rt, b, s);
      CertifiedStep(funcs, code, hs, |fn.locals|, fn.results, pc, rt, b, s);
      KeptByFit(funcs, hs, rt, fn.results, pc, body, b, s, x);
      if x.Ok? {
        FitsLands(e, funcs, decode, rt, f, pc, b, s, x);
      }
    }
  }

  lemma KeptByFit<W>(
    funcs: seq<StructuredFunc>, hs: seq<Option<int>>, rt: Runtime<W>, results: nat, pc: nat, body: Body<()>,
    b: StackBase, s: StackStore<W>, x: Exec<StackBase, StackStore<W>>)
    requires StepFits(funcs, hs, rt, results, pc, b, s, x) && InFrameAt(b, |body.locals|, s)
    ensures Keeps(StackView<(), W>(), b.baseHeight, s, x.store) && FrameOk(StackView<(), W>(), body, b, x.store)
  {
    hide StackView;
    StackViewIs(body, FuncType([], []), 0, b, s);
    StackViewIs(body, FuncType([], []), 0, b, x.store);
  }

  /**
   Every validated program, lowered for the stack machine, meets what the calling convention and
   the drivers ask: in every state validation admits, an instruction keeps to its own frame, finds
   the height it was lowered for and leaves the height awaited where control goes next, and no
   body ends in a call.
   */
  lemma StackIsDisciplined<W(!new)>(
    e: StackEnv<W>, funcs: seq<StructuredFunc>, decode: Instr -> StackInstr, rt: Runtime<W>)
    requires StackProgramOk(funcs) && RealizesStack(e, funcs, decode, rt)
    ensures OffsetsParallel(e.program) && Disciplined(StackView<(), W>(), e, KnownHeights(funcs))
  {
    hide StepDisciplined, EntersKnown, StackProgramOk, StackView, KnownHeights, EmitBody;
    StackEndsWell(e, funcs, decode, rt);
    var v, known := StackView<(), W>(), KnownHeights<W>(funcs);
    forall f: nat, pc: nat, b, s | IsLocal(e.program, f) && pc < |BodyOf(e.program, f).instructions|
      ensures StepDisciplined(v, e, known, f, pc, b, s)
    {
      StackStepDisciplined(e, funcs, decode, rt, f, pc, b, s);
    }
    forall f: nat, b, s | IsLocal(e.program, f)
      ensures EntersKnown(v, e, known, f, b, s) && v.wellFormed(BodyOf(e.program, f), e.program.signatures[f])
    {
      StackEntersKnown(e, funcs, decode, rt, f, b, s);
    }
    forall f: nat | IsLocal(e.program, f)
      ensures v.wellFormed(BodyOf(e.program, f), e.program.signatures[f])
    {
      StackFits(e, funcs, decode, rt, f);
    }
  }

  lemma StackFits<W(!new)>(
    e: StackEnv<W>, funcs: seq<StructuredFunc>, decode: Instr -> StackInstr, rt: Runtime<W>, f: nat)
    requires StackProgramOk(funcs) && RealizesStack(e, funcs, decode, rt) && IsLocal(e.program, f)
    ensures StackView<(), W>().wellFormed(BodyOf(e.program, f), e.program.signatures[f])
  {
    hide StackProgramOk, RealizesStack, EmitBody;
    LocalIsFunction(e, funcs, decode, rt, f);
    StackBodyInPlace(e, funcs, decode, rt, f);
  }

  /** A function's frame is entered with no operands, which is the height its first instruction awaits. */
  lemma StackEntersKnown<W(!new)>(
    e: StackEnv<W>, funcs: seq<StructuredFunc>, decode: Instr -> StackInstr, rt: Runtime<W>, f: nat,
    b: StackBase, s: StackStore<W>)
    requires StackProgramOk(funcs) && RealizesStack(e, funcs, decode, rt) && IsLocal(e.program, f)
    ensures EntersKnown(StackView<(), W>(), e, KnownHeights(funcs), f, b, s)
    ensures StackView<(), W>().wellFormed(BodyOf(e.program, f), e.program.signatures[f])
  {
    hide StackProgramOk, EmitBody, BodyHeights, Validates, StackView, KnownHeights;
    LocalIsFunction(e, funcs, decode, rt, f);
    StackBodyInPlace(e, funcs, decode, rt, f);
    StackFits(e, funcs, decode, rt, f);
    var fn, body, ty := funcs[f], BodyOf(e.program, f), e.program.signatures[f];
    StackViewIs(body, ty, 0, b, s);
    BodyCertified(fn.body, |fn.locals|, fn.results, 0);
    var (b', s') := e.machine.enter(|ty.params|, body.locals, b, body.layout, s);
    KnownIs(funcs, f, 0, b', s');
  }

  lemma StackEndsWell<W(!new)>(
    e: StackEnv<W>, funcs: seq<StructuredFunc>, decode: Instr -> StackInstr, rt: Runtime<W>)
    requires StackProgramOk(funcs) && RealizesStack(e, funcs, decode, rt)
    ensures OffsetsParallel(e.program) && NeverCallsLast(e)
  {
    hide StackProgramOk, EmitBody;
    forall i, b, s | 0 <= i < |e.program.bodies| && e.program.bodies[i].instructions != []
      ensures !ReportsCall(LastExec(e.machine, e.program.bodies[i], b, s))
    {
      var g := i + rt.imports;
      StackBodyInPlace(e, funcs, decode, rt, g);
      assert BodyOf(e.program, g) == e.program.bodies[i];
    }
  }

  lemma StackStepSafe<W(!new)>(
    e: StackEnv<W>, funcs: seq<StructuredFunc>, decode: Instr -> StackInstr, rt: Runtime<W>, f: nat, pc: nat,
    b: StackBase, s: StackStore<W>)
    requires StackProgramOk(funcs) && RealizesStack(e, funcs, decode, rt)
    requires IsLocal(e.program, f) && pc < |BodyOf(e.program, f).instructions|
    ensures StepSafe(StackView<(), W>(), e, KnownHeights(funcs), PANIC, f, pc, b, s)
  {
    hide StackProgramOk, RealizesStack, ExecuteStack, EmitBody, BodyHeights, Validates, StackView, KnownHeights,
         Certified, EmitsCallsOk;
    LocalIsFunction(e, funcs, decode, rt, f);
    StackBodyInPlace(e, funcs, decode, rt, f);
    var fn, body := funcs[f], BodyOf(e.program, f);
    var code, hs := EmitBody(fn.body, fn.results), BodyHeights(fn.body, fn.results);
    StackViewIs(body, e.program.signatures[f], 0, b, s);
    KnownIs(funcs, f, pc, b, s);
    if FrameOk(StackView<(), W>(), body, b, s) && KnownHeights(funcs)(f, pc, b, s) {
      BodyCertified(fn.body, |fn.locals|, fn.results, pc);
      var x := ExecuteStack(code[pc], rt, b, s);
      CertifiedStep(funcs, code, hs, |fn.locals|, fn.results, pc, rt, b, s);
      if ReportsCall(x) {
        FunctionIsLocal(e, funcs, decode, rt, x.step.callee);
      }
    }
  }

  lemma FunctionIsLocal<W(!new)>(
    e: StackEnv<W>, funcs: seq<StructuredFunc>, decode: Instr -> StackInstr, rt: Runtime<W>, h: nat)
    requires StackProgramOk(funcs) && RealizesStack(e, funcs, decode, rt) && rt.imports <= h < |funcs|
    ensures IsLocal(e.program, h)
  {
  }

  lemma StackIsSafe<W(!new)>(
    e: StackEnv<W>, funcs: seq<StructuredFunc>, decode: Instr -> StackInstr, rt: Runtime<W>)
    requires StackProgramOk(funcs) && RealizesStack(e, funcs, decode, rt)
    ensures AllSafe(StackView<(), W>(), e, KnownHeights(funcs), PANIC)
  {
    hide StackProgramOk, RealizesStack, StackView, KnownHeights, StepSafe, EmitBody;
    forall f: nat | IsLocal(e.program, f) ensures BodyOf(e.program, f).instructions != [] {
      LocalIsFunction(e, funcs, decode, rt, f);
      StackBodyInPlace(e, funcs, decode, rt, f);
    }
    forall f: nat, pc: nat, b, s | IsLocal(e.program, f) && pc < |BodyOf(e.program, f).instructions|
      ensures StepSafe(StackView<(), W>(), e, KnownHeights(funcs), PANIC, f, pc, b, s)
    {
      StackStepSafe(e, funcs, decode, rt, f, pc, b, s);
    }
  }

  // ------------------------------------------------------------------ what follows for every run

  /**
   In every state of every run of a lowered program, at every depth of calls, the operand stack is
   as high as the pass counted at the instruction to be executed, and every suspended caller will
   be at the height counted after its call.
   */
  lemma HeightsAreRight<W(!new)>(
    e: StackEnv<W>, funcs: seq<StructuredFunc>, decode: Instr -> StackInstr, rt: Runtime<W>, n: nat, f: nat,
    base: StackBase, s: StackStore<W>)
    requires StackProgramOk(funcs) && RealizesStack(e, funcs, decode, rt) && IsLocal(e.program, f)
    requires base.baseHeight + |e.program.signatures[f].params| == |s.slots|
    ensures OffsetsParallel(e.program)
    ensures var r := FrameDriver(e, n, f, base, s);
      r.Running? ==>
        && (r.config.pc < |r.config.instructions| ==>
             AtHeight(funcs, r.config.func, r.config.pc, r.config.base, r.config.store))
        && AllWhole(StackView<(), W>(), e, r.config) && AllKnown(StackView<(), W>(), KnownHeights(funcs), r.config)
  {
    hide StackProgramOk, RealizesStack, StackView, KnownHeights, Implements, Disciplined, FrameDriver, AllWhole,
         AtHeight;
    StackIsDisciplined(e, funcs, decode, rt);
    StackImplements(StackExecutor(decode, rt));
    StackMachineIs(e, funcs, decode, rt);
    StackViewIs(BodyOf(e.program, f), e.program.signatures[f], 0, base, s);
    DriverKeepsWhole(StackView<(), W>(), e, KnownHeights(funcs), n, f, base, s);
    var r := FrameDriver(e, n, f, base, s);
    if r.Running? {
      KnownIs(funcs, r.config.func, r.config.pc, r.config.base, r.config.store);
    }
  }

  lemma StackMachineIs<W(!new)>(
    e: StackEnv<W>, funcs: seq<StructuredFunc>, decode: Instr -> StackInstr, rt: Runtime<W>)
    requires StackProgramOk(funcs) && RealizesStack(e, funcs, decode, rt)
    ensures e.machine == StackMachine(StackExecutor(decode, rt))
  {
  }

  /**
   However a lowered program's run ends, under either driver, it is not in a panic: no slot was out
   of range, no `end` found another height than it asserts, and no body was overrun.
   */
  lemma StackDoesNotPanic<W(!new)>(
    e: StackEnv<W>, funcs: seq<StructuredFunc>, decode: Instr -> StackInstr, rt: Runtime<W>, f: nat,
    base: StackBase, s: StackStore<W>, final: Final<StackStore<W>>)
    requires StackProgramOk(funcs) && RealizesStack(e, funcs, decode, rt) && IsLocal(e.program, f)
    requires base.baseHeight + |e.program.signatures[f].params| == |s.slots|
    requires OffsetsParallel(e.program) && Ends(e, f, base, s, final)
    ensures NoPanic(final, PANIC)
  {
    hide StackProgramOk, RealizesStack, StackView, KnownHeights, Implements, Disciplined, AllSafe, NativeEnds,
         FrameEnds;
    StackIsDisciplined(e, funcs, decode, rt);
    StackIsSafe(e, funcs, decode, rt);
    StackImplements(StackExecutor(decode, rt));
    StackMachineIs(e, funcs, decode, rt);
    StackViewIs(BodyOf(e.program, f), e.program.signatures[f], 0, base, s);
    RunsDoNotPanic(StackView<(), W>(), e, KnownHeights(funcs), PANIC, f, base, s, final);
  }

  /** A call in a lowered program leaves the stack below its arguments as it was and its results on top. */
  lemma StackProgramCallTree<W(!new)>(
    e: StackEnv<W>, funcs: seq<StructuredFunc>, decode: Instr -> StackInstr, rt: Runtime<W>, fuel: nat, g: nat,
    base: StackBase, s: StackStore<W>, depth: nat)
    requires StackProgramOk(funcs) && RealizesStack(e, funcs, decode, rt) && IsLocal(e.program, g)
    requires base.baseHeight + |e.program.signatures[g].params| == |s.slots|
    ensures OffsetsParallel(e.program)
    ensures var r, end := NativeCall(e, fuel, g, base, s, depth), CallEnding(e, fuel, g, base, s, depth);
      var n := ResultCount(e.program, g);
      r.Returned? ==>
        && end.Some? && n <= |end.value.store.slots|
        && r.store.slots == s.slots[..base.baseHeight] + end.value.store.slots[|end.value.store.slots| - n..]
  {
    hide StackProgramOk, RealizesStack, StackView, KnownHeights, Implements, Disciplined, NativeCall, CallEnding;
    StackIsDisciplined(e, funcs, decode, rt);
    StackMachineIs(e, funcs, decode, rt);
    StackCallTree(e, StackExecutor(decode, rt), KnownHeights(funcs), fuel, g, base, s, depth);
  }
}
