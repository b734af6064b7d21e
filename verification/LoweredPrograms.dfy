/**
 Whole programs of straight-line functions that call one another: lowered, run on the register
 file by either driver, they compute what the stack machine computes.
 */
module LoweredPrograms {
  import opened Values
  import opened RegisterLayout
  import opened StackCode
  import opened RegisterLowering
  import opened LoweredBody
  import opened LoweringCorrect

  /**
   A function before lowering; `locals` are its parameters followed by its declared locals.  An
   imported function is the host's.
   */
  datatype Function<+B> =
    | Function(params: nat, locals: seq<ValType>, results: nat, body: B)
    | Import(params: nat, results: nat)

  /** A straight-line function. */
  type Func = Function<seq<Op>>

  type Primitive<!W> = (int, seq<Value>, W) -> (Option<seq<Value>>, W)

  /**
   What a program leaves to its surroundings: the value operators, and the host's functions, which
   come first in the index space.  A host function sees and leaves the slots its caller staged.
   */
  datatype Runtime<!W> = Runtime(
    apply: Primitive<W>,
    imports: nat,
    host: (nat, seq<Value>, W) -> (Option<seq<Value>>, W))

  predicate ImportsFirst<B, W>(funcs: seq<Function<B>>, rt: Runtime<W>) {
    rt.imports <= |funcs| && forall g :: 0 <= g < |funcs| ==> (funcs[g].Import? <==> g < rt.imports)
  }

  /** Validated, and accepted by the lowering pass. */
  ghost predicate FuncOk(funcs: seq<Func>, f: Func)
    requires f.Function?
  {
    && f.params <= |f.locals| <= MAX_U16
    && ValidCode(f.body, |f.locals|, 0, f.results) && LowerBody(f.body, |f.locals|, f.results).Ok?
    && forall j :: 0 <= j < |f.body| ==> CallsOk(funcs, f.body[j])
  }

  predicate CallsOk<B>(funcs: seq<Function<B>>, op: Op) {
    op.Invoke? ==>
      op.callee < |funcs| && op.params == funcs[op.callee].params && op.results == funcs[op.callee].results
  }

  ghost predicate ProgramOk(funcs: seq<Func>) {
    forall g :: 0 <= g < |funcs| && funcs[g].Function? ==> FuncOk(funcs, funcs[g])
  }

  ghost function Lower(funcs: seq<Func>, g: nat): LoweredFunction
    requires ProgramOk(funcs) && g < |funcs| && funcs[g].Function?
  {
    var f := funcs[g];
    assert FuncOk(funcs, f);
    LowerBody(f.body, |f.locals|, f.results).value
  }

  predicate Imported<B>(funcs: seq<Function<B>>, g: nat) {
    g < |funcs| && funcs[g].Import?
  }

  // ------------------------------------------------------------------ the two meanings of a call

  /** The stack machine, with at most `d` activations at a time. */
  ghost function StackCall<W>(funcs: seq<Func>, rt: Runtime<W>, d: nat, g: nat, args: seq<Value>, w: W)
    : (Option<seq<Value>>, W)
    requires ProgramOk(funcs)
    decreases d, 1
  {
    if d == 0 || |funcs| <= g || funcs[g].Import? || |args| != funcs[g].params then (None, w)
    else
      var f := funcs[g];
      assert FuncOk(funcs, f);
      match StackRun(Calls(funcs, rt, d), f.body, f.results, State(args + Zeros(f.locals[f.params..]), [], w))
      case Goes(st) => (Some(st.stack), st.world)
      case Trapped(w') => (None, w')
  }

  /** What calls mean inside an activation that is one of at most `d`. */
  ghost function Calls<W>(funcs: seq<Func>, rt: Runtime<W>, d: nat): Effects<W>
    requires ProgramOk(funcs) && 0 < d
    decreases d, 0
  {
    Effects(
      rt.apply,
      (g: nat, args: seq<Value>, w: W) =>
        if Imported(funcs, g) then rt.host(g, args, w) else StackCall(funcs, rt, d - 1, g, args, w))
  }

  /** A lowered function on the register file: enter the frame, run the code, leave the frame. */
  ghost function RegCall<W>(funcs: seq<Func>, rt: Runtime<W>, d: nat, g: nat, b: nat, regs: seq<Value>, w: W)
    : Outcome<(seq<Value>, W), W>
    requires ProgramOk(funcs)
    decreases d, 1, 0
  {
    if d == 0 || |funcs| <= g || funcs[g].Import? || |regs| < b + funcs[g].params then Trapped(w)
    else
      var f, lowered := funcs[g], Lower(funcs, g);
      LoweredShape(funcs, g);
      match RegBody(funcs, rt, d, lowered.layout, b, lowered.code,
        EnterRegs(regs, f.params, f.locals, b, lowered.layout), w)
      case Trapped(w') => Trapped(w')
      case Goes((r, w')) => Goes((LeaveFrame(r, f.results, b, lowered.layout), w'))
  }

  ghost function LeaveFrame(regs: seq<Value>, results: nat, b: nat, l: RegLayout): seq<Value> {
    if b + OperandStart(l) + results <= |regs| then ExitRegs(regs, results, b, l) else regs
  }

  /** Instructions that only compute: calls are handled by whoever runs them. */
  function Local<W>(rt: Runtime<W>): FileEffects<W> {
    FileEffects(
      Effects(rt.apply, (g: nat, args: seq<Value>, w: W) => (None, w)),
      (g: nat, b: nat, regs: seq<Value>, w: W) => [])
  }

  /** An imported call at `at`: the host's results replace the arguments, and nothing else changes. */
  function HostCall<W>(rt: Runtime<W>, op: FrameOp, at: nat, regs: seq<Value>, w: W): Outcome<(seq<Value>, W), W>
    requires op.FCall? && at + op.params <= |regs| && at + op.results <= |regs|
  {
    match Answer(rt.host(op.callee, regs[at..at + op.params], w), op.results)
    case Goes((rs, w')) => Goes((Overwrite(regs, at, rs), w'))
    case Trapped(w') => Trapped(w')
  }

  ghost function RegBody<W>(
    funcs: seq<Func>, rt: Runtime<W>, d: nat, l: RegLayout, b: nat, code: seq<FrameOp>, regs: seq<Value>, w: W)
    : Outcome<(seq<Value>, W), W>
    requires ProgramOk(funcs) && 0 < d
    decreases d, 0, |code|
  {
    if code == [] then Goes((regs, w))
    else if !InRange(l, b, code[0], regs) then Trapped(w)
    else
      var x :=
        if code[0].FCall? && Imported(funcs, code[0].callee) then HostCall(rt, code[0], b + code[0].base, regs, w)
        else if code[0].FCall? then RegCall(funcs, rt, d - 1, code[0].callee, b + code[0].base, regs, w)
        else RegStep(Local(rt), l, b, code[0], regs, w);
      match x
      case Trapped(w') => Trapped(w')
      case Goes((regs', w')) => RegBody(funcs, rt, d, l, b, code[1..], regs', w')
  }

  // ------------------------------------------------------------------ lowered code calls what the program has

  predicate FrameCallsOk<B>(funcs: seq<Function<B>>, op: FrameOp) {
    op.FCall? ==>
      op.callee < |funcs| && op.params == funcs[op.callee].params && op.results == funcs[op.callee].results
  }

  ghost predicate SimCallsOk<B>(funcs: seq<Function<B>>, s: Sim) {
    forall j :: 0 <= j < |s.code| && s.code[j].CallLocal? ==>
      && s.code[j].callee < |funcs| && s.code[j].params == funcs[s.code[j].callee].params
      && s.code[j].results == funcs[s.code[j].callee].results
  }

  lemma OpCallsOk<B>(funcs: seq<Function<B>>, s: Sim, op: Op)
    requires SimOk(s) && Valid(op, |s.origin|, |s.stack|) && LowerOp(s, op).Ok?
    requires SimCallsOk(funcs, s) && CallsOk(funcs, op)
    ensures SimCallsOk(funcs, LowerOp(s, op).value)
  {
    hide SimOk, PushRegs, LowerCall, Materialize, Rescue;
    EntriesExist(s);
    match op
    case Const(_) =>
    case LocalGet(_) =>
    case Drop =>
    case LocalSet(i) => RescueCallsOk(funcs, s, i);
    case LocalTee(i) => RescueCallsOk(funcs, s, i);
    case Apply(code, ins, outs) =>
      var s1 := Pops(s, ins);
      var value := RegOp.Value(code, Inputs(s, ins), s1.currReg, outs);
      EmitKeepsOk(s1, value);
      PushRegsKeepsOk(Emit(s1, value), outs);
    case Invoke(callee, params, results) =>
      LowerCallShape(s, callee, params, results);
      if params != 0 {
        MaterializeKeepsOk(s, params);
      }
  }

  lemma RescueCallsOk<B>(funcs: seq<Function<B>>, s: Sim, i: nat)
    requires SimOk(s) && i < |s.origin| && Rescue(s, i).Ok? && SimCallsOk(funcs, s)
    ensures SimOk(Rescue(s, i).value) && |Rescue(s, i).value.stack| == |s.stack|
    ensures SimCallsOk(funcs, Rescue(s, i).value)
  {
    hide Count, Regs, SpillsOk;
    RescueKeepsOk(s, i);
  }

  lemma {:induction false} OpsCallsOk(funcs: seq<Func>, s: Sim, ops: seq<Op>, final: nat)
    requires SimOk(s) && ValidCode(ops, |s.origin|, |s.stack|, final) && LowerOps(s, ops, final).Ok?
    requires SimCallsOk(funcs, s) && forall j :: 0 <= j < |ops| ==> CallsOk(funcs, ops[j])
    ensures SimCallsOk(funcs, LowerOps(s, ops, final).value)
    decreases |ops|
  {
    hide SimOk, SimCallsOk, LowerOp, CallsOk;
    if ops != [] {
      LowerOpKeepsOk(s, ops[0]);
      OpCallsOk(funcs, s, ops[0]);
      assert forall j :: 0 <= j < |ops| - 1 ==> ops[1..][j] == ops[j + 1];
      OpsCallsOk(funcs, LowerOp(s, ops[0]).value, ops[1..], final);
    }
  }

  /** A lowered function: its indices fit 16 bits and its frame, its calls exist, and it ends with its end. */
  lemma LoweredShape(funcs: seq<Func>, g: nat)
    requires ProgramOk(funcs) && g < |funcs| && funcs[g].Function?
    ensures var f, lowered := funcs[g], Lower(funcs, g);
      && f.params <= |f.locals| == lowered.layout.localsCount <= lowered.layout.registers
      && lowered.layout.localsCount + f.results <= lowered.layout.registers
      && Width(lowered.layout) <= MAX_U16
      && AllInFrame(lowered.layout, lowered.code)
      && lowered.code != [] && lowered.code[|lowered.code| - 1] == FEnd
      && forall j :: 0 <= j < |lowered.code| ==> FrameCallsOk(funcs, lowered.code[j])
  {
    hide ProgramOk, FuncOk, LowerBody, AllInFrame, FrameCallsOk, Lower;
    FuncFacts(funcs, g);
    var f := funcs[g];
    BodyIsCode(f.body, |f.locals|, f.results);
    BodyEnds(funcs, g);
  }

  lemma BodyIsCode(ops: seq<Op>, locals: nat, results: nat)
    requires ValidCode(ops, locals, 0, results) && locals <= MAX_U16 && LowerBody(ops, locals, results).Ok?
    ensures var lowered := LowerBody(ops, locals, results).value;
      && locals == lowered.layout.localsCount <= lowered.layout.registers
      && Width(lowered.layout) <= MAX_U16 && AllInFrame(lowered.layout, lowered.code)
  {
    hide SimOk, CodeOk, LowerOps, LowerOp, LowerEnd, LowerBody, InFrame, Grows, Fits;
    LowerBodyShape(ops, locals, results);
    var s0 := Start(locals);
    var s2 := LowerEnd(LowerOps(s0, ops, results).value, results).value;
    SegmentOk(LayoutOf(s2), s0, s2);
    assert s2.code[|s0.code|..] == s2.code;
  }

  lemma BodyEnds(funcs: seq<Func>, g: nat)
    requires ProgramOk(funcs) && g < |funcs| && funcs[g].Function?
    ensures var f, lowered := funcs[g], Lower(funcs, g);
      && lowered.layout.localsCount + f.results <= lowered.layout.registers
      && lowered.code != [] && lowered.code[|lowered.code| - 1] == FEnd
      && forall j :: 0 <= j < |lowered.code| ==> FrameCallsOk(funcs, lowered.code[j])
  {
    hide SimOk, CodeOk, LowerOps, LowerOp, LowerEnd, LowerBody, FrameCallsOk, CallsOk, Grows, Fits;
    FuncFacts(funcs, g);
    var f := funcs[g];
    LowerBodyShape(f.body, |f.locals|, f.results);
    var s0 := Start(|f.locals|);
    var s1 := LowerOps(s0, f.body, f.results).value;
    var s2 := LowerEnd(s1, f.results).value;
    assert SimCallsOk(funcs, s0);
    assert FuncOk(funcs, f);
    OpsCallsOk(funcs, s0, f.body, f.results);
    EndShape(s1, f.results);
    ResolvedCallsOk(funcs, s1, s2, LayoutOf(s2));
  }

  lemma ResolvedCallsOk<B>(funcs: seq<Function<B>>, s1: Sim, s2: Sim, l: RegLayout)
    requires SimCallsOk(funcs, s1)
    requires s2.code == s1.code + [EndBody]
          || exists inputs, out :: s2.code == s1.code + [Move(inputs, out)] + [EndBody]
    ensures forall j :: 0 <= j < |s2.code| ==> FrameCallsOk(funcs, ResolveAll(l, s2.code)[j])
  {
  }

  lemma EndShape(s: Sim, results: nat)
    requires SimOk(s) && results == |s.stack| && LowerEnd(s, results).Ok?
    ensures var r := LowerEnd(s, results).value;
      && (r.code == s.code + [EndBody] || exists inputs, out :: r.code == s.code + [Move(inputs, out)] + [EndBody])
      && |s.origin| == |r.origin| && |r.origin| + results <= r.maxReg
  {
    hide SpillsOk, OriginsOk, StackOk, Count;
    if results != 0 {
      MaterializeKeepsOk(s, results);
      MaterializeBase(s, results);
      RegistersBelow(s, results);
    }
  }

  // ------------------------------------------------------------------ the two meanings agree

  /** The effects a lowered activation sees: its callees' stack-machine meaning, and what they leave in the file. */
  ghost function FileCalls<W>(funcs: seq<Func>, rt: Runtime<W>, d: nat): FileEffects<W>
    requires ProgramOk(funcs) && 0 < d
  {
    FileEffects(Calls(funcs, rt, d),
                (g: nat, b: nat, regs: seq<Value>, w: W) => Residue(funcs, rt, d - 1, g, b, regs, w))
  }

  ghost function Residue<W>(funcs: seq<Func>, rt: Runtime<W>, d: nat, g: nat, b: nat, regs: seq<Value>,
    w: W): seq<Value>
    requires ProgramOk(funcs)
  {
    var r := RegCall(funcs, rt, d, g, b, regs, w);
    if Imported(funcs, g) then if b + funcs[g].results <= |regs| then regs[b + funcs[g].results..] else []
    else if g < |funcs| && r.Goes? && b + funcs[g].results <= |r.state.0| then r.state.0[b + funcs[g].results..] else []
  }

  /**
   A call on the register file does what the call does on the stack machine: the results
   replace the arguments, nothing below them changes, and the file never shrinks.
   */
  ghost predicate CallAgreesAt<W>(
    funcs: seq<Func>, g: nat, b: nat, regs: seq<Value>, answer: (Option<seq<Value>>, W),
    got: Outcome<(seq<Value>, W), W>)
    requires g < |funcs|
  {
    if answer.0.None? then got == Trapped(answer.1)
    else
      && |answer.0.value| == funcs[g].results
      && got.Goes? && got.state.1 == answer.1
      && |regs| <= |got.state.0| && b + funcs[g].results <= |got.state.0| && b <= |regs|
      && got.state.0[..b] == regs[..b]
      && got.state.0[b..b + funcs[g].results] == answer.0.value
  }

  /** A callee that agrees is exactly the abstract callee of the single-body theorem. */
  lemma CalleeIsAbstract<W>(
    funcs: seq<Func>, fx: FileEffects<W>, l: RegLayout, b: nat, op: FrameOp, regs: seq<Value>, w: W,
    got: Outcome<(seq<Value>, W), W>)
    requires op.FCall? && FrameCallsOk(funcs, op) && InRange(l, b, op, regs)
    requires CallAgreesAt(funcs, op.callee, b + op.base, regs,
                          fx.effects.call(op.callee, regs[b + op.base..b + op.base + op.params], w), got)
    requires got.Goes? ==> fx.leftover(op.callee, b + op.base, regs, w) == got.state.0[b + op.base + op.results..]
    ensures RegStep(fx, l, b, op, regs, w) == got
  {
    if got.Goes? {
      var at, regs' := b + op.base, got.state.0;
      assert regs' == regs'[..at] + regs'[at..at + op.results] + regs'[at + op.results..];
    }
  }

  /** An imported callee, too, is the abstract callee of the single-body theorem. */
  lemma HostIsAbstract<W>(
    funcs: seq<Func>, fx: FileEffects<W>, rt: Runtime<W>, l: RegLayout, b: nat, op: FrameOp, regs: seq<Value>, w: W)
    requires op.FCall? && FrameCallsOk(funcs, op) && InRange(l, b, op, regs)
    requires forall args :: fx.effects.call(op.callee, args, w) == rt.host(op.callee, args, w)
    requires b + op.base + op.results <= |regs| ==>
      fx.leftover(op.callee, b + op.base, regs, w) == regs[b + op.base + op.results..]
    ensures b + op.base + op.params <= |regs| && b + op.base + op.results <= |regs|
    ensures RegStep(fx, l, b, op, regs, w) == HostCall(rt, op, b + op.base, regs, w)
  {
    HostOverwrites(rt, op, b + op.base, regs, w);
  }

  lemma HostOverwrites<W>(rt: Runtime<W>, op: FrameOp, at: nat, regs: seq<Value>, w: W)
    requires op.FCall? && at + op.params <= |regs| && at + op.results <= |regs|
    ensures forall rs: seq<Value> :: |rs| == op.results ==>
      AfterCallee(regs, at, rs, regs[at + op.results..]) == Overwrite(regs, at, rs)
  {
    forall rs: seq<Value> | |rs| == op.results
      ensures AfterCallee(regs, at, rs, regs[at + op.results..]) == Overwrite(regs, at, rs)
    {
      assert |regs[..at] + rs + regs[at + op.results..]| == |regs|;
    }
  }

  lemma {:induction false} BodyMeets<W>(
    funcs: seq<Func>, rt: Runtime<W>, d: nat, l: RegLayout, b: nat, code: seq<FrameOp>, regs: seq<Value>, w: W)
    requires ProgramOk(funcs) && 0 < d && AllInFrame(l, code) && b + Width(l) <= |regs|
    requires forall j :: 0 <= j < |code| ==> FrameCallsOk(funcs, code[j])
    ensures RegBody(funcs, rt, d, l, b, code, regs, w) == RegRun(FileCalls(funcs, rt, d), l, b, code, regs, w)
    decreases d, 0, |code|
  {
    hide RegCall, StackCall, ProgramOk, RegStep, InFrame;
    var fx := FileCalls(funcs, rt, d);
    if code != [] {
      var op := code[0];
      assert FrameCallsOk(funcs, op);
      StepKeepsFile(fx, l, b, op, regs, w);
      if op.FCall? && Imported(funcs, op.callee) {
        CallBounds(l, op);
        HostIsAbstract(funcs, fx, rt, l, b, op, regs, w);
      } else if op.FCall? {
        CallBounds(l, op);
        CallMeets(funcs, rt, d - 1, op.callee, b + op.base, regs, w);
        CalleeIsAbstract(funcs, fx, l, b, op, regs, w, RegCall(funcs, rt, d - 1, op.callee, b + op.base, regs, w));
      } else {
        LocalStep(funcs, rt, d, l, b, op, regs, w);
      }
      var x := RegStep(fx, l, b, op, regs, w);
      if x.Goes? {
        assert forall j :: 0 <= j < |code| - 1 ==> code[1..][j] == code[j + 1];
        BodyMeets(funcs, rt, d, l, b, code[1..], x.state.0, x.state.1);
      }
    }
  }

  lemma CallBounds(l: RegLayout, op: FrameOp)
    requires op.FCall? && InFrame(l, op)
    ensures OperandStart(l) <= op.base && op.base + op.params <= Width(l) && op.base + op.results <= Width(l)
  {
  }

  lemma LocalStep<W>(
    funcs: seq<Func>, rt: Runtime<W>, d: nat, l: RegLayout, b: nat, op: FrameOp, regs: seq<Value>, w: W)
    requires ProgramOk(funcs) && 0 < d && InRange(l, b, op, regs) && !op.FCall?
    ensures RegStep(FileCalls(funcs, rt, d), l, b, op, regs, w) == RegStep(Local(rt), l, b, op, regs, w)
  {
    hide ProgramOk;
  }

  /**
   Every function of a lowered program, called with its arguments anywhere in the register
   file, does there what it does on the stack machine, to any depth of calls.
   */
  lemma {:induction false} CallMeets<W>(
    funcs: seq<Func>, rt: Runtime<W>, d: nat, g: nat, b: nat, regs: seq<Value>, w: W)
    requires ProgramOk(funcs) && g < |funcs| && funcs[g].Function? && b + funcs[g].params <= |regs|
    ensures CallAgreesAt(funcs, g, b, regs, StackCall(funcs, rt, d, g, regs[b..b + funcs[g].params], w),
                         RegCall(funcs, rt, d, g, b, regs, w))
    decreases d, 1, 0
  {
    hide RegRun, StackRun, EnterRegs, ExitRegs, FuncOk, AllInFrame, RegBody, RegCall, StackCall, Calls, ProgramOk,
         Lower, LowerBody;
    var f := funcs[g];
    var args := regs[b..b + f.params];
    if d == 0 {
      NoCallsLeft(funcs, rt, g, b, regs, args, w);
    } else {
      FuncFacts(funcs, g);
      LoweredShape(funcs, g);
      var lowered := Lower(funcs, g);
      var fx := FileCalls(funcs, rt, d);
      LoweredBodyCorrect(fx, f.body, f.params, f.locals, f.results, b, regs, w);
      var entered := EnterRegs(regs, f.params, f.locals, b, lowered.layout);
      BodyMeets(funcs, rt, d, lowered.layout, b, lowered.code, entered, w);
      StackCallIs(funcs, rt, d, g, args, w);
      RegCallIs(funcs, rt, d, g, b, regs, w);
    }
  }

  lemma NoCallsLeft<W>(
    funcs: seq<Func>, rt: Runtime<W>, g: nat, b: nat, regs: seq<Value>, args: seq<Value>, w: W)
    requires ProgramOk(funcs)
    ensures StackCall(funcs, rt, 0, g, args, w) == (None, w)
    ensures RegCall(funcs, rt, 0, g, b, regs, w) == Outcome<(seq<Value>, W), W>.Trapped(w)
  {
  }

  lemma StackCallIs<W>(funcs: seq<Func>, rt: Runtime<W>, d: nat, g: nat, args: seq<Value>, w: W)
    requires ProgramOk(funcs) && 0 < d && g < |funcs| && funcs[g].Function? && |args| == funcs[g].params
    ensures var f := funcs[g];
      && f.params <= |f.locals| && ValidCode(f.body, |f.locals|, 0, f.results)
      && (var r := StackRun(Calls(funcs, rt, d), f.body, f.results,
         State(args + Zeros(f.locals[f.params..]), [], w));
         StackCall(funcs, rt, d, g, args, w) ==
         if r.Goes? then (Some(r.state.stack), r.state.world) else (None, r.world))
  {
    hide StackRun, Calls;
    FuncFacts(funcs, g);
  }

  lemma RegCallIs<W>(funcs: seq<Func>, rt: Runtime<W>, d: nat, g: nat, b: nat, regs: seq<Value>, w: W)
    requires ProgramOk(funcs) && 0 < d && g < |funcs| && funcs[g].Function? && b + funcs[g].params <= |regs|
    ensures var f, lowered := funcs[g], Lower(funcs, g);
      && f.params <= |f.locals| <= lowered.layout.registers
      && (var r := RegBody(funcs, rt, d, lowered.layout, b, lowered.code,
                           EnterRegs(regs, f.params, f.locals, b, lowered.layout), w);
         RegCall(funcs, rt, d, g, b, regs, w) ==
         if r.Goes? then Goes((LeaveFrame(r.state.0, f.results, b, lowered.layout), r.state.1)) else Trapped(r.world))
  {
    hide RegBody, EnterRegs, LeaveFrame, Lower;
    LoweredShape(funcs, g);
  }

  lemma FuncFacts(funcs: seq<Func>, g: nat)
    requires ProgramOk(funcs) && g < |funcs| && funcs[g].Function?
    ensures var f := funcs[g];
      && f.params <= |f.locals| <= MAX_U16
      && ValidCode(f.body, |f.locals|, 0, f.results) && LowerBody(f.body, |f.locals|, f.results).Ok?
      && Lower(funcs, g) == LowerBody(f.body, |f.locals|, f.results).value
  {
    hide LowerBody;
    assert FuncOk(funcs, funcs[g]);
  }
}
