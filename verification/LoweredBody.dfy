/**
 The lowering pass operator by operator, the end-of-body resolution of operands, and the
 register machine that runs the result.
 */
module LoweredBody {
  import opened Values
  import opened RegisterLayout
  import opened StackCode
  import opened RegisterLowering

  // ------------------------------------------------------------------ one operator at a time

  /** Consuming the top `n` operands. */
  ghost function Pops(s: Sim, n: nat): (r: Sim)
    requires SimOk(s) && n <= |s.stack|
    ensures SimOk(r) && r.stack == s.stack[..|s.stack| - n] && Unchanged(s, r) && r.code == s.code
    decreases n
  {
    if n == 0 then s
    else
      PopKeepsOk(s);
      Pops(PopSlot(s), n - 1)
  }

  /** The pools, the frame's extent and where each borrowed value is. */
  ghost predicate Unchanged(s: Sim, r: Sim) {
    && |r.origin| == |s.origin| && r.consts == s.consts && r.allocLen == s.allocLen && r.maxReg == s.maxReg
    && |r.arena| == |s.arena| && forall e :: 0 <= e < |s.arena| ==> r.arena[e].location == s.arena[e].location
  }

  /** The operands an instruction consuming the top `n` reads, deepest first. */
  function Inputs(s: Sim, n: nat): (inputs: seq<Source>)
    requires n <= |s.stack| && forall j :: 0 <= j < |s.stack| && s.stack[j].SLocal? ==> s.stack[j].entry < |s.arena|
    ensures |inputs| == n
    ensures forall j :: 0 <= j < n ==> inputs[j] == SourceOf(s, s.stack[|s.stack| - n + j])
  {
    seq(n, j requires 0 <= j < n => SourceOf(s, s.stack[|s.stack| - n + j]))
  }

  /** `materialize_stack_slots_in_registers`: forces the top `n` operands into consecutive registers. */
  ghost function Materialize(s: Sim, n: nat): Lowered<Sim>
    requires SimOk(s) && n <= |s.stack|
  {
    var s1 := Pops(s, n);
    PushRegs(s1.(code := s.code + [Move(Inputs(s, n), s1.currReg)]), n)
  }

  /** `register_index_at_depth`: the register a callee's frame can begin at, before its arguments are moved. */
  function RegisterAtDepth(s: Sim, depth: nat): int
    requires depth <= |s.stack|
  {
    s.currReg - (Regs(s.stack) - Regs(s.stack[..|s.stack| - depth]))
  }

  function Emit(s: Sim, op: RegOp): Sim {
    s.(code := s.code + [op])
  }

  /** One operator of the main loop. */
  ghost function LowerOp(s: Sim, op: Op): Lowered<Sim>
    requires SimOk(s) && Valid(op, |s.origin|, |s.stack|)
  {
    match op
    case Const(c) => PushConst(s, c)
    case LocalGet(i) => Ok(PushLocal(s, i))
    case LocalSet(i) => (
      match Rescue(s, i)
      case FrameTooLarge(what) => FrameTooLarge(what)
      case Ok(s1) =>
        RescueKeepsOk(s, i);
        Ok(Emit(Pops(s1, 1), SetLocal(i, Inputs(s1, 1)[0]))))
    case LocalTee(i) => (
      match Rescue(s, i)
      case FrameTooLarge(what) => FrameTooLarge(what)
      case Ok(s1) =>
        RescueKeepsOk(s, i);
        Ok(Emit(s1, SetLocal(i, Inputs(s1, 1)[0]))))
    case Drop => Ok(Pops(s, 1))
    case Apply(code, ins, outs) =>
      var s1 := Pops(s, ins);
      PushRegs(Emit(s1, RegOp.Value(code, Inputs(s, ins), s1.currReg, outs)), outs)
    case Invoke(callee, params, results) => LowerCall(s, callee, params, results)
  }

  /** A call: its arguments moved to the callee's base, the call itself, its results in their place. */
  ghost function LowerCall(s: Sim, callee: nat, params: nat, results: nat): Lowered<Sim>
    requires SimOk(s) && params <= |s.stack|
  {
    RegistersBelow(s, params);
    var base: nat := RegisterAtDepth(s, params);
    match if params == 0 then Ok(s) else Materialize(s, params)
    case FrameTooLarge(what) => FrameTooLarge(what)
    case Ok(s1) =>
      if params != 0 then
        MaterializeKeepsOk(s, params);
        PushRegs(Emit(Pops(s1, params), CallLocal(callee, params, results, base)), results)
      else
        PushRegs(Emit(s1, CallLocal(callee, params, results, base)), results)
  }

  ghost function LowerOps(s: Sim, ops: seq<Op>, final: nat): Lowered<Sim>
    requires SimOk(s) && ValidCode(ops, |s.origin|, |s.stack|, final)
    decreases |ops|
  {
    if ops == [] then Ok(s)
    else
      match LowerOp(s, ops[0])
      case FrameTooLarge(what) => FrameTooLarge(what)
      case Ok(s') =>
        LowerOpKeepsOk(s, ops[0]);
        LowerOps(s', ops[1..], final)
  }

  /** The body's `end`: its results moved into its first operand registers. */
  ghost function LowerEnd(s: Sim, results: nat): Lowered<Sim>
    requires SimOk(s) && results <= |s.stack|
  {
    match if results == 0 then Ok(s) else Materialize(s, results)
    case FrameTooLarge(what) => FrameTooLarge(what)
    case Ok(s') => Ok(Emit(s', EndBody))
  }

  // ------------------------------------------------------------------ the pass keeps its invariant

  /** The code only grows, the pools only grow, and the frame only widens. */
  ghost predicate Grows(s: Sim, r: Sim) {
    && |r.origin| == |s.origin| && s.consts <= r.consts && s.allocLen <= r.allocLen && s.maxReg <= r.maxReg
    && s.code <= r.code
  }

  /** `n` operand registers, in order. */
  function FreshSlots(from: nat, n: nat): (r: seq<StackSlot>)
    ensures |r| == n && forall j :: 0 <= j < n ==> r[j] == SReg(from + j)
  {
    seq(n, j requires 0 <= j < n => SReg(from + j))
  }

  lemma {:induction false} PushRegsKeepsOk(s: Sim, n: nat)
    requires SimOk(s) && PushRegs(s, n).Ok?
    ensures var r := PushRegs(s, n).value;
      && SimOk(r) && s.maxReg <= r.maxReg
      && r == s.(stack := s.stack + FreshSlots(s.currReg, n), currReg := s.currReg + n, maxReg := r.maxReg)
    decreases n
  {
    hide Count, Regs, SpillsOk, OriginsOk, StackOk;
    if n != 0 {
      PushRegKeepsOk(s);
      var s' := PushReg(s).value;
      PushRegsKeepsOk(s', n - 1);
      assert [SReg(s.currReg)] + FreshSlots(s'.currReg, n - 1) == FreshSlots(s.currReg, n);
      assert s'.stack + FreshSlots(s'.currReg, n - 1) == s.stack + FreshSlots(s.currReg, n);
    } else {
      assert s.stack + FreshSlots(s.currReg, 0) == s.stack;
    }
  }

  lemma EmitKeepsOk(s: Sim, op: RegOp)
    requires SimOk(s)
    ensures SimOk(Emit(s, op))
  {
    assert SpillsOk(Emit(s, op)) && OriginsOk(Emit(s, op)) && StackOk(Emit(s, op));
  }

  lemma RegistersBelow(s: Sim, n: nat)
    requires SimOk(s) && n <= |s.stack|
    ensures Pops(s, n).currReg == RegisterAtDepth(s, n) && |s.origin| <= RegisterAtDepth(s, n) <= s.currReg
  {
    RegsMonotone(s.stack, |s.stack| - n);
  }

  lemma MaterializeKeepsOk(s: Sim, n: nat)
    requires SimOk(s) && n <= |s.stack| && Materialize(s, n).Ok?
    ensures var r := Materialize(s, n).value;
      && SimOk(r) && Grows(s, r) && |r.stack| == |s.stack|
      && r.code == s.code + [Move(Inputs(s, n), Pops(s, n).currReg)]
  {
    var s1 := Pops(s, n);
    EmitKeepsOk(s1, Move(Inputs(s, n), s1.currReg));
    PushRegsKeepsOk(Emit(s1, Move(Inputs(s, n), s1.currReg)), n);
  }

  lemma LowerCallKeepsOk(s: Sim, callee: nat, params: nat, results: nat)
    requires SimOk(s) && params <= |s.stack| && LowerCall(s, callee, params, results).Ok?
    ensures var r := LowerCall(s, callee, params, results).value;
      SimOk(r) && Grows(s, r) && |r.stack| == |s.stack| - params + results
  {
    hide Count, Regs, SpillsOk, OriginsOk, PushRegs, Materialize;
    RegistersBelow(s, params);
    var base: nat := RegisterAtDepth(s, params);
    var call := CallLocal(callee, params, results, base);
    var s1 := if params == 0 then s else Materialize(s, params).value;
    if params != 0 {
      MaterializeKeepsOk(s, params);
    }
    var s2 := if params == 0 then s1 else Pops(s1, params);
    EmitKeepsOk(s2, call);
    PushRegsKeepsOk(Emit(s2, call), results);
  }

  lemma SetKeepsOk(s: Sim, i: nat)
    requires SimOk(s) && i < |s.origin| && 1 <= |s.stack| && Rescue(s, i).Ok?
    ensures var s1 := Rescue(s, i).value;
      && SimOk(s1) && 1 <= |s1.stack|
      && (var write := SetLocal(i, Inputs(s1, 1)[0]);
         && SimOk(Emit(Pops(s1, 1), write)) && Grows(s, Emit(Pops(s1, 1), write))
         && SimOk(Emit(s1, write)) && Grows(s, Emit(s1, write))
         && |s1.stack| == |s.stack|)
  {
    RescueKeepsOk(s, i);
    hide Count, Regs, SpillsOk, Rescue;
    var s1 := Rescue(s, i).value;
    var write := SetLocal(i, Inputs(s1, 1)[0]);
    EmitKeepsOk(s1, write);
    EmitKeepsOk(Pops(s1, 1), write);
  }

  lemma LowerOpKeepsOk(s: Sim, op: Op)
    requires SimOk(s) && Valid(op, |s.origin|, |s.stack|) && LowerOp(s, op).Ok?
    ensures var r := LowerOp(s, op).value;
      SimOk(r) && Grows(s, r) && |r.stack| == HeightAfter(op, |s.origin|, |s.stack|)
  {
    hide Count, Regs, SpillsOk, PushRegs, LowerCall, Rescue;
    match op
    case Const(c) => PushConstKeepsOk(s, c);
    case LocalGet(i) => PushLocalKeepsOk(s, i);
    case LocalSet(i) => SetKeepsOk(s, i);
    case LocalTee(i) => SetKeepsOk(s, i);
    case Drop =>
    case Apply(code, ins, outs) => ApplyKeepsOk(s, code, ins, outs);
    case Invoke(callee, params, results) => LowerCallKeepsOk(s, callee, params, results);
  }

  lemma ApplyKeepsOk(s: Sim, code: int, ins: nat, outs: nat)
    requires SimOk(s) && ins <= |s.stack| && LowerOp(s, Apply(code, ins, outs)).Ok?
    ensures var r := LowerOp(s, Apply(code, ins, outs)).value;
      SimOk(r) && Grows(s, r) && |r.stack| == |s.stack| - ins + outs
  {
    hide Count, Regs, SpillsOk, OriginsOk, PushRegs;
    var s1 := Pops(s, ins);
    var value := RegOp.Value(code, Inputs(s, ins), s1.currReg, outs);
    EmitKeepsOk(s1, value);
    PushRegsKeepsOk(Emit(s1, value), outs);
  }

  lemma {:induction false} LowerOpsKeepsOk(s: Sim, ops: seq<Op>, final: nat)
    requires SimOk(s) && ValidCode(ops, |s.origin|, |s.stack|, final) && LowerOps(s, ops, final).Ok?
    ensures var r := LowerOps(s, ops, final).value;
      SimOk(r) && Grows(s, r) && |r.stack| == final
    decreases |ops|
  {
    if ops != [] {
      LowerOpKeepsOk(s, ops[0]);
      LowerOpsKeepsOk(LowerOp(s, ops[0]).value, ops[1..], final);
    }
  }

  lemma LowerEndKeepsOk(s: Sim, results: nat)
    requires SimOk(s) && results <= |s.stack| && LowerEnd(s, results).Ok?
    ensures SimOk(LowerEnd(s, results).value) && Grows(s, LowerEnd(s, results).value)
  {
    if results == 0 {
      EmitKeepsOk(s, EndBody);
    } else {
      MaterializeKeepsOk(s, results);
      EmitKeepsOk(Materialize(s, results).value, EndBody);
    }
  }

  // ------------------------------------------------------------------ the resolved body

  /** Instructions as they run: every operand is a frame index. */
  datatype FrameOp =
    | FSpill(local: nat, slot: nat)
    | FSetLocal(local: nat, input: nat)
    | FValue(code: int, inputs: seq<nat>, out: nat, outs: nat)
    | FMove(inputs: seq<nat>, out: nat)
    | FCall(callee: nat, params: nat, results: nat, base: nat)
    | FEnd

  /** `absolute_slot_in_frame`. */
  function FrameIndex(l: RegLayout, src: Source): nat {
    match src
    case FromLocal(i) => i
    case FromConst(id) => id + l.localsCount
    case FromSpill(k) => k + l.localsCount + |l.consts|
    case FromReg(r) => r + |l.consts| + l.spills
  }

  function FrameIndices(l: RegLayout, srcs: seq<Source>): (r: seq<nat>)
    ensures |r| == |srcs| && forall j :: 0 <= j < |srcs| ==> r[j] == FrameIndex(l, srcs[j])
  {
    seq(|srcs|, j requires 0 <= j < |srcs| => FrameIndex(l, srcs[j]))
  }

  /** The end-of-body pass on one instruction: operands by kind, destinations and call bases by a shift. */
  function Resolve(l: RegLayout, op: RegOp): FrameOp {
    match op
    case Spill(i, k) => FSpill(i, k)
    case SetLocal(i, src) => FSetLocal(i, FrameIndex(l, src))
    case Value(code, srcs, out, outs) => FValue(code, FrameIndices(l, srcs), out + |l.consts| + l.spills, outs)
    case Move(srcs, out) => FMove(FrameIndices(l, srcs), out + |l.consts| + l.spills)
    case CallLocal(callee, params, results, base) => FCall(callee, params, results, base + |l.consts| + l.spills)
    case EndBody => FEnd
  }

  function ResolveAll(l: RegLayout, code: seq<RegOp>): (r: seq<FrameOp>)
    ensures |r| == |code| && forall j :: 0 <= j < |code| ==> r[j] == Resolve(l, code[j])
  {
    seq(|code|, j requires 0 <= j < |code| => Resolve(l, code[j]))
  }

  /** The frame the pass ends with. */
  function LayoutOf(s: Sim): RegLayout {
    RegLayout(s.maxReg, s.allocLen, |s.origin|, s.consts)
  }

  datatype LoweredFunction = LoweredFunction(code: seq<FrameOp>, layout: RegLayout)

  /** `emit_instructions_for_func` on a straight-line body. */
  ghost function LowerBody(ops: seq<Op>, locals: nat, results: nat): Lowered<LoweredFunction>
    requires ValidCode(ops, locals, 0, results) && locals <= MAX_U16
  {
    StartOk(locals);
    match LowerOps(Start(locals), ops, results)
    case FrameTooLarge(what) => FrameTooLarge(what)
    case Ok(s1) =>
      LowerOpsKeepsOk(Start(locals), ops, results);
      match LowerEnd(s1, results)
      case FrameTooLarge(what) => FrameTooLarge(what)
      case Ok(s2) =>
        var l := LayoutOf(s2);
        if MAX_U16 < Width(l) then FrameTooLarge("the whole frame")
        else Ok(LoweredFunction(ResolveAll(l, s2.code), l))
  }

  lemma StartOk(locals: nat)
    requires locals <= MAX_U16
    ensures SimOk(Start(locals)) && |Start(locals).origin| == locals
  {
    assert StackOk(Start(locals)) && SpillsOk(Start(locals)) && OriginsOk(Start(locals));
  }

  // ------------------------------------------------------------------ the register machine

  /** Every index an instruction names lies in the region it may name. */
  predicate InFrame(l: RegLayout, op: FrameOp) {
    match op
    case FSpill(i, k) => i < l.localsCount && k < l.spills
    case FSetLocal(i, input) => i < l.localsCount && input < Width(l)
    case FValue(_, inputs, out, outs) =>
      && (forall j :: 0 <= j < |inputs| ==> inputs[j] < Width(l))
      && OperandStart(l) <= out && out + outs <= Width(l)
    case FMove(inputs, out) =>
      && (forall j :: 0 <= j < |inputs| ==> inputs[j] < Width(l))
      && OperandStart(l) <= out && out + |inputs| <= Width(l)
    case FCall(_, params, results, base) =>
      OperandStart(l) <= base && base + params <= Width(l) && base + results <= Width(l)
    case FEnd => true
  }

  function Gather(regs: seq<Value>, b: nat, inputs: seq<nat>): (vs: seq<Value>)
    requires forall j :: 0 <= j < |inputs| ==> b + inputs[j] < |regs|
    ensures |vs| == |inputs| && forall j :: 0 <= j < |inputs| ==> vs[j] == regs[b + inputs[j]]
  {
    seq(|inputs|, j requires 0 <= j < |inputs| => regs[b + inputs[j]])
  }

  /** Operators' and callees' effects, and what a callee leaves in the file above its results. */
  datatype FileEffects<!W> = FileEffects(
    effects: Effects<W>,
    leftover: (nat, nat, seq<Value>, W) -> seq<Value>)

  /**
   The file after a callee based at `at` has returned `rs`: nothing below it changed, nothing
   was given back, and what lies above its results is whatever it left there.
   */
  function AfterCallee(regs: seq<Value>, at: nat, rs: seq<Value>, leftover: seq<Value>): (r: seq<Value>)
    requires at <= |regs|
    ensures |regs| <= |r| && at + |rs| <= |r|
    ensures r[..at] == regs[..at] && r[at..at + |rs|] == rs
  {
    var written := regs[..at] + rs + leftover;
    if |regs| <= |written| then written else written + seq(|regs| - |written|, _ => 0)
  }

  function RegStep<W>(fx: FileEffects<W>, l: RegLayout, b: nat, op: FrameOp, regs: seq<Value>,
    w: W): Outcome<(seq<Value>, W), W>
    requires InFrame(l, op) && l.localsCount <= l.registers && b + Width(l) <= |regs|
  {
    match op
    case FSpill(i, k) => Goes((regs[b + k + l.localsCount + |l.consts| := regs[b + i]], w))
    case FSetLocal(i, input) => Goes((regs[b + i := regs[b + input]], w))
    case FValue(code, inputs, out, outs) => (
      match Answer(fx.effects.apply(code, Gather(regs, b, inputs), w), outs)
      case Goes((rs, w')) => Goes((Overwrite(regs, b + out, rs), w'))
      case Trapped(w') => Trapped(w'))
    case FMove(inputs, out) => Goes((Overwrite(regs, b + out, Gather(regs, b, inputs)), w))
    case FCall(callee, params, results, base) => (
      var args := regs[b + base..b + base + params];
      match Answer(fx.effects.call(callee, args, w), results)
      case Goes((rs, w')) => Goes((AfterCallee(regs, b + base, rs, fx.leftover(callee, b + base, regs, w)), w'))
      case Trapped(w') => Trapped(w'))
    case FEnd => Goes((regs, w))
  }

  predicate InRange(l: RegLayout, b: nat, op: FrameOp, regs: seq<Value>) {
    InFrame(l, op) && l.localsCount <= l.registers && b + Width(l) <= |regs|
  }

  ghost predicate AllInFrame(l: RegLayout, code: seq<FrameOp>) {
    l.localsCount <= l.registers && forall j :: 0 <= j < |code| ==> InFrame(l, code[j])
  }

  ghost function RegRun<W>(fx: FileEffects<W>, l: RegLayout, b: nat, code: seq<FrameOp>, regs: seq<Value>,
    w: W): Outcome<(seq<Value>, W), W>
    requires AllInFrame(l, code) && b + Width(l) <= |regs|
    decreases |code|
  {
    if code == [] then Goes((regs, w))
    else
      StepKeepsFile(fx, l, b, code[0], regs, w);
      match RegStep(fx, l, b, code[0], regs, w)
      case Goes((regs', w')) => RegRun(fx, l, b, code[1..], regs', w')
      case Trapped(w') => Trapped(w')
  }

  /** An instruction never shortens the file and writes nothing below its frame or in its constants. */
  lemma StepKeepsFile<W>(fx: FileEffects<W>, l: RegLayout, b: nat, op: FrameOp, regs: seq<Value>, w: W)
    requires InFrame(l, op) && l.localsCount <= l.registers && b + Width(l) <= |regs|
    ensures var r := RegStep(fx, l, b, op, regs, w);
      r.Goes? ==>
        && |regs| <= |r.state.0| && r.state.0[..b] == regs[..b]
        && (RegIntact(l, b, regs) ==> RegIntact(l, b, r.state.0))
  {
    hide RegIntact;
    var r := RegStep(fx, l, b, op, regs, w);
    if r.Goes? {
      match op {
        case FSpill(i, k) => WriteKeepsFrame(l, b, k + l.localsCount + |l.consts|, regs, regs[b + i]);
        case FSetLocal(i, input) => WriteKeepsFrame(l, b, i, regs, regs[b + input]);
        case FValue(code, inputs, out, outs) =>
          var (rs, _) := Answer(fx.effects.apply(code, Gather(regs, b, inputs), w), outs).state;
          OverwriteShape(regs, b + out, rs);
          AboveKeepsFrame(l, b, out, regs, r.state.0);
        case FMove(inputs, out) =>
          OverwriteShape(regs, b + out, Gather(regs, b, inputs));
          AboveKeepsFrame(l, b, out, regs, r.state.0);
        case FCall(_, _, _, base) => AboveKeepsFrame(l, b, base, regs, r.state.0);
        case FEnd =>
      }
    }
  }

  /** One slot outside the constant region. */
  lemma WriteKeepsFrame(l: RegLayout, b: nat, at: nat, regs: seq<Value>, v: Value)
    requires b + Width(l) <= |regs| && at < Width(l) && (at < l.localsCount || l.localsCount + |l.consts| <= at)
    ensures regs[b + at := v][..b] == regs[..b]
    ensures RegIntact(l, b, regs) ==> RegIntact(l, b, regs[b + at := v])
  {
    var lo, hi := b + l.localsCount, b + l.localsCount + |l.consts|;
    if hi <= |regs| {
      assert regs[b + at := v][lo..hi] == regs[lo..hi];
    }
  }

  /** Changes from an operand register up. */
  lemma AboveKeepsFrame(l: RegLayout, b: nat, at: nat, regs: seq<Value>, regs': seq<Value>)
    requires OperandStart(l) <= at && b + at <= |regs| <= |regs'| && regs'[..b + at] == regs[..b + at]
    ensures regs'[..b] == regs[..b] && (RegIntact(l, b, regs) ==> RegIntact(l, b, regs'))
  {
    SliceOfPrefix(regs', b + at, 0, b);
    SliceOfPrefix(regs, b + at, 0, b);
    if RegIntact(l, b, regs) {
      IntactBelow(l, b, b + at, regs, regs');
    }
  }
}
