/**
 Lowered structured code stays in its frame and in its body: every index an instruction names is
 one it may name, and every branch goes to an instruction.
 */
module BlockShape {
  import opened RegisterLayout
  import opened StackCode
  import opened BlockCode
  import opened RegisterLowering
  import opened LoweredBody
  import opened LoweringCorrect
  import opened BlockLowering
  import opened BlockMachine
  import opened BlockBody

  // ------------------------------------------------------------------ what is emitted

  predicate TargetIn(t: Target, size: nat) {
    t.ToIndex? ==> t.index < size
  }

  /** Operands anywhere in the frame, destinations among its operand registers. */
  predicate MoveFits(l: RegLayout, inputs: seq<Source>, out: nat) {
    && (forall j :: 0 <= j < |inputs| ==> FrameIndices(l, inputs)[j] < Width(l))
    && OperandStart(l) <= out + |l.consts| + l.spills && out + |l.consts| + l.spills + |inputs| <= Width(l)
  }

  predicate OpShaped(l: RegLayout, op: CtlOp, size: nat) {
    match op
    case Do(x) => InFrame(l, Resolve(l, x))
    case Goto(t) => TargetIn(t, size)
    case Branch(cond, inputs, out, t) => FrameIndex(l, cond) < Width(l) && MoveFits(l, inputs, out) && TargetIn(t, size)
    case Mark => true
    case Stop => true
  }

  ghost predicate OutShaped(l: RegLayout, out: seq<CtlOp>) {
    l.localsCount <= l.registers && forall j :: 0 <= j < |out| ==> OpShaped(l, out[j], |out|)
  }

  ghost predicate TargetsIn(targets: seq<Target>, size: nat) {
    forall k :: 0 <= k < |targets| ==> TargetIn(targets[k], size)
  }

  lemma ShapedBoth(l: RegLayout, out: seq<CtlOp>, added: seq<CtlOp>)
    requires OutShaped(l, out) && forall j :: 0 <= j < |added| ==> OpShaped(l, added[j], |out| + |added|)
    ensures OutShaped(l, out + added)
  {
    hide MoveFits, InFrame;
    forall j | 0 <= j < |out + added| ensures OpShaped(l, (out + added)[j], |out + added|) {
      if j < |out| {
        assert OpShaped(l, out[j], |out|);
      } else {
        assert OpShaped(l, added[j - |out|], |out| + |added|);
      }
    }
  }

  lemma AbsorbShaped(l: RegLayout, out: seq<CtlOp>, s: Sim)
    requires OutShaped(l, out) && CodeOk(s, l)
    ensures OutShaped(l, Absorb(out, s).out)
  {
    hide OutShaped, InFrame;
    forall j | 0 <= j < |s.code| ensures OpShaped(l, Wrapped(s.code)[j], |out| + |s.code|) {
    }
    ShapedBoth(l, out, Wrapped(s.code));
  }

  lemma NothingEmitted(s: Sim, l: RegLayout, out: seq<CtlOp>)
    requires s.code == [] && OutShaped(l, out)
    ensures CodeOk(s, l)
  {
  }

  // ------------------------------------------------------------------ step by step

  lemma PlainShaped(l: RegLayout, p: Pass, labels: seq<Label>, op: Op)
    requires PassOk(p, labels) && OutShaped(l, p.out) && Innermost(labels).base <= |p.sim.stack|
    requires Valid(op, |p.sim.origin|, |p.sim.stack| - Innermost(labels).base)
      && Valid(op, |p.sim.origin|, |p.sim.stack|)
    requires LowerPlain(p, labels, op).Ok? && Fits(LowerPlain(p, labels, op).value.sim, l)
    ensures OutShaped(l, LowerPlain(p, labels, op).value.out)
  {
    hide SimOk, LowerOp, Names, OutShaped, CodeOk, Onward;
    var s := LowerOp(p.sim, op).value;
    NothingEmitted(p.sim, l, p.out);
    OpCodeOk(p.sim, op, l);
    AbsorbShaped(l, p.out, s);
  }

  lemma MaterializePShaped(l: RegLayout, p: Pass, labels: seq<Label>, n: nat)
    requires PassOk(p, labels) && OutShaped(l, p.out) && Innermost(labels).base + n <= |p.sim.stack|
    requires MaterializeP(p, labels, n).Ok? && Fits(MaterializeP(p, labels, n).value.sim, l)
    ensures OutShaped(l, MaterializeP(p, labels, n).value.out)
  {
    hide SimOk, Materialize, Names, OutShaped, CodeOk, Onward;
    if n != 0 {
      NothingEmitted(p.sim, l, p.out);
      MaterializeCodeOk(p.sim, n, l);
      AbsorbShaped(l, p.out, Materialize(p.sim, n).value);
    }
  }

  lemma {:induction false} SpillFromCodeOk(l: RegLayout, s: Sim, i: nat)
    requires SimOk(s) && CodeOk(s, l) && i <= |s.origin| && SpillFrom(s, i).Ok? && Fits(SpillFrom(s, i).value, l)
    ensures CodeOk(SpillFrom(s, i).value, l)
    decreases |s.origin| - i
  {
    hide SimOk, CodeOk, Rescue, Evolves;
    if i != |s.origin| {
      EntriesExist(s);
      RescueEvolves(s, i);
      var s1 := Rescue(s, i).value;
      FitsEarlier(s1, SpillFrom(s, i).value, l);
      RescueCodeOk(s, i, l);
      SpillFromCodeOk(l, s1, i + 1);
    }
  }

  lemma SpillLiveShaped(l: RegLayout, p: Pass, labels: seq<Label>)
    requires PassOk(p, labels) && OutShaped(l, p.out) && SpillLive(p, labels).Ok?
    requires Fits(SpillLive(p, labels).value.sim, l)
    ensures OutShaped(l, SpillLive(p, labels).value.out)
  {
    hide SimOk, SpillFrom, Onward, Names, OutShaped, CodeOk;
    NothingEmitted(p.sim, l, p.out);
    SpillFromCodeOk(l, p.sim, 0);
    AbsorbShaped(l, p.out, SpillFrom(p.sim, 0).value);
  }

  /** The top `n` operands, and registers from `base` operands up, once the frame has been widened for them. */
  lemma MoveShaped(l: RegLayout, s: Sim, base: nat, n: nat, registers: nat)
    requires SimOk(s) && Fits(s, l) && base + n <= |s.stack| && LabelRegister(s, base) + n <= l.registers
    ensures EntriesKnown(s) && MoveFits(l, Inputs(s, n), LabelRegister(s, base))
  {
    hide Count, Regs, SpillsOk, OriginsOk, StackOk, Pops;
    EntriesExist(s);
    InputsBelow(s, l, n);
    PopsRegisters(s, |s.stack| - base);
  }

  predicate EntriesKnown(s: Sim) {
    forall j :: 0 <= j < |s.stack| && s.stack[j].SLocal? ==> s.stack[j].entry < |s.arena|
  }

  lemma PopsRegisters(s: Sim, n: nat)
    requires SimOk(s) && n <= |s.stack|
    ensures |s.origin| <= Pops(s, n).currReg
  {
    hide Count, SpillsOk, OriginsOk, StackOk, Pops;
    PopsKeepSimOk(s, n);
  }

  lemma PopsKeepSimOk(s: Sim, n: nat)
    requires SimOk(s) && n <= |s.stack|
    ensures SimOk(Pops(s, n)) && |Pops(s, n).origin| == |s.origin|
  {
  }

  lemma FitsLater(s: Sim, r: Sim, l: RegLayout)
    requires Grows(s, r) && Fits(r, l)
    ensures Fits(s, l) && s.maxReg <= l.registers
  {
  }

  lemma BrShaped(l: RegLayout, p: Pass, labels: seq<Label>, targets: seq<Target>, d: nat)
    requires PassOk(p, labels) && TargetsOk(labels, targets) && BranchValid(labels, d, |p.sim.stack|)
    requires OutShaped(l, p.out) && TargetsIn(targets, |p.out|) && LowerBr(p, labels, targets, d).Ok?
    requires Fits(LowerBr(p, labels, targets, d).value.sim, l)
    ensures OutShaped(l, LowerBr(p, labels, targets, d).value.out)
  {
    hide SimOk, Widen, ResetTo, OutShaped, LabelRegister, Carried, Evolves;
    BranchReady(p, labels, d);
    var lab, target := LabelAt(labels, d), TargetAt(targets, d);
    var peak := LabelRegister(p.sim, lab.base) + lab.arity;
    var s1 := Widen(p.sim, peak).value;
    WidenOk(p.sim, peak);
    FitsLater(s1, ResetTo(s1, Innermost(labels)).value, l);
    FitsLater(p.sim, s1, l);
    MoveShaped(l, p.sim, lab.base, lab.arity, peak);
    CarriedShaped(l, p.sim, lab, target, |p.out|);
    ShapedBoth(l, p.out, Carried(p.sim, lab, target));
  }

  lemma CarriedShaped(l: RegLayout, s: Sim, lab: Label, target: Target, size: nat)
    requires SimOk(s) && lab.base + lab.arity <= |s.stack| && EntriesKnown(s) && TargetIn(target, size)
    requires MoveFits(l, Inputs(s, lab.arity), LabelRegister(s, lab.base))
    ensures var added := Carried(s, lab, target);
      forall j :: 0 <= j < |added| ==> OpShaped(l, added[j], size + |added|)
  {
    hide SimOk, LabelRegister;
  }

  lemma BrIfShaped(l: RegLayout, p: Pass, labels: seq<Label>, targets: seq<Target>, d: nat)
    requires PassOk(p, labels) && TargetsOk(labels, targets) && OutShaped(l, p.out) && TargetsIn(targets, |p.out|)
    requires 1 <= |p.sim.stack| && BranchValid(labels, d, |p.sim.stack| - 1) && LowerBrIf(p, labels, targets, d).Ok?
    requires Fits(LowerBrIf(p, labels, targets, d).value.sim, l)
    ensures OutShaped(l, LowerBrIf(p, labels, targets, d).value.out)
  {
    hide SimOk, SpillLive, BranchIf, Names, OutShaped, Evolves;
    BranchFits(labels, d, |p.sim.stack| - 1);
    var p1 := SpillLive(p, labels).value;
    BranchIfOk(p1, labels, TargetAt(targets, d), LabelAt(labels, d));
    FitsLater(p1.sim, BranchIf(p1, TargetAt(targets, d), LabelAt(labels, d)).value.sim, l);
    SpillLiveShaped(l, p, labels);
    BranchIfShaped(l, p1, TargetAt(targets, d), LabelAt(labels, d));
  }

  lemma BranchIfShaped(l: RegLayout, p: Pass, target: Target, lab: Label)
    requires SimOk(p.sim) && OutShaped(l, p.out) && lab.base + lab.arity + 1 <= |p.sim.stack|
    requires BranchIf(p, target, lab).Ok? && Fits(BranchIf(p, target, lab).value.sim, l) && TargetIn(target, |p.out|)
    ensures OutShaped(l, BranchIf(p, target, lab).value.out)
  {
    hide SimOk, Widen, OutShaped, LabelRegister, Pops, MoveFits;
    EntriesExist(p.sim);
    EntriesExist(Pops(p.sim, 1));
    var s := Pops(p.sim, 1);
    var o := LabelRegister(s, lab.base);
    WidenOk(s, o + lab.arity);
    FitsLater(s, Widen(s, o + lab.arity).value, l);
    MoveShaped(l, s, lab.base, lab.arity, o + lab.arity);
    ConditionBelow(l, p.sim);
    ShapedBoth(l, p.out, [Branch(Inputs(p.sim, 1)[0], Inputs(s, lab.arity), o, target)]);
  }

  lemma ConditionBelow(l: RegLayout, s: Sim)
    requires SimOk(s) && s.stack != [] && EntriesKnown(s) && Fits(Pops(s, 1), l)
    ensures FrameIndex(l, Inputs(s, 1)[0]) < Width(l)
  {
    hide SimOk, Pops;
    FitsBefore(s, l);
    InputsBelow(s, l, 1);
    assert FrameIndices(l, Inputs(s, 1))[0] == FrameIndex(l, Inputs(s, 1)[0]);
  }

  lemma FitsBefore(s: Sim, l: RegLayout)
    requires SimOk(s) && s.stack != [] && Fits(Pops(s, 1), l)
    ensures Fits(s, l)
  {
  }

  lemma StopShaped(l: RegLayout, p: Pass, labels: seq<Label>)
    requires PassOk(p, labels) && OutShaped(l, p.out) && LowerStop(p, labels).Ok?
    ensures OutShaped(l, LowerStop(p, labels).value.out)
  {
    hide SimOk, ResetTo, Names, Lowers, OutShaped;
    ShapedBoth(l, p.out, [Stop]);
  }

  /** The end of a label: branches to it go to the instruction that follows. */
  lemma PatchedShaped(l: RegLayout, out: seq<CtlOp>, level: nat)
    requires OutShaped(l, out)
    ensures OutShaped(l, PatchAll(out, level, |out|) + [Mark])
  {
    hide MoveFits, InFrame;
    var r := PatchAll(out, level, |out|) + [Mark];
    forall j | 0 <= j < |r| ensures OpShaped(l, r[j], |r|) {
      if j < |out| {
        assert OpShaped(l, out[j], |out|) && r[j] == Patch(out[j], level, |out|);
      }
    }
  }

  // ------------------------------------------------------------------ constructs

  lemma {:induction false} InsideShaped(
    l: RegLayout, p: Pass, labels: seq<Label>, targets: seq<Target>, lab: Label, target: Target, body: seq<Ctl>)
    requires Enters(p, labels, targets) && (target.ToLabel? ==> target.level == |labels|)
    requires OutShaped(l, p.out) && TargetsIn(targets, |p.out|) && TargetIn(target, |p.out|)
    requires Innermost(labels).base <= lab.base <= |p.sim.stack|
    requires Closed(HeightAfterSeq(body, |p.sim.origin|, labels + [lab], |p.sim.stack|), lab.base + lab.results).Live?
    requires LowerInside(p, labels, targets, lab, target, body).Ok?
    requires Fits(LowerInside(p, labels, targets, lab, target, body).value.sim, l)
    ensures OutShaped(l, LowerInside(p, labels, targets, lab, target, body).value.out)
    decreases body, 1
  {
    hide SimOk, LowerSeq, MaterializeP, Lowers, Names, OutShaped, Evolves;
    OpenOk(p, labels, lab);
    var p1 := LowerSeq(p, labels + [lab], targets + [target], body).value;
    var p2 := MaterializeP(p1, labels + [lab], lab.results).value;
    FitsLater(p1.sim, p2.sim, l);
    EverySeqShaped(l, p, labels + [lab], targets + [target], body);
    MaterializePShaped(l, p1, labels + [lab], lab.results);
    PatchedShaped(l, p2.out, |labels|);
  }

  lemma {:induction false} OneShaped(
    l: RegLayout, p: Pass, labels: seq<Label>, targets: seq<Target>, c: Ctl)
    requires Enters(p, labels, targets) && HeightAfterOne(c, |p.sim.origin|, labels, |p.sim.stack|).Live?
    requires OutShaped(l, p.out) && TargetsIn(targets, |p.out|) && LowerOne(p, labels, targets, c).Ok?
    requires Fits(LowerOne(p, labels, targets, c).value.sim, l)
    ensures OutShaped(l, LowerOne(p, labels, targets, c).value.out)
    decreases c, 2
  {
    hide SimOk, OutShaped, LowerPlain, LowerBrIf, LowerInside, MaterializeP, LoopHead, Onward, Lowers, HeightAfterSeq,
         Names;
    match c
    case Plain(op) =>
      PlainFits(op, |p.sim.origin|, Innermost(labels).base, |p.sim.stack|);
      PlainShaped(l, p, labels, op);
    case BrIf(d) => BrIfShaped(l, p, labels, targets, d);
    case Block(params, results, body) =>
      BlockShaped(l, p, labels, targets, params, Label(|p.sim.stack| - params, results, results), body);
    case Loop(params, results, body) =>
      LoopShaped(l, p, labels, targets, params, Label(|p.sim.stack| - params, params, results), body);
  }

  lemma {:induction false} BlockShaped(
    l: RegLayout, p: Pass, labels: seq<Label>, targets: seq<Target>, params: nat, lab: Label, body: seq<Ctl>)
    requires Enters(p, labels, targets) && Innermost(labels).base <= lab.base == |p.sim.stack| - params
    requires OutShaped(l, p.out) && TargetsIn(targets, |p.out|)
    requires Closed(HeightAfterSeq(body, |p.sim.origin|, labels + [lab], |p.sim.stack|), lab.base + lab.results).Live?
    requires LowerBlock(p, labels, targets, params, lab, body).Ok?
    requires Fits(LowerBlock(p, labels, targets, params, lab, body).value.sim, l)
    ensures OutShaped(l, LowerBlock(p, labels, targets, params, lab, body).value.out)
    decreases body, 2
  {
    hide PassOk, OutShaped, LowerInside, MaterializeP, HeightAfterSeq, Evolves;
    var p1 := MaterializeP(p, labels, params).value;
    BodyEnters(p, p1, labels, targets, lab, body);
    FitsLater(p1.sim, LowerInside(p1, labels, targets, lab, ToLabel(|labels|), body).value.sim, l);
    MaterializePShaped(l, p, labels, params);
    InsideShaped(l, p1, labels, targets, lab, ToLabel(|labels|), body);
  }

  lemma {:induction false} LoopShaped(
    l: RegLayout, p: Pass, labels: seq<Label>, targets: seq<Target>, params: nat, lab: Label, body: seq<Ctl>)
    requires Enters(p, labels, targets) && Innermost(labels).base <= lab.base == |p.sim.stack| - params
    requires OutShaped(l, p.out) && TargetsIn(targets, |p.out|)
    requires Closed(HeightAfterSeq(body, |p.sim.origin|, labels + [lab], |p.sim.stack|), lab.base + lab.results).Live?
    requires LowerLoop(p, labels, targets, params, lab, body).Ok?
    requires Fits(LowerLoop(p, labels, targets, params, lab, body).value.sim, l)
    ensures OutShaped(l, LowerLoop(p, labels, targets, params, lab, body).value.out)
    decreases body, 2
  {
    hide PassOk, OutShaped, LowerInside, LoopHead, HeightAfterSeq, Evolves;
    LoopHeadOk(p, labels, params);
    var p1 := LoopHead(p, labels, params).value;
    HeadOnward(p, p1, labels, params);
    BodyEnters(p, p1, labels, targets, lab, body);
    FitsLater(p1.sim, LowerInside(p1, labels, targets, lab, ToIndex(|p1.out| - 1), body).value.sim, l);
    HeadShaped(l, p, labels, params);
    InsideShaped(l, p1, labels, targets, lab, ToIndex(|p1.out| - 1), body);
  }

  lemma HeadShaped(l: RegLayout, p: Pass, labels: seq<Label>, params: nat)
    requires PassOk(p, labels) && Innermost(labels).base + params <= |p.sim.stack| && OutShaped(l, p.out)
    requires LoopHead(p, labels, params).Ok? && Fits(LoopHead(p, labels, params).value.sim, l)
    ensures OutShaped(l, LoopHead(p, labels, params).value.out)
  {
    hide PassOk, SpillLive, MaterializeP, OutShaped, Evolves;
    var p0 := SpillLive(p, labels).value;
    var p1 := MaterializeP(p0, labels, params).value;
    FitsLater(p0.sim, p1.sim, l);
    SpillLiveShaped(l, p, labels);
    MaterializePShaped(l, p0, labels, params);
    ShapedBoth(l, p1.out, [Mark]);
  }

  lemma TargetsLater(targets: seq<Target>, size: nat, later: nat)
    requires TargetsIn(targets, size) && size <= later
    ensures TargetsIn(targets, later)
  {
  }

  /** Every sequence, in every context of open labels. */
  lemma {:induction false} EverySeqShaped(
    l: RegLayout, p: Pass, labels: seq<Label>, targets: seq<Target>, cs: seq<Ctl>)
    requires Enters(p, labels, targets) && !HeightAfterSeq(cs, |p.sim.origin|, labels, |p.sim.stack|).Invalid?
    requires OutShaped(l, p.out) && TargetsIn(targets, |p.out|) && LowerSeq(p, labels, targets, cs).Ok?
    requires Fits(LowerSeq(p, labels, targets, cs).value.sim, l)
    ensures OutShaped(l, LowerSeq(p, labels, targets, cs).value.out)
    decreases cs, 0
  {
    hide SimOk, OutShaped, LowerBr, LowerStop, LowerOne, HeightAfterOne, Lowers, Evolves, Names, TargetsIn;
    if cs == [] {
    } else if cs[0].Br? {
      BrShaped(l, p, labels, targets, cs[0].depth);
    } else if cs[0].Unreachable? {
      StopShaped(l, p, labels);
    } else {
      var p1 := LowerOne(p, labels, targets, cs[0]).value;
      FitsLater(p1.sim, LowerSeq(p1, labels, targets, cs[1..]).value.sim, l);
      OneShaped(l, p, labels, targets, cs[0]);
      TargetsLater(targets, |p.out|, |p1.out|);
      EverySeqShaped(l, p1, labels, targets, cs[1..]);
    }
  }

  // ------------------------------------------------------------------ whole bodies

  /** A resolved instruction names what it may, and branches to an instruction of the body. */
  predicate CtlShaped(l: RegLayout, op: FrameCtl, size: nat) {
    match op
    case FDo(x) => InFrame(l, x)
    case FGoto(t) => t < size
    case FBranch(cond, inputs, out, t) =>
      && cond < Width(l) && (forall j :: 0 <= j < |inputs| ==> inputs[j] < Width(l))
      && OperandStart(l) <= out && out + |inputs| <= Width(l) && t < size
    case FMark => true
    case FStop => true
  }

  lemma ResolvedShaped(l: RegLayout, op: CtlOp, size: nat)
    requires OpShaped(l, op, size) && 0 < size
    ensures CtlShaped(l, ResolveCtl(l, [], op), size)
  {
    hide InFrame;
  }

  /**
   In every lowered body, every operand, destination and call base lies in the region it may name
   and every branch goes to an instruction of the body; the whole frame fits 16-bit indices.
   */
  lemma StructuredShape(cs: seq<Ctl>, locals: nat, results: nat, f: LoweredBlocks)
    requires BodyValid(cs, locals, results) && LowerStructured(cs, locals, results) == Lowered<LoweredBlocks>.Ok(f)
    ensures forall j :: 0 <= j < |f.code| ==> CtlShaped(f.layout, f.code[j], |f.code|)
    ensures Width(f.layout) <= MAX_U16 && f.layout.localsCount <= f.layout.registers
  {
    hide LowerSeq, MaterializeP, SimOk, OpShaped, CtlShaped, BodyValid, Evolves;
    StartReady(locals, results);
    var (p1, p2) := BodyPasses(cs, locals, results).value;
    var l, p := LayoutOf(p2.sim), StartPass(locals);
    FullyValid(cs, locals, results);
    LayoutFits(p2.sim);
    FitsLater(p1.sim, p2.sim, l);
    RegistersCoverLocals(p2.sim);
    EverySeqShaped(l, p, FuncLabels(results), [ToLabel(0)], cs);
    MaterializePShaped(l, p1, FuncLabels(results), results);
    PatchedShaped(l, p2.out, 0);
    var out := PatchAll(p2.out, 0, |p2.out|) + [Mark];
    forall j | 0 <= j < |f.code| ensures CtlShaped(f.layout, f.code[j], |f.code|) {
      ResolvedShaped(l, out[j], |out|);
    }
  }

  lemma FullyValid(cs: seq<Ctl>, locals: nat, results: nat)
    requires BodyValid(cs, locals, results)
    ensures locals <= MAX_U16 && !HeightAfterSeq(cs, locals, FuncLabels(results), 0).Invalid?
  {
  }

  lemma LayoutFits(s: Sim)
    ensures Fits(s, LayoutOf(s))
  {
  }

  lemma RegistersCoverLocals(s: Sim)
    requires SimOk(s)
    ensures LayoutOf(s).localsCount <= LayoutOf(s).registers
  {
  }
}
