/**
 Structured code, lowered: it does what the stack machine does, provided each branch leaves
 the operands below its label where the label's end will look for them.
 */
module BlockCorrect {
  import opened Values
  import opened RegisterLayout
  import opened StackCode
  import opened BlockCode
  import opened RegisterLowering
  import opened LoweredBody
  import opened LoweringCorrect
  import opened BlockLowering
  import opened BlockMachine

  /** What a branch to a label meets: the instruction it goes to, and the pass's state there. */
  datatype Dest = Dest(index: nat, sim: Sim)

  /** The operands below `h` are described alike, and read from the same places. */
  ghost predicate StableAt(s: Sim, t: Sim, h: nat) {
    && h <= |s.stack| && h <= |t.stack| && t.stack[..h] == s.stack[..h]
    && forall j :: 0 <= j < h && s.stack[j].SLocal? ==>
      s.stack[j].entry < |s.arena| && s.stack[j].entry < |t.arena|
      && t.arena[s.stack[j].entry].location == s.arena[s.stack[j].entry].location
  }

  ghost predicate DestOk(d: Dest, lab: Label, l: RegLayout) {
    && SimOk(d.sim) && Fits(d.sim, l) && |d.sim.stack| == lab.base + lab.arity
    && forall j :: lab.base <= j < |d.sim.stack| ==> d.sim.stack[j].SReg?
  }

  function DestAt(dests: seq<Dest>, d: nat): Dest
    requires d < |dests|
  {
    dests[|dests| - 1 - d]
  }

  // ------------------------------------------------------------------ a branch's move

  /** The frame after a branch's move holds what the stack machine keeps, as its destination describes it. */
  lemma MoveRel(
    s: Sim, t: Sim, lab: Label, l: RegLayout, b: nat, locals: seq<Value>, stack: seq<Value>, regs: seq<Value>,
    regs': seq<Value>)
    requires Rel(s, l, b, locals, stack, regs) && lab.base + lab.arity <= |stack| == |s.stack| && SimOk(s)
    requires DestOk(Dest(0, t), lab, l) && StableAt(s, t, lab.base)
    requires var at := b + LabelRegister(s, lab.base) + |l.consts| + l.spills;
      && at + lab.arity <= |regs| == |regs'|
      && regs'[..at] == regs[..at] && regs'[at..at + lab.arity] == stack[|stack| - lab.arity..]
    ensures Rel(t, l, b, locals, stack[..lab.base] + stack[|stack| - lab.arity..], regs')
  {
    hide SimOk, RegIntact, Pops;
    FromRel(s, l, b, locals, stack, regs);
    var s1 := Pops(s, |s.stack| - lab.base);
    PopsRel(s, l, b, locals, stack, regs, |s.stack| - lab.base);
    var at := b + FirstFree(s1, l);
    LabelRegisterBound(s, lab.base);
    IntactBelow(l, b, at, regs, regs');
    EntriesExist(t);
    StableAfterPops(s, t, lab.base);
    var after := stack[..lab.base] + stack[|stack| - lab.arity..];
    forall j | 0 <= j < |after| ensures b + Addr(t, l, j) < |regs'| && regs'[b + Addr(t, l, j)] == after[j] {
      MovedOperand(s1, t, lab, l, b, locals, stack, regs, regs', j);
    }
    forall i | 0 <= i < |locals| ensures regs'[b + i] == locals[i] {
      assert regs'[..at][b + i] == regs[..at][b + i];
    }
  }

  lemma StableAfterPops(s: Sim, t: Sim, h: nat)
    requires SimOk(s) && StableAt(s, t, h)
    ensures h <= |s.stack| && StableAt(Pops(s, |s.stack| - h), t, h)
  {
    hide SimOk;
    EntriesExist(s);
  }

  lemma MovedOperand(
    s1: Sim, t: Sim, lab: Label, l: RegLayout, b: nat, locals: seq<Value>, stack: seq<Value>, regs: seq<Value>,
    regs': seq<Value>, j: nat)
    requires lab.base + lab.arity <= |stack| && Rel(s1, l, b, locals, stack[..lab.base], regs) && SimOk(s1)
    requires DestOk(Dest(0, t), lab, l) && StableAt(s1, t, lab.base) && j < lab.base + lab.arity
    requires var at := b + FirstFree(s1, l);
      && at + lab.arity <= |regs| == |regs'|
      && regs'[..at] == regs[..at] && regs'[at..at + lab.arity] == stack[|stack| - lab.arity..]
    ensures t.stack[j].SLocal? ==> t.stack[j].entry < |t.arena|
    ensures b + Addr(t, l, j) < |regs'|
    ensures regs'[b + Addr(t, l, j)] == (stack[..lab.base] + stack[|stack| - lab.arity..])[j]
  {
    hide SimOk, RegIntact;
    EntriesExist(t);
    FromRel(s1, l, b, locals, stack[..lab.base], regs);
    var at := b + FirstFree(s1, l);
    if j < lab.base {
      AddrBelow(s1, l, j);
      assert t.stack[..lab.base][j] == s1.stack[..lab.base][j];
      assert Addr(t, l, j) == Addr(s1, l, j);
      assert regs'[..at][b + Addr(s1, l, j)] == regs[..at][b + Addr(s1, l, j)];
    } else {
      assert s1.stack[..lab.base] == s1.stack;
      RegisterAt(t, s1, lab.base, j);
      assert Addr(t, l, j) == FirstFree(s1, l) + (j - lab.base);
      assert regs'[at..at + lab.arity][j - lab.base] == stack[|stack| - lab.arity..][j - lab.base];
    }
  }

  lemma LabelRegisterBound(s: Sim, base: nat)
    requires SimOk(s) && base <= |s.stack|
    ensures |s.origin| <= LabelRegister(s, base) == Pops(s, |s.stack| - base).currReg <= s.currReg
  {
    RegistersBelow(s, |s.stack| - base);
  }

  /** Above a label's base every operand is a register, counted from the registers in use below it. */
  lemma RegisterAt(t: Sim, s1: Sim, base: nat, j: nat)
    requires SimOk(t) && SimOk(s1) && |s1.stack| == base <= j < |t.stack| && t.stack[..base] == s1.stack
    requires |t.origin| == |s1.origin| && forall i :: base <= i < |t.stack| ==> t.stack[i].SReg?
    ensures t.stack[j] == SReg(s1.currReg + (j - base))
  {
    RegsAbove(t.stack, base, j);
    assert t.stack[..base] == s1.stack;
  }

  lemma {:induction false} RegsAbove(stack: seq<StackSlot>, base: nat, j: nat)
    requires base <= j <= |stack| && forall i :: base <= i < |stack| ==> stack[i].SReg?
    ensures Regs(stack[..j]) == Regs(stack[..base]) + (j - base)
    decreases j
  {
    if base < j {
      assert stack[..j][..j - 1] == stack[..j - 1];
      RegsAbove(stack, base, j - 1);
    }
  }

  /** Only the description of the operands matters, not what has been emitted. */
  lemma RelAbsorbed(s: Sim, l: RegLayout, b: nat, locals: seq<Value>, stack: seq<Value>, regs: seq<Value>)
    requires Rel(s, l, b, locals, stack, regs)
    ensures Rel(s.(code := []), l, b, locals, stack, regs)
  {
    hide Count, Regs, RegIntact;
    var r := s.(code := []);
    assert SpillsOk(r) && OriginsOk(r) && StackOk(r);
    assert forall j :: 0 <= j < |stack| ==> Addr(r, l, j) == Addr(s, l, j);
  }

  // ------------------------------------------------------------------ pieces of a run

  /** A run has arrived at instruction `pc`, in a frame that holds `st` as `sim` describes it. */
  ghost predicate Reaches<W>(pt: Point<W>, pc: nat, sim: Sim, l: RegLayout, b: nat, st: State<W>, regs: seq<Value>) {
    && pt.At? && pt.pc == pc && pt.world == st.world
    && Rel(sim, l, b, st.locals, st.stack, pt.regs)
    && b <= |regs| <= |pt.regs| && pt.regs[..b] == regs[..b]
  }

  /** What the simulated stack emitted, run in place. */
  lemma AbsorbRuns<W>(
    fx: FileEffects<W>, l: RegLayout, b: nat, code: seq<FrameCtl>, env: seq<nat>, p: Pass, s: Sim, regs: seq<Value>,
    w: W)
    returns (n: nat)
    requires p.sim.code == [] && CodeOk(s, l) && b + Width(l) <= |regs|
    requires CodeAt(code, l, env, p.out + Wrapped(s.code), |p.out|, |p.out| + |s.code|)
    ensures AllInFrame(l, Segment(l, p.sim, s))
    ensures Steps(fx, l, b, code, n, At(|p.out|, regs, w)) ==
      match RegRun(fx, l, b, Segment(l, p.sim, s), regs, w)
      case Goes((regs', w')) => At(|p.out| + |s.code|, regs', w')
      case Trapped(w') => Halted(w')
  {
    hide RegRun, CodeOk, Segment, CodeAt, Steps, Wrapped, AllInFrame;
    AbsorbedCode(l, code, env, p, s);
    n := RunsSegment(fx, l, b, code, |p.out|, Segment(l, p.sim, s), regs, w);
  }

  /** What the simulated stack emitted, resolved in place. */
  lemma AbsorbedCode(l: RegLayout, code: seq<FrameCtl>, env: seq<nat>, p: Pass, s: Sim)
    requires p.sim.code == [] && CodeOk(s, l)
    requires CodeAt(code, l, env, p.out + Wrapped(s.code), |p.out|, |p.out| + |s.code|)
    ensures var seg := Segment(l, p.sim, s);
      && AllInFrame(l, seg) && |seg| == |s.code| && |p.out| + |seg| <= |code|
      && forall j :: 0 <= j < |seg| ==> code[|p.out| + j] == FDo(seg[j])
  {
    hide InFrame, Resolve;
    SegmentOk(l, p.sim, s);
    var seg := Segment(l, p.sim, s);
    assert s.code[|p.sim.code|..] == s.code;
    forall j | 0 <= j < |seg| ensures code[|p.out| + j] == FDo(seg[j]) {
      assert (p.out + Wrapped(s.code))[|p.out| + j] == Do(s.code[j]);
    }
  }

  lemma EmptyCodeOk(s: Sim, l: RegLayout)
    requires s.code == [] && l.localsCount <= l.registers
    ensures CodeOk(s, l)
  {
  }

  /** A straight-line operator. */
  lemma PlainRuns<W>(
    fx: FileEffects<W>, l: RegLayout, b: nat, code: seq<FrameCtl>, env: seq<nat>, p: Pass, labels: seq<Label>, op: Op,
    st: State<W>, regs: seq<Value>)
    returns (n: nat)
    requires PassOk(p, labels) && Innermost(labels).base <= |p.sim.stack|
    requires Valid(op, |p.sim.origin|, |p.sim.stack| - Innermost(labels).base)
      && Valid(op, |p.sim.origin|, |p.sim.stack|)
    requires LowerPlain(p, labels, op).Ok? && Fits(LowerPlain(p, labels, op).value.sim, l)
    requires var r := LowerPlain(p, labels, op).value; CodeAt(code, l, env, r.out, |p.out|, |r.out|)
    requires Rel(p.sim, l, b, st.locals, st.stack, regs)
    ensures |st.locals| == |p.sim.origin| && |st.stack| == |p.sim.stack|
    ensures var r, pt := LowerPlain(p, labels, op).value, Steps(fx, l, b, code, n, At(|p.out|, regs, st.world));
      match StackStep(fx.effects, op, st)
      case Goes(st') => Reaches(pt, |r.out|, r.sim, l, b, st', regs)
      case Trapped(w) => pt == Halted(w)
  {
    hide RegRun, SimOk, CodeOk, Rel, LowerOp, StackStep, CodeAt;
    FromRel(p.sim, l, b, st.locals, st.stack, regs);
    var s := LowerOp(p.sim, op).value;
    LowerOpKeepsOk(p.sim, op);
    FitsAbsorbed(p.out, s, l);
    EmptyCodeOk(p.sim, l);
    OpCodeOk(p.sim, op, l);
    OpAgrees(fx, p.sim, op, l, b, st, regs);
    n := AbsorbRuns(fx, l, b, code, env, p, s, regs, st.world);
    match StackStep(fx.effects, op, st)
    case Trapped(_) =>
    case Goes(st') =>
      RelAbsorbed(s, l, b, st'.locals, st'.stack, RegRun(fx, l, b, Segment(l, p.sim, s), regs, st.world).state.0);
  }

  lemma FitsAbsorbed(out: seq<CtlOp>, s: Sim, l: RegLayout)
    ensures Fits(Absorb(out, s).sim, l) <==> Fits(s, l)
  {
  }

  /** Operands forced into registers. */
  lemma MaterializeRuns<W>(
    fx: FileEffects<W>, l: RegLayout, b: nat, code: seq<FrameCtl>, env: seq<nat>, p: Pass, labels: seq<Label>, k: nat,
    st: State<W>, regs: seq<Value>)
    returns (n: nat)
    requires PassOk(p, labels) && Innermost(labels).base + k <= |p.sim.stack|
    requires MaterializeP(p, labels, k).Ok? && Fits(MaterializeP(p, labels, k).value.sim, l)
    requires var r := MaterializeP(p, labels, k).value; CodeAt(code, l, env, r.out, |p.out|, |r.out|)
    requires Rel(p.sim, l, b, st.locals, st.stack, regs)
    ensures var r := MaterializeP(p, labels, k).value;
      Reaches(Steps(fx, l, b, code, n, At(|p.out|, regs, st.world)), |r.out|, r.sim, l, b, st, regs)
  {
    hide RegRun, SimOk, CodeOk, Rel, CodeAt, Materialize;
    FromRel(p.sim, l, b, st.locals, st.stack, regs);
    var s := Staged(p.sim, k);
    FitsAbsorbed(p.out, s, l);
    EmptyCodeOk(p.sim, l);
    if k != 0 {
      MaterializeCodeOk(p.sim, k, l);
    }
    var regs' := StagedAgrees(fx, p.sim, k, l, b, st.locals, st.stack, regs, st.world);
    n := AbsorbRuns(fx, l, b, code, env, p, s, regs, st.world);
    RelAbsorbed(s, l, b, st.locals, st.stack, regs');
  }

  /** The spills hoisted ahead of a construct. */
  lemma {:induction false} SpillFromAgrees<W>(
    fx: FileEffects<W>, s: Sim, i: nat, l: RegLayout, b: nat, locals: seq<Value>, stack: seq<Value>, regs: seq<Value>,
    w: W)
    requires Rel(s, l, b, locals, stack, regs) && SimOk(s) && i <= |s.origin| && SpillFrom(s, i).Ok?
    requires Fits(SpillFrom(s, i).value, l) && CodeOk(s, l)
    ensures var r := SpillFrom(s, i).value;
      && CodeOk(r, l) && s.code <= r.code && AllInFrame(l, Segment(l, s, r)) && b + Width(l) <= |regs|
      && (var got := RegRun(fx, l, b, Segment(l, s, r), regs, w);
         && got.Goes? && got.state.1 == w && |got.state.0| == |regs| && b <= |regs| && got.state.0[..b] == regs[..b]
         && Rel(r, l, b, locals, stack, got.state.0))
    decreases |s.origin| - i
  {
    hide RegRun, SimOk, CodeOk, Rel, Rescue, AllInFrame, RegIntact, Evolves;
    FromRel(s, l, b, locals, stack, regs);
    CodeFits(s, l);
    if i == |s.origin| {
      RunNothing(fx, l, b, s, s, regs, w);
    } else {
      var m := Rescue(s, i).value;
      RescueEvolves(s, i);
      var r := SpillFrom(m, i + 1).value;
      FitsEarlier(m, r, l);
      RescueCodeOk(s, i, l);
      RescueAgrees(fx, s, i, l, b, locals, stack, regs, w);
      var regs1 := RegRun(fx, l, b, Segment(l, s, m), regs, w).state.0;
      SpillFromAgrees(fx, m, i + 1, l, b, locals, stack, regs1, w);
      RunThrough(fx, l, b, s, m, r, regs, w);
    }
  }

  lemma SpillRuns<W>(
    fx: FileEffects<W>, l: RegLayout, b: nat, code: seq<FrameCtl>, env: seq<nat>, p: Pass, labels: seq<Label>,
    st: State<W>, regs: seq<Value>)
    returns (n: nat)
    requires PassOk(p, labels) && SpillLive(p, labels).Ok? && Fits(SpillLive(p, labels).value.sim, l)
    requires var r := SpillLive(p, labels).value; CodeAt(code, l, env, r.out, |p.out|, |r.out|)
    requires Rel(p.sim, l, b, st.locals, st.stack, regs)
    ensures var r := SpillLive(p, labels).value;
      Reaches(Steps(fx, l, b, code, n, At(|p.out|, regs, st.world)), |r.out|, r.sim, l, b, st, regs)
  {
    hide RegRun, SimOk, CodeOk, Rel, CodeAt, SpillFrom;
    FromRel(p.sim, l, b, st.locals, st.stack, regs);
    var s := SpillFrom(p.sim, 0).value;
    FitsAbsorbed(p.out, s, l);
    EmptyCodeOk(p.sim, l);
    SpillFromAgrees(fx, p.sim, 0, l, b, st.locals, st.stack, regs, st.world);
    n := AbsorbRuns(fx, l, b, code, env, p, s, regs, st.world);
    RelAbsorbed(s, l, b, st.locals, st.stack, RegRun(fx, l, b, Segment(l, p.sim, s), regs, st.world).state.0);
  }

  /** A branch's move, whether it is an instruction of its own or part of a conditional branch. */
  lemma CarriedRel<W>(
    s: Sim, lab: Label, dest: Dest, l: RegLayout, b: nat, st: State<W>, regs: seq<Value>)
    requires Rel(s, l, b, st.locals, st.stack, regs) && SimOk(s) && lab.base + lab.arity <= |s.stack| == |st.stack|
    requires LabelRegister(s, lab.base) + lab.arity <= l.registers
    requires DestOk(dest, lab, l) && StableAt(s, dest.sim, lab.base)
    ensures forall j :: 0 <= j < |s.stack| && s.stack[j].SLocal? ==> s.stack[j].entry < |s.arena|
    ensures var inputs := FrameIndices(l, Inputs(s, lab.arity));
      var out := LabelRegister(s, lab.base) + |l.consts| + l.spills;
      && (forall j :: 0 <= j < |inputs| ==> inputs[j] < Width(l))
      && OperandStart(l) <= out && out + |inputs| <= Width(l) && b + Width(l) <= |regs|
      && (var regs' := Overwrite(regs, b + out, Gather(regs, b, inputs));
         var kept := Unwind(st, lab.base, lab.arity);
         && |regs'| == |regs| && regs'[..b] == regs[..b]
         && Rel(dest.sim, l, b, kept.locals, kept.stack, regs'))
  {
    hide SimOk, Rel, Pops;
    FromRel(s, l, b, st.locals, st.stack, regs);
    LabelRegisterBound(s, lab.base);
    InputsAre(s, l, b, st.locals, st.stack, regs, lab.arity);
    var inputs := FrameIndices(l, Inputs(s, lab.arity));
    var at := b + LabelRegister(s, lab.base) + |l.consts| + l.spills;
    var vs := Gather(regs, b, inputs);
    OverwriteShape(regs, at, vs);
    var regs' := Overwrite(regs, at, vs);
    SliceOfPrefix(regs', at, 0, b);
    SliceOfPrefix(regs, at, 0, b);
    assert DestOk(Dest(0, dest.sim), lab, l);
    MoveRel(s, dest.sim, lab, l, b, st.locals, st.stack, regs, regs');
  }

  /** An unconditional branch. */
  lemma BrRuns<W>(
    fx: FileEffects<W>, l: RegLayout, b: nat, code: seq<FrameCtl>, env: seq<nat>, p: Pass, lab: Label, target: Target,
    dest: Dest,
    st: State<W>, regs: seq<Value>)
    returns (n: nat)
    requires Rel(p.sim, l, b, st.locals, st.stack, regs) && SimOk(p.sim)
      && lab.base + lab.arity <= |p.sim.stack| == |st.stack|
    requires LabelRegister(p.sim, lab.base) + lab.arity <= l.registers && l.localsCount <= l.registers
    requires DestOk(dest, lab, l) && StableAt(p.sim, dest.sim, lab.base) && ResolveTarget(env, target) == dest.index
    requires var added := Carried(p.sim, lab, target); CodeAt(code, l, env, p.out + added, |p.out|, |p.out| + |added|)
    ensures Reaches(Steps(fx, l, b, code, n, At(|p.out|, regs, st.world)), dest.index, dest.sim, l, b,
                    Unwind(st, lab.base, lab.arity), regs)
  {
    hide SimOk, Rel, Pops, DestOk, StableAt;
    CarriedRel(p.sim, lab, dest, l, b, st, regs);
    var inputs, o := Inputs(p.sim, lab.arity), LabelRegister(p.sim, lab.base);
    var added := Carried(p.sim, lab, target);
    var at := At(|p.out|, regs, st.world);
    assert (p.out + added)[|p.out|] == added[0];
    if lab.arity == 0 {
      assert added == [Goto(target)];
      assert Overwrite(regs, b + o + |l.consts| + l.spills, []) == regs;
      n := 1;
      assert Steps(fx, l, b, code, 1, at) == Steps(fx, l, b, code, 0, CtlStep(fx, l, b, code, at));
    } else {
      assert added == [Do(Move(inputs, o)), Goto(target)];
      assert (p.out + added)[|p.out| + 1] == added[1];
      n := 2;
      var at1 := CtlStep(fx, l, b, code, at);
      var at2 := CtlStep(fx, l, b, code, at1);
      assert code[|p.out|] == FDo(FMove(FrameIndices(l, inputs), o + |l.consts| + l.spills));
      assert code[|p.out| + 1] == FGoto(dest.index);
      TwoSteps(fx, l, b, code, at);
    }
  }

  lemma TwoSteps<W>(fx: FileEffects<W>, l: RegLayout, b: nat, code: seq<FrameCtl>, pt: Point<W>)
    ensures Steps(fx, l, b, code, 1, pt) == CtlStep(fx, l, b, code, pt)
    ensures Steps(fx, l, b, code, 2, pt) == CtlStep(fx, l, b, code, CtlStep(fx, l, b, code, pt))
  {
    var pt1 := CtlStep(fx, l, b, code, pt);
    assert Steps(fx, l, b, code, 1, pt) == Steps(fx, l, b, code, 0, pt1);
    assert Steps(fx, l, b, code, 2, pt) == Steps(fx, l, b, code, 1, pt1);
    assert Steps(fx, l, b, code, 1, pt1) == Steps(fx, l, b, code, 0, CtlStep(fx, l, b, code, pt1));
  }

  lemma RelWidened(s: Sim, peak: nat, l: RegLayout, b: nat, locals: seq<Value>, stack: seq<Value>, regs: seq<Value>)
    requires Rel(s, l, b, locals, stack, regs) && Widen(s, peak).Ok? && Fits(Widen(s, peak).value, l)
    ensures Rel(Widen(s, peak).value, l, b, locals, stack, regs)
  {
    hide Count, Regs, RegIntact;
    WidenOk(s, peak);
    var r := Widen(s, peak).value;
    assert forall j :: 0 <= j < |stack| ==> Addr(r, l, j) == Addr(s, l, j);
  }

  /** A conditional branch, once the borrows have been rescued: taken, it arrives; not taken, it goes on. */
  lemma BranchIfRuns<W>(
    fx: FileEffects<W>, l: RegLayout, b: nat, code: seq<FrameCtl>, env: seq<nat>, p: Pass, lab: Label, target: Target,
    dest: Dest,
    st: State<W>, regs: seq<Value>)
    requires Rel(p.sim, l, b, st.locals, st.stack, regs) && SimOk(p.sim)
      && lab.base + lab.arity + 1 <= |p.sim.stack| == |st.stack|
    requires BranchIf(p, target, lab).Ok? && Fits(BranchIf(p, target, lab).value.sim, l)
    requires DestOk(dest, lab, l) && StableAt(Pops(p.sim, 1), dest.sim, lab.base)
      && ResolveTarget(env, target) == dest.index
    requires var r := BranchIf(p, target, lab).value; CodeAt(code, l, env, r.out, |p.out|, |r.out|)
    ensures var r, pt := BranchIf(p, target, lab).value, CtlStep(fx, l, b, code, At(|p.out|, regs, st.world));
      var rest := st.(stack := st.stack[..|st.stack| - 1]);
      if IsTrue(st.stack[|st.stack| - 1]) then Reaches(pt, dest.index, dest.sim, l, b,
          Unwind(rest, lab.base, lab.arity), regs)
      else Reaches(pt, |r.out|, r.sim, l, b, rest, regs)
  {
    hide SimOk, Rel, Pops, DestOk, StableAt, Widen, Inputs;
    FromRel(p.sim, l, b, st.locals, st.stack, regs);
    var s := Pops(p.sim, 1);
    var rest := st.(stack := st.stack[..|st.stack| - 1]);
    PopsRel(p.sim, l, b, st.locals, st.stack, regs, 1);
    FromRel(s, l, b, rest.locals, rest.stack, regs);
    var peak := LabelRegister(s, lab.base) + lab.arity;
    WidenOk(s, peak);
    InputsAre(p.sim, l, b, st.locals, st.stack, regs, 1);
    CarriedRel(s, lab, dest, l, b, rest, regs);
    RelWidened(s, peak, l, b, rest.locals, rest.stack, regs);
    var cond := FrameIndex(l, Inputs(p.sim, 1)[0]);
    assert cond == FrameIndices(l, Inputs(p.sim, 1))[0];
    assert Gather(regs, b, FrameIndices(l, Inputs(p.sim, 1)))[0] == st.stack[|st.stack| - 1];
    var r := BranchIf(p, target, lab).value;
    assert code[|p.out|] == ResolveCtl(l, env, r.out[|p.out|]);
  }
}
