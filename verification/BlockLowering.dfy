/**
 Lowering of structured code: labels, the moves branches make, the spills hoisted ahead of
 constructs that diverge or repeat, and dead code, which is not lowered.
 */
module BlockLowering {
  import opened Values
  import opened StackCode
  import opened BlockCode
  import opened RegisterLowering
  import opened LoweredBody
  import opened LoweringCorrect

  /** Where a branch goes: a label still open, by its level, or an instruction. */
  datatype Target = ToLabel(level: nat) | ToIndex(index: nat)

  datatype CtlOp =
    | Do(op: RegOp)
    | Goto(target: Target)
    | Branch(cond: Source, inputs: seq<Source>, out: nat, target: Target)
    | Mark
    | Stop

  /** The pass: the simulated stack, and what has been emitted. */
  datatype Pass = Pass(sim: Sim, out: seq<CtlOp>)

  function Wrapped(code: seq<RegOp>): (r: seq<CtlOp>)
    ensures |r| == |code| && forall j :: 0 <= j < |code| ==> r[j] == Do(code[j])
  {
    seq(|code|, j requires 0 <= j < |code| => Do(code[j]))
  }

  /** What the simulated stack emitted joins the body. */
  function Absorb(out: seq<CtlOp>, s: Sim): Pass {
    Pass(s.(code := []), out + Wrapped(s.code))
  }

  // ------------------------------------------------------------------ invariants of the pass

  predicate Names(op: CtlOp, levels: nat) {
    match op
    case Goto(ToLabel(k)) => k < levels
    case Branch(_, _, _, ToLabel(k)) => k < levels
    case _ => true
  }

  ghost predicate LabelsOk(labels: seq<Label>, height: nat) {
    && labels != []
    && (forall i, j :: 0 <= i <= j < |labels| ==> labels[i].base <= labels[j].base)
    && Innermost(labels).base <= height
  }

  ghost predicate PassOk(p: Pass, labels: seq<Label>) {
    && SimOk(p.sim) && p.sim.code == [] && LabelsOk(labels, |p.sim.stack|)
    && forall j :: 0 <= j < |p.out| ==> Names(p.out[j], |labels|)
  }

  /** A borrowed value stays where it is, or moves once from its local to a spill slot. */
  ghost predicate Evolves(s: Sim, t: Sim) {
    && |s.arena| <= |t.arena|
    && forall e :: 0 <= e < |s.arena| ==>
      t.arena[e].location == s.arena[e].location || (s.arena[e].location.Original? && t.arena[e].location.Spilled?)
  }

  /** What every step of the pass keeps, below operand `h`. */
  ghost predicate Onward(p: Pass, r: Pass, h: nat) {
    && p.out <= r.out && Grows(p.sim, r.sim) && Evolves(p.sim, r.sim)
    && h <= |p.sim.stack| && h <= |r.sim.stack| && r.sim.stack[..h] == p.sim.stack[..h]
  }

  /** Lowered, the pass stays in order, keeps what lies below operand `h` and leaves `height` operands. */
  ghost predicate Lowers(p: Pass, r: Lowered<Pass>, labels: seq<Label>, h: nat, height: nat) {
    r.Ok? ==> PassOk(r.value, labels) && Onward(p, r.value, h) && |r.value.sim.stack| == height
  }

  lemma OnwardTrans(p: Pass, q: Pass, r: Pass, h: nat, h': nat)
    requires Onward(p, q, h') && Onward(q, r, h) && h <= h'
    ensures Onward(p, r, h)
  {
    assert p.sim.stack[..h'][..h] == p.sim.stack[..h];
    assert q.sim.stack[..h'][..h] == q.sim.stack[..h];
  }

  // ------------------------------------------------------------------ operators

  lemma OpEvolves(s: Sim, op: Op, h: nat)
    requires SimOk(s) && h <= |s.stack| && Valid(op, |s.origin|, |s.stack| - h) && Valid(op, |s.origin|, |s.stack|)
    requires LowerOp(s, op).Ok?
    ensures var r := LowerOp(s, op).value;
      Evolves(s, r) && h <= |r.stack| && r.stack[..h] == s.stack[..h]
  {
    hide SimOk, PushRegs, LowerCall, Materialize, Rescue;
    match op
    case Const(_) =>
    case LocalGet(_) => EntriesExist(s);
    case Drop =>
    case LocalSet(i) => RescueEvolves(s, i);
    case LocalTee(i) => RescueEvolves(s, i);
    case Apply(code, ins, outs) => ApplyEvolves(s, code, ins, outs);
    case Invoke(callee, params, results) => InvokeEvolves(s, callee, params, results);
  }

  lemma ApplyEvolves(s: Sim, code: int, ins: nat, outs: nat)
    requires SimOk(s) && ins <= |s.stack| && LowerOp(s, Apply(code, ins, outs)).Ok?
    ensures var r := LowerOp(s, Apply(code, ins, outs)).value;
      && Evolves(s, r) && |s.stack| - ins <= |r.stack|
      && forall h :: 0 <= h <= |s.stack| - ins ==> r.stack[..h] == s.stack[..h]
  {
    hide SimOk, PushRegs;
    EntriesExist(s);
    var s1 := Pops(s, ins);
    var value := RegOp.Value(code, Inputs(s, ins), s1.currReg, outs);
    EmitKeepsOk(s1, value);
    PushRegsKeepsOk(Emit(s1, value), outs);
  }

  lemma InvokeEvolves(s: Sim, callee: nat, params: nat, results: nat)
    requires SimOk(s) && params <= |s.stack| && LowerOp(s, Invoke(callee, params, results)).Ok?
    ensures var r := LowerOp(s, Invoke(callee, params, results)).value;
      && Evolves(s, r) && |s.stack| - params <= |r.stack|
      && forall h :: 0 <= h <= |s.stack| - params ==> r.stack[..h] == s.stack[..h]
  {
    hide SimOk, PushRegs, LowerCall, Materialize;
    LowerCallShape(s, callee, params, results);
    StagedEvolves(s, params);
    var s2 := Pops(Staged(s, params), params);
    PushRegsKeepsOk(Emit(s2, CallLocal(callee, params, results, s2.currReg)), results);
    assert s2.stack == s.stack[..|s.stack| - params];
  }

  lemma RescueEvolves(s: Sim, i: nat)
    requires SimOk(s) && i < |s.origin| && Rescue(s, i).Ok?
    ensures SimOk(Rescue(s, i).value) && Evolves(s, Rescue(s, i).value) && Rescue(s, i).value.stack == s.stack
    ensures |Rescue(s, i).value.origin| == |s.origin| && Grows(s, Rescue(s, i).value)
  {
    RescueKeepsOk(s, i);
  }

  lemma StagedEvolves(s: Sim, n: nat)
    requires SimOk(s) && n <= |s.stack| && (n != 0 ==> Materialize(s, n).Ok?)
    ensures var r := Staged(s, n);
      && SimOk(r) && Evolves(s, r) && Grows(s, r) && |r.stack| == |s.stack|
      && r.stack[..|s.stack| - n] == s.stack[..|s.stack| - n]
      && forall j :: |s.stack| - n <= j < |s.stack| ==> r.stack[j].SReg?
  {
    hide SimOk, PushRegs;
    if n != 0 {
      MaterializeKeepsOk(s, n);
      var s1 := Pops(s, n);
      EntriesExist(s);
      var move := Move(Inputs(s, n), s1.currReg);
      EmitKeepsOk(s1, move);
      PushRegsKeepsOk(Emit(s1, move), n);
    }
  }

  ghost function LowerPlain(p: Pass, labels: seq<Label>, op: Op): (r: Lowered<Pass>)
    requires PassOk(p, labels) && Innermost(labels).base <= |p.sim.stack|
    requires Valid(op, |p.sim.origin|, |p.sim.stack| - Innermost(labels).base)
      && Valid(op, |p.sim.origin|, |p.sim.stack|)
    ensures r.Ok? ==> PassOk(r.value, labels) && Onward(p, r.value, Innermost(labels).base)
    ensures r.Ok? ==> |r.value.sim.stack| == HeightAfter(op, |p.sim.origin|, |p.sim.stack|)
  {
    match LowerOp(p.sim, op)
    case FrameTooLarge(what) => FrameTooLarge(what)
    case Ok(s) =>
      LowerOpKeepsOk(p.sim, op);
      OpEvolves(p.sim, op, Innermost(labels).base);
      AbsorbOk(p, labels, s);
      Ok(Absorb(p.out, s))
  }

  lemma AbsorbOk(p: Pass, labels: seq<Label>, s: Sim)
    requires PassOk(p, labels) && SimOk(s) && Innermost(labels).base <= |s.stack|
    ensures PassOk(Absorb(p.out, s), labels)
  {
    hide Count, Regs;
    assert SpillsOk(s.(code := [])) && OriginsOk(s.(code := [])) && StackOk(s.(code := []));
  }

  /** What forcing the top `n` operands into registers keeps of the pass. */
  lemma StagedPass(p: Pass, labels: seq<Label>, n: nat)
    requires PassOk(p, labels) && Innermost(labels).base + n <= |p.sim.stack|
    requires n != 0 ==> Materialize(p.sim, n).Ok?
    ensures var r := Absorb(p.out, Staged(p.sim, n));
      && PassOk(r, labels) && Onward(p, r, |p.sim.stack| - n) && |r.sim.stack| == |p.sim.stack|
      && |r.sim.origin| == |p.sim.origin| && (n == 0 ==> r == p)
      && forall j :: |p.sim.stack| - n <= j < |p.sim.stack| ==> r.sim.stack[j].SReg?
  {
    hide SimOk, Materialize;
    StagedEvolves(p.sim, n);
    AbsorbOk(p, labels, Staged(p.sim, n));
  }

  /** Operands forced into registers before a construct or at its end. */
  ghost function MaterializeP(p: Pass, labels: seq<Label>, n: nat): (r: Lowered<Pass>)
    requires PassOk(p, labels) && Innermost(labels).base + n <= |p.sim.stack|
    ensures r.Ok? ==>
      && PassOk(r.value, labels) && Onward(p, r.value, |p.sim.stack| - n) && |r.value.sim.stack| == |p.sim.stack|
      && |r.value.sim.origin| == |p.sim.origin|
      && (n == 0 ==> r.value == p)
      && (n != 0 ==> Materialize(p.sim, n).Ok?) && r.value == Absorb(p.out, Staged(p.sim, n))
      && forall j :: |p.sim.stack| - n <= j < |p.sim.stack| ==> r.value.sim.stack[j].SReg?
  {
    if n == 0 then
      StagedPass(p, labels, n);
      Ok(p)
    else
      match Materialize(p.sim, n)
      case FrameTooLarge(what) => FrameTooLarge(what)
      case Ok(s) =>
        StagedPass(p, labels, n);
        Ok(Absorb(p.out, s))
  }

  /** `spill_live_locals`: rescues every borrow of local `i` and after. */
  ghost function SpillFrom(s: Sim, i: nat): (r: Lowered<Sim>)
    requires SimOk(s) && i <= |s.origin|
    ensures r.Ok? ==>
      && SimOk(r.value) && Evolves(s, r.value) && Grows(s, r.value)
      && r.value.stack == s.stack && |r.value.origin| == |s.origin|
      && (forall k :: 0 <= k < i ==> r.value.origin[k] == s.origin[k])
      && forall k :: i <= k < |s.origin| ==> r.value.origin[k] == None
    decreases |s.origin| - i
  {
    if i == |s.origin| then Ok(s)
    else
      match Rescue(s, i)
      case FrameTooLarge(what) => FrameTooLarge(what)
      case Ok(s1) =>
        RescueEvolves(s, i);
        RescueClears(s, i);
        SpillFrom(s1, i + 1)
  }

  lemma RescueClears(s: Sim, i: nat)
    requires SimOk(s) && i < |s.origin| && Rescue(s, i).Ok?
    ensures var r := Rescue(s, i).value;
      r.origin[i] == None && |r.origin| == |s.origin| && forall k :: 0 <= k < |s.origin| && k != i ==>
        r.origin[k] == s.origin[k]
  {
  }

  ghost function SpillLive(p: Pass, labels: seq<Label>): (r: Lowered<Pass>)
    requires PassOk(p, labels)
    ensures r.Ok? ==>
      && PassOk(r.value, labels) && Onward(p, r.value, |p.sim.stack|) && r.value.sim.stack == p.sim.stack
      && SpillFrom(p.sim, 0).Ok? && r.value == Absorb(p.out, SpillFrom(p.sim, 0).value)
      && forall k :: 0 <= k < |r.value.sim.origin| ==> r.value.sim.origin[k] == None
  {
    match SpillFrom(p.sim, 0)
    case FrameTooLarge(what) => FrameTooLarge(what)
    case Ok(s) =>
      AbsorbOk(p, labels, s);
      Ok(Absorb(p.out, s))
  }

  // ------------------------------------------------------------------ branches

  /** `max_registers` raised by hand, for registers a branch writes without allocating them. */
  function Widen(s: Sim, peak: nat): Lowered<Sim> {
    if peak <= s.maxReg then Ok(s)
    else if MAX_U16 < peak then FrameTooLarge("locals and operand registers")
    else Ok(s.(maxReg := peak))
  }

  lemma WidenOk(s: Sim, peak: nat)
    requires SimOk(s) && Widen(s, peak).Ok?
    ensures var r := Widen(s, peak).value;
      SimOk(r) && Grows(s, r) && Evolves(s, r) && r == s.(maxReg := r.maxReg) && peak <= r.maxReg
  {
    hide Count, Regs;
    var r := Widen(s, peak).value;
    assert SpillsOk(r) && OriginsOk(r) && StackOk(r);
  }

  /** The register a label's values begin at: what is in use below it. */
  ghost function LabelRegister(s: Sim, base: nat): nat
    requires SimOk(s) && base <= |s.stack|
  {
    Pops(s, |s.stack| - base).currReg
  }

  function MoveIfAny(inputs: seq<Source>, out: nat): seq<RegOp> {
    if inputs == [] then [] else [Move(inputs, out)]
  }

  function TargetAt(targets: seq<Target>, d: nat): Target
    requires d < |targets|
  {
    targets[|targets| - 1 - d]
  }

  ghost predicate TargetsOk(labels: seq<Label>, targets: seq<Target>) {
    && |targets| == |labels|
    && forall k :: 0 <= k < |targets| && targets[k].ToLabel? ==> targets[k].level == k
  }

  ghost predicate ResetAs(s: Sim, r: Sim, lab: Label) {
    && SimOk(r) && Grows(s, r) && Evolves(s, r) && r.code == s.code
    && lab.base <= |s.stack| && |r.stack| == lab.base + lab.results && r.stack[..lab.base] == s.stack[..lab.base]
  }

  /** `reset_enclosing_block_layout`: the layout the end of a block expects after code that cannot reach it. */
  ghost function ResetTo(s: Sim, lab: Label): (r: Lowered<Sim>)
    requires SimOk(s) && lab.base <= |s.stack|
    ensures r.Ok? ==> ResetAs(s, r.value, lab)
  {
    hide SimOk, PassOk, Onward, Evolves, Grows, HeightAfterSeq;
    var s1 := Pops(s, |s.stack| - lab.base);
    match PushRegs(s1, lab.results)
    case FrameTooLarge(what) => FrameTooLarge(what)
    case Ok(s2) =>
      ResetOk(s, lab, s1, s2);
      Ok(s2)
  }

  lemma ResetOk(s: Sim, lab: Label, s1: Sim, r: Sim)
    requires SimOk(s) && lab.base <= |s.stack| && s1 == Pops(s, |s.stack| - lab.base)
    requires PushRegs(s1, lab.results) == Lowered<Sim>.Ok(r)
    ensures ResetAs(s, r, lab)
  {
    hide SimOk, PushRegs, Pops;
    PushRegsKeepsOk(s1, lab.results);
  }

  ghost function LowerBr(p: Pass, labels: seq<Label>, targets: seq<Target>, d: nat): Lowered<Pass>
    requires PassOk(p, labels) && TargetsOk(labels, targets) && BranchValid(labels, d, |p.sim.stack|)
  {
    BranchReady(p, labels, d);
    var lab, target := LabelAt(labels, d), TargetAt(targets, d);
    match Widen(p.sim, LabelRegister(p.sim, lab.base) + lab.arity)
    case FrameTooLarge(what) => FrameTooLarge(what)
    case Ok(s1) =>
      WidenOk(p.sim, LabelRegister(p.sim, lab.base) + lab.arity);
      match ResetTo(s1, Innermost(labels))
      case FrameTooLarge(what) => FrameTooLarge(what)
      case Ok(s2) => Ok(Pass(s2, p.out + Carried(p.sim, lab, target)))
  }

  lemma LowerBrOk(p: Pass, labels: seq<Label>, targets: seq<Target>, d: nat)
    requires PassOk(p, labels) && TargetsOk(labels, targets) && BranchValid(labels, d, |p.sim.stack|)
    ensures Lowers(p, LowerBr(p, labels, targets, d), labels, Innermost(labels).base,
                   Innermost(labels).base + Innermost(labels).results)
  {
    hide SimOk, Widen, ResetTo, Carried, Onward, Evolves, Grows, LabelRegister, ResetAs;
    BranchReady(p, labels, d);
    if LowerBr(p, labels, targets, d).Ok? {
      var peak := LabelRegister(p.sim, LabelAt(labels, d).base) + LabelAt(labels, d).arity;
      var s1 := Widen(p.sim, peak).value;
      WidenOk(p.sim, peak);
      BranchedOk(p, s1, ResetTo(s1, Innermost(labels)).value, labels, targets, d);
    }
  }

  /** A valid branch names an open label that has its operands. */
  lemma BranchReady(p: Pass, labels: seq<Label>, d: nat)
    requires PassOk(p, labels) && BranchValid(labels, d, |p.sim.stack|)
    ensures SimOk(p.sim) && d < |labels| && Innermost(labels).base <= |p.sim.stack|
    ensures var lab := LabelAt(labels, d);
      lab.base + lab.arity <= |p.sim.stack|
  {
    hide SimOk;
    BranchFits(labels, d, |p.sim.stack|);
  }

  lemma BranchedOk(p: Pass, s1: Sim, s2: Sim, labels: seq<Label>, targets: seq<Target>, d: nat)
    requires PassOk(p, labels) && TargetsOk(labels, targets) && BranchValid(labels, d, |p.sim.stack|)
    requires SimOk(s1) && Grows(p.sim, s1) && Evolves(p.sim, s1) && s1 == p.sim.(maxReg := s1.maxReg)
    requires ResetAs(s1, s2, Innermost(labels))
    requires LabelAt(labels, d).base + LabelAt(labels, d).arity <= |p.sim.stack|
    ensures Lowers(p, Ok(Pass(s2, p.out + Carried(p.sim, LabelAt(labels, d), TargetAt(targets, d)))), labels,
                   Innermost(labels).base, Innermost(labels).base + Innermost(labels).results)
  {
    hide SimOk, Carried, Evolves, Grows;
    GrowsEvolvesTrans(p.sim, s1, s2);
    AddedOk(p, s2, labels, LabelAt(labels, d), TargetAt(targets, d));
  }

  /** A branch: the values its label carries moved to the label's registers, if there are any, and the jump. */
  ghost function Carried(s: Sim, lab: Label, target: Target): seq<CtlOp>
    requires SimOk(s) && lab.base + lab.arity <= |s.stack|
  {
    EntriesExist(s);
    Wrapped(MoveIfAny(Inputs(s, lab.arity), LabelRegister(s, lab.base))) + [Goto(target)]
  }

  lemma AddedOk(p: Pass, s: Sim, labels: seq<Label>, lab: Label, target: Target)
    requires PassOk(p, labels) && SimOk(s) && s.code == [] && Grows(p.sim, s) && Evolves(p.sim, s)
    requires var h := Innermost(labels).base;
      h <= |s.stack| && s.stack[..h] == p.sim.stack[..h]
    requires lab.base + lab.arity <= |p.sim.stack| && (target.ToLabel? ==> target.level < |labels|)
    ensures var r := Pass(s, p.out + Carried(p.sim, lab, target));
      PassOk(r, labels) && Onward(p, r, Innermost(labels).base)
  {
    hide SimOk;
    StepOk(p, s, Carried(p.sim, lab, target), labels);
  }

  lemma GrowsEvolvesTrans(s: Sim, s1: Sim, s2: Sim)
    requires Grows(s, s1) && Grows(s1, s2) && Evolves(s, s1) && Evolves(s1, s2)
    ensures Grows(s, s2) && Evolves(s, s2)
  {
  }

  lemma BranchFits(labels: seq<Label>, d: nat, height: nat)
    requires labels != [] && BranchValid(labels, d, height)
    requires forall i, j :: 0 <= i <= j < |labels| ==> labels[i].base <= labels[j].base
    ensures var lab := LabelAt(labels, d);
      lab.base <= Innermost(labels).base && lab.base + lab.arity <= height
  {
  }

  lemma StepOk(p: Pass, s: Sim, added: seq<CtlOp>, labels: seq<Label>)
    requires PassOk(p, labels) && SimOk(s) && s.code == [] && Grows(p.sim, s) && Evolves(p.sim, s)
    requires var h := Innermost(labels).base;
      h <= |s.stack| && s.stack[..h] == p.sim.stack[..h]
    requires forall j :: 0 <= j < |added| ==> Names(added[j], |labels|)
    ensures PassOk(Pass(s, p.out + added), labels) && Onward(p, Pass(s, p.out + added), Innermost(labels).base)
  {
    hide SimOk;
  }

  ghost function LowerBrIf(p: Pass, labels: seq<Label>, targets: seq<Target>, d: nat): (r: Lowered<Pass>)
    requires PassOk(p, labels) && TargetsOk(labels, targets)
    requires 1 <= |p.sim.stack| && BranchValid(labels, d, |p.sim.stack| - 1)
    ensures r.Ok? ==>
      && PassOk(r.value, labels) && Onward(p, r.value, Innermost(labels).base)
      && |r.value.sim.stack| == |p.sim.stack| - 1
  {
    hide SimOk;
    match SpillLive(p, labels)
    case FrameTooLarge(what) => FrameTooLarge(what)
    case Ok(p1) =>
      match BranchIf(p1, TargetAt(targets, d), LabelAt(labels, d))
      case FrameTooLarge(what) => FrameTooLarge(what)
      case Ok(r) =>
        BranchIfOk(p1, labels, TargetAt(targets, d), LabelAt(labels, d));
        OnwardTrans(p, p1, r, Innermost(labels).base, |p.sim.stack|);
        Ok(r)
  }

  /** The condition, and the move performed only when the branch is taken. */
  ghost function BranchIf(p: Pass, target: Target, lab: Label): (r: Lowered<Pass>)
    requires SimOk(p.sim) && lab.base + lab.arity + 1 <= |p.sim.stack|
  {
    hide SimOk;
    EntriesExist(p.sim);
    EntriesExist(Pops(p.sim, 1));
    var s := Pops(p.sim, 1);
    var o := LabelRegister(s, lab.base);
    match Widen(s, o + lab.arity)
    case FrameTooLarge(what) => FrameTooLarge(what)
    case Ok(s1) => Ok(Pass(s1, p.out + [Branch(Inputs(p.sim, 1)[0], Inputs(s, lab.arity), o, target)]))
  }

  lemma BranchIfOk(p: Pass, labels: seq<Label>, target: Target, lab: Label)
    requires PassOk(p, labels) && 1 <= |p.sim.stack| && (target.ToLabel? ==> target.level < |labels|)
    requires lab.base <= Innermost(labels).base && Innermost(labels).base + lab.arity <= |p.sim.stack| - 1
    ensures var r := BranchIf(p, target, lab);
      r.Ok? ==>
        && PassOk(r.value, labels) && Onward(p, r.value, Innermost(labels).base)
        && |r.value.sim.stack| == |p.sim.stack| - 1
  {
    hide SimOk, Pops, Widen, Inputs;
    EntriesExist(p.sim);
    EntriesExist(Pops(p.sim, 1));
    var s := Pops(p.sim, 1);
    var o := LabelRegister(s, lab.base);
    if Widen(s, o + lab.arity).Ok? {
      PopThenWiden(p.sim, o + lab.arity);
      StepOk(p, Widen(s, o + lab.arity).value, [Branch(Inputs(p.sim, 1)[0], Inputs(s, lab.arity), o, target)], labels);
    }
  }

  lemma PopThenWiden(s: Sim, peak: nat)
    requires SimOk(s) && s.stack != [] && Widen(Pops(s, 1), peak).Ok?
    ensures var r := Widen(Pops(s, 1), peak).value;
      && SimOk(r) && r.code == s.code && Grows(s, r) && Evolves(s, r)
      && r.stack == s.stack[..|s.stack| - 1]
      && forall h :: 0 <= h <= |r.stack| ==> r.stack[..h] == s.stack[..h]
  {
    hide SimOk, Pops;
    WidenOk(Pops(s, 1), peak);
  }

  // ------------------------------------------------------------------ constructs

  /** The end of a label: every branch that named it now names the instruction at `index`. */
  function Patch(op: CtlOp, level: nat, index: nat): CtlOp {
    match op
    case Goto(ToLabel(k)) => if k == level then Goto(ToIndex(index)) else op
    case Branch(cond, inputs, out, ToLabel(k)) => if k == level then Branch(cond, inputs, out, ToIndex(index)) else op
    case _ => op
  }

  function PatchAll(out: seq<CtlOp>, level: nat, index: nat): (r: seq<CtlOp>)
    ensures |r| == |out| && forall j :: 0 <= j < |out| ==> r[j] == Patch(out[j], level, index)
  {
    seq(|out|, j requires 0 <= j < |out| => Patch(out[j], level, index))
  }

  lemma PatchKeeps(out: seq<CtlOp>, later: seq<CtlOp>, level: nat, index: nat)
    requires out <= later && forall j :: 0 <= j < |out| ==> Names(out[j], level)
    ensures out <= PatchAll(later, level, index)
  {
    forall j | 0 <= j < |out| ensures PatchAll(later, level, index)[j] == out[j] {
      assert later[j] == out[j] && Names(out[j], level);
    }
  }

  /** `end`: the results in registers, the branches patched, and the instruction they go to. */
  ghost function Close(p: Pass, labels: seq<Label>): (r: Lowered<Pass>)
    requires PassOk(p, labels) && 2 <= |labels| && |p.sim.stack| == Innermost(labels).base + Innermost(labels).results
    ensures r.Ok? ==>
      && PassOk(r.value, labels[..|labels| - 1]) && |r.value.sim.stack| == |p.sim.stack|
      && Grows(p.sim, r.value.sim) && Evolves(p.sim, r.value.sim)
      && r.value.sim.stack[..Innermost(labels).base] == p.sim.stack[..Innermost(labels).base]
      && forall out :: out <= p.out && (forall j :: 0 <= j < |out| ==> Names(out[j], |labels| - 1)) ==>
         out <= r.value.out
  {
    var results := Innermost(labels).results;
    match MaterializeP(p, labels, results)
    case FrameTooLarge(what) => FrameTooLarge(what)
    case Ok(p1) =>
      CloseOk(p, p1, labels);
      Ok(Pass(p1.sim, PatchAll(p1.out, |labels| - 1, |p1.out|) + [Mark]))
  }

  lemma CloseOk(p: Pass, p1: Pass, labels: seq<Label>)
    requires PassOk(p1, labels) && 2 <= |labels| && p.out <= p1.out
    ensures PassOk(Pass(p1.sim, PatchAll(p1.out, |labels| - 1, |p1.out|) + [Mark]), labels[..|labels| - 1])
    ensures forall out :: out <= p.out && (forall j :: 0 <= j < |out| ==> Names(out[j], |labels| - 1)) ==>
      out <= PatchAll(p1.out, |labels| - 1, |p1.out|) + [Mark]
  {
    hide SimOk;
    forall out | out <= p.out && (forall j :: 0 <= j < |out| ==> Names(out[j], |labels| - 1))
      ensures out <= PatchAll(p1.out, |labels| - 1, |p1.out|) + [Mark]
    {
      PatchKeeps(out, p1.out, |labels| - 1, |p1.out|);
    }
  }

  ghost predicate Enters(p: Pass, labels: seq<Label>, targets: seq<Target>) {
    PassOk(p, labels) && TargetsOk(labels, targets)
  }

  /** The operands left at the end of a sequence, reached or not. */
  function LeftAfter(h: Height, labels: seq<Label>): nat
    requires labels != []
  {
    if h.Live? then h.height else Innermost(labels).base + Innermost(labels).results
  }

  /** A label's body, from its opening to its end. */
  ghost function LowerInside(p: Pass, labels: seq<Label>, targets: seq<Target>, lab: Label, target: Target,
    body: seq<Ctl>)
    : (r: Lowered<Pass>)
    requires Enters(p, labels, targets) && (target.ToLabel? ==> target.level == |labels|)
    requires Innermost(labels).base <= lab.base <= |p.sim.stack|
    requires Closed(HeightAfterSeq(body, |p.sim.origin|, labels + [lab], |p.sim.stack|), lab.base + lab.results).Live?
    ensures Lowers(p, r, labels, lab.base, lab.base + lab.results)
    decreases body, 1
  {
    hide SimOk;
    OpenOk(p, labels, lab);
    match LowerSeq(p, labels + [lab], targets + [target], body)
    case FrameTooLarge(what) => FrameTooLarge(what)
    case Ok(p1) =>
      match Close(p1, labels + [lab])
      case FrameTooLarge(what) => FrameTooLarge(what)
      case Ok(p2) =>
        ClosedOk(p, p1, p2, labels, lab);
        Ok(p2)
  }

  lemma OpenOk(p: Pass, labels: seq<Label>, lab: Label)
    requires PassOk(p, labels) && Innermost(labels).base <= lab.base <= |p.sim.stack|
    ensures PassOk(p, labels + [lab]) && Innermost(labels + [lab]) == lab
  {
    hide SimOk;
    assert forall j :: 0 <= j < |p.out| ==> Names(p.out[j], |labels|) ==> Names(p.out[j], |labels| + 1);
  }

  lemma ClosedOk(p: Pass, p1: Pass, p2: Pass, labels: seq<Label>, lab: Label)
    requires PassOk(p, labels) && Onward(p, p1, lab.base)
    requires PassOk(p2, (labels + [lab])[..|labels + [lab]| - 1])
    requires Grows(p1.sim, p2.sim) && Evolves(p1.sim, p2.sim)
    requires lab.base <= |p1.sim.stack| == |p2.sim.stack| && p2.sim.stack[..lab.base] == p1.sim.stack[..lab.base]
    requires forall out :: out <= p1.out && (forall j :: 0 <= j < |out| ==> Names(out[j], |labels|)) ==> out <= p2.out
    ensures PassOk(p2, labels) && Onward(p, p2, lab.base)
  {
    hide SimOk;
    assert (labels + [lab])[..|labels + [lab]| - 1] == labels;
    assert p.out <= p2.out;
  }

  ghost function LowerOne(p: Pass, labels: seq<Label>, targets: seq<Target>, c: Ctl): (r: Lowered<Pass>)
    requires Enters(p, labels, targets) && HeightAfterOne(c, |p.sim.origin|, labels, |p.sim.stack|).Live?
    ensures r.Ok? ==>
      && PassOk(r.value, labels) && Onward(p, r.value, Innermost(labels).base)
      && |r.value.sim.stack| == HeightAfterOne(c, |p.sim.origin|, labels, |p.sim.stack|).height
    decreases c, 0
  {
    hide SimOk;
    match c
    case Plain(op) => PlainFits(op, |p.sim.origin|, Innermost(labels).base, |p.sim.stack|); LowerPlain(p, labels, op)
    case BrIf(d) => LowerBrIf(p, labels, targets, d)
    case Block(params, results, body) =>
      var lab := Label(|p.sim.stack| - params, results, results);
      var r := LowerBlock(p, labels, targets, params, lab, body);
      LowersBelow(p, r, labels, Innermost(labels).base, lab.base, lab.base + results);
      r
    case Loop(params, results, body) =>
      var lab := Label(|p.sim.stack| - params, params, results);
      var r := LowerLoop(p, labels, targets, params, lab, body);
      LowersBelow(p, r, labels, Innermost(labels).base, lab.base, lab.base + results);
      r
  }

  /** A label whose branches go to its end. */
  ghost function LowerBlock(p: Pass, labels: seq<Label>, targets: seq<Target>, params: nat, lab: Label, body: seq<Ctl>)
    : (r: Lowered<Pass>)
    requires Enters(p, labels, targets) && Innermost(labels).base <= lab.base == |p.sim.stack| - params
    requires Closed(HeightAfterSeq(body, |p.sim.origin|, labels + [lab], |p.sim.stack|), lab.base + lab.results).Live?
    ensures Lowers(p, r, labels, lab.base, lab.base + lab.results)
    decreases body, 2
  {
    hide SimOk, PassOk, Onward, Evolves, Grows, HeightAfterSeq;
    HeadFits(p, labels, params, lab);
    match MaterializeP(p, labels, params)
    case FrameTooLarge(what) => FrameTooLarge(what)
    case Ok(p1) =>
      BodyEnters(p, p1, labels, targets, lab, body);
      match LowerInside(p1, labels, targets, lab, ToLabel(|labels|), body)
      case FrameTooLarge(what) => FrameTooLarge(what)
      case Ok(r) =>
        LowersVia(p, p1, r, labels, lab.base, lab.base + lab.results);
        Ok(r)
  }

  /** Past what is emitted ahead of a construct its body can be lowered. */
  lemma BodyEnters(p: Pass, p1: Pass, labels: seq<Label>, targets: seq<Target>, lab: Label, body: seq<Ctl>)
    requires Enters(p, labels, targets) && Innermost(labels).base <= lab.base <= |p.sim.stack| == |p1.sim.stack|
    requires Closed(HeightAfterSeq(body, |p.sim.origin|, labels + [lab], |p.sim.stack|), lab.base + lab.results).Live?
    requires PassOk(p1, labels) && Onward(p, p1, lab.base)
    ensures Enters(p1, labels, targets) && Innermost(labels).base <= lab.base <= |p1.sim.stack|
    ensures Closed(HeightAfterSeq(body, |p1.sim.origin|, labels + [lab], |p1.sim.stack|), lab.base + lab.results).Live?
  {
    hide PassOk, HeightAfterSeq, Evolves;
  }

  lemma OnwardBelow(p: Pass, r: Pass, h: nat, h': nat)
    requires Onward(p, r, h') && h <= h'
    ensures Onward(p, r, h)
  {
    assert p.sim.stack[..h'][..h] == p.sim.stack[..h];
    assert r.sim.stack[..h'][..h] == r.sim.stack[..h];
  }

  /** A label whose branches go back to its start. */
  ghost function LowerLoop(p: Pass, labels: seq<Label>, targets: seq<Target>, params: nat, lab: Label, body: seq<Ctl>)
    : (r: Lowered<Pass>)
    requires Enters(p, labels, targets) && Innermost(labels).base <= lab.base == |p.sim.stack| - params
    requires Closed(HeightAfterSeq(body, |p.sim.origin|, labels + [lab], |p.sim.stack|), lab.base + lab.results).Live?
    ensures Lowers(p, r, labels, lab.base, lab.base + lab.results)
    decreases body, 3
  {
    HeadFits(p, labels, params, lab);
    LoopHeadOk(p, labels, params);
    match LoopHead(p, labels, params)
    case FrameTooLarge(what) => FrameTooLarge(what)
    case Ok(p1) => LowerLoopBody(p, p1, labels, targets, params, lab, body)
  }

  /** A loop's body, past its head. */
  ghost function LowerLoopBody(
    p: Pass, p1: Pass, labels: seq<Label>, targets: seq<Target>, params: nat, lab: Label,
    body: seq<Ctl>): (r: Lowered<Pass>)
    requires Enters(p, labels, targets) && Innermost(labels).base <= lab.base == |p.sim.stack| - params
    requires Closed(HeightAfterSeq(body, |p.sim.origin|, labels + [lab], |p.sim.stack|), lab.base + lab.results).Live?
    requires Headed(p, Ok(p1), labels, params)
    ensures Lowers(p, r, labels, lab.base, lab.base + lab.results)
    decreases body, 2
  {
    hide SimOk, PassOk, Onward, Evolves, Grows, HeightAfterSeq;
    HeadOnward(p, p1, labels, params);
    BodyEnters(p, p1, labels, targets, lab, body);
    match LowerInside(p1, labels, targets, lab, ToIndex(|p1.out| - 1), body)
    case FrameTooLarge(what) => FrameTooLarge(what)
    case Ok(r) =>
      LowersVia(p, p1, r, labels, lab.base, lab.base + lab.results);
      Ok(r)
  }

  lemma HeadFits(p: Pass, labels: seq<Label>, params: nat, lab: Label)
    requires labels != [] && Innermost(labels).base <= lab.base == |p.sim.stack| - params
    ensures Innermost(labels).base + params <= |p.sim.stack|
  {
  }

  lemma HeadOnward(p: Pass, p1: Pass, labels: seq<Label>, params: nat)
    requires Headed(p, Ok(p1), labels, params)
    ensures params <= |p.sim.stack| == |p1.sim.stack| && p1.out != []
    ensures PassOk(p1, labels) && Onward(p, p1, |p.sim.stack| - params)
  {
    hide PassOk, Onward;
  }

  lemma LowersVia(p: Pass, p1: Pass, r: Pass, labels: seq<Label>, h: nat, height: nat)
    requires Onward(p, p1, h) && Lowers(p1, Ok(r), labels, h, height)
    ensures Lowers(p, Ok(r), labels, h, height)
  {
    hide PassOk, Onward;
    OnwardTrans(p, p1, r, h, h);
  }

  lemma LowersBelow(p: Pass, r: Lowered<Pass>, labels: seq<Label>, h: nat, h': nat, height: nat)
    requires Lowers(p, r, labels, h', height) && h <= h'
    ensures Lowers(p, r, labels, h, height)
  {
    hide PassOk, Onward;
    if r.Ok? {
      OnwardBelow(p, r.value, h, h');
    }
  }

  lemma PlainFits(op: Op, locals: nat, base: nat, height: nat)
    requires base <= height && Valid(op, locals, height - base)
    ensures Valid(op, locals, height)
  {
  }

  ghost predicate Headed(p: Pass, r: Lowered<Pass>, labels: seq<Label>, params: nat) {
    r.Ok? ==>
      && params <= |p.sim.stack|
      && PassOk(r.value, labels) && Onward(p, r.value, |p.sim.stack| - params) && |r.value.sim.stack| == |p.sim.stack|
      && r.value.out != [] && |r.value.sim.origin| == |p.sim.origin|
  }

  /** A loop's borrows are rescued once, ahead of it; branches come back to the instruction emitted last. */
  ghost function LoopHead(p: Pass, labels: seq<Label>, params: nat): Lowered<Pass>
    requires PassOk(p, labels) && Innermost(labels).base + params <= |p.sim.stack|
  {
    match SpillLive(p, labels)
    case FrameTooLarge(what) => FrameTooLarge(what)
    case Ok(p0) =>
      match MaterializeP(p0, labels, params)
      case FrameTooLarge(what) => FrameTooLarge(what)
      case Ok(p1) => Ok(Pass(p1.sim, p1.out + [Mark]))
  }

  lemma LoopHeadOk(p: Pass, labels: seq<Label>, params: nat)
    requires PassOk(p, labels) && Innermost(labels).base + params <= |p.sim.stack|
    ensures Headed(p, LoopHead(p, labels, params), labels, params)
  {
    hide PassOk, Onward, Headed, SpillLive, MaterializeP;
    if LoopHead(p, labels, params).Ok? {
      var p0 := SpillLive(p, labels).value;
      HeadOk(p, p0, MaterializeP(p0, labels, params).value, labels, params);
    } else {
      NotHeaded(p, LoopHead(p, labels, params), labels, params);
    }
  }

  lemma NotHeaded(p: Pass, r: Lowered<Pass>, labels: seq<Label>, params: nat)
    requires !r.Ok?
    ensures Headed(p, r, labels, params)
  {
  }

  lemma HeadOk(p: Pass, p0: Pass, p1: Pass, labels: seq<Label>, params: nat)
    requires PassOk(p1, labels) && params <= |p.sim.stack| == |p0.sim.stack| == |p1.sim.stack|
    requires Onward(p, p0, |p.sim.stack|) && Onward(p0, p1, |p.sim.stack| - params)
    ensures Headed(p, Ok(Pass(p1.sim, p1.out + [Mark])), labels, params)
  {
    hide SimOk;
    OnwardTrans(p, p0, p1, |p.sim.stack| - params, |p.sim.stack|);
  }

  ghost function LowerSeq(p: Pass, labels: seq<Label>, targets: seq<Target>, cs: seq<Ctl>): (r: Lowered<Pass>)
    requires Enters(p, labels, targets) && !HeightAfterSeq(cs, |p.sim.origin|, labels, |p.sim.stack|).Invalid?
    ensures r.Ok? ==>
      && PassOk(r.value, labels) && Onward(p, r.value, Innermost(labels).base)
      && |r.value.sim.stack| == LeftAfter(HeightAfterSeq(cs, |p.sim.origin|, labels, |p.sim.stack|), labels)
    decreases cs, 0
  {
    hide SimOk;
    if cs == [] then Ok(p)
    else if cs[0].Br? then
      LowerBrOk(p, labels, targets, cs[0].depth);
      LowerBr(p, labels, targets, cs[0].depth)
    else if cs[0].Unreachable? then LowerStop(p, labels)
    else
      match LowerOne(p, labels, targets, cs[0])
      case FrameTooLarge(what) => FrameTooLarge(what)
      case Ok(p1) =>
        match LowerSeq(p1, labels, targets, cs[1..])
        case FrameTooLarge(what) => FrameTooLarge(what)
        case Ok(r) =>
          OnwardTrans(p, p1, r, Innermost(labels).base, Innermost(labels).base);
          Ok(r)
  }

  ghost function LowerStop(p: Pass, labels: seq<Label>): (r: Lowered<Pass>)
    requires PassOk(p, labels)
    ensures Lowers(p, r, labels, Innermost(labels).base, Innermost(labels).base + Innermost(labels).results)
  {
    hide SimOk;
    match ResetTo(p.sim, Innermost(labels))
    case FrameTooLarge(what) => FrameTooLarge(what)
    case Ok(s) =>
      StepOk(p, s, [Stop], labels);
      Ok(Pass(s, p.out + [Stop]))
  }
}
