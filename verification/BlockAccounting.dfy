/**
 The accounts of the spill region through structured control: branches, the resets after them,
 and the spills hoisted ahead of loops and conditional branches lose no slot either.
 */
module BlockAccounting {
  import opened StackCode
  import opened BlockCode
  import opened RegisterLowering
  import opened LoweredBody
  import opened LoweringCorrect
  import opened BlockLowering
  import opened BlockBody
  import opened SpillAccounting

  lemma AbsorbAccounted(out: seq<CtlOp>, s: Sim)
    requires Accounted(s)
    ensures Accounted(Absorb(out, s).sim)
  {
    hide Accounted;
    SameAccounts(s, Absorb(out, s).sim);
  }

  lemma PlainAccounted(p: Pass, labels: seq<Label>, op: Op)
    requires PassOk(p, labels) && Accounted(p.sim) && Innermost(labels).base <= |p.sim.stack|
    requires Valid(op, |p.sim.origin|, |p.sim.stack| - Innermost(labels).base)
      && Valid(op, |p.sim.origin|, |p.sim.stack|)
    requires LowerPlain(p, labels, op).Ok?
    ensures Accounted(LowerPlain(p, labels, op).value.sim)
  {
    hide Accounted, SimOk, LowerOp, Names;
    OpAccounted(p.sim, op);
    AbsorbAccounted(p.out, LowerOp(p.sim, op).value);
  }

  lemma MaterializePAccounted(p: Pass, labels: seq<Label>, n: nat)
    requires PassOk(p, labels) && Accounted(p.sim) && Innermost(labels).base + n <= |p.sim.stack|
    requires MaterializeP(p, labels, n).Ok?
    ensures Accounted(MaterializeP(p, labels, n).value.sim)
  {
    hide Accounted, SimOk, Staged, Materialize, Onward, Names;
    if n != 0 {
      StagedAccounted(p.sim, n);
      AbsorbAccounted(p.out, Staged(p.sim, n));
    }
  }

  lemma {:induction false} SpillFromAccounted(s: Sim, i: nat)
    requires SimOk(s) && Accounted(s) && i <= |s.origin| && SpillFrom(s, i).Ok?
    ensures Accounted(SpillFrom(s, i).value)
    decreases |s.origin| - i
  {
    hide SimOk, Accounted, Rescue, Evolves, Grows;
    if i != |s.origin| {
      EntriesOfOrigins(s, i);
      RescueAccounted(s, i);
      RescueEvolves(s, i);
      SpillFromAccounted(Rescue(s, i).value, i + 1);
    }
  }

  lemma EntriesOfOrigins(s: Sim, i: nat)
    requires SimOk(s) && i < |s.origin|
    ensures s.origin[i].Some? ==> s.origin[i].value < |s.arena|
  {
  }

  lemma SpillLiveAccounted(p: Pass, labels: seq<Label>)
    requires PassOk(p, labels) && Accounted(p.sim) && SpillLive(p, labels).Ok?
    ensures Accounted(SpillLive(p, labels).value.sim)
  {
    hide SimOk, Accounted, SpillFrom, Onward, Names;
    SpillFromAccounted(p.sim, 0);
    AbsorbAccounted(p.out, SpillFrom(p.sim, 0).value);
  }

  lemma ResetAccounted(s: Sim, lab: Label)
    requires SimOk(s) && Accounted(s) && lab.base <= |s.stack| && ResetTo(s, lab).Ok?
    ensures Accounted(ResetTo(s, lab).value)
  {
    hide SimOk, Accounted, PushRegs, ResetAs;
    var s1 := Pops(s, |s.stack| - lab.base);
    PopsAccounted(s, |s.stack| - lab.base);
    PushRegsKeepsOk(s1, lab.results);
    SameAccounts(s1, ResetTo(s, lab).value);
  }

  lemma WidenAccounted(s: Sim, peak: nat)
    requires Accounted(s) && Widen(s, peak).Ok?
    ensures Accounted(Widen(s, peak).value)
  {
    hide Accounted;
    SameAccounts(s, Widen(s, peak).value);
  }

  lemma BrAccounted(p: Pass, labels: seq<Label>, targets: seq<Target>, d: nat)
    requires PassOk(p, labels) && TargetsOk(labels, targets) && BranchValid(labels, d, |p.sim.stack|)
      && Accounted(p.sim)
    requires LowerBr(p, labels, targets, d).Ok?
    ensures Accounted(LowerBr(p, labels, targets, d).value.sim)
  {
    hide SimOk, Accounted, Widen, ResetTo, Carried, Lowers, PassOk;
    BranchReady(p, labels, d);
    var peak := LabelRegister(p.sim, LabelAt(labels, d).base) + LabelAt(labels, d).arity;
    WidenOk(p.sim, peak);
    WidenAccounted(p.sim, peak);
    ResetAccounted(Widen(p.sim, peak).value, Innermost(labels));
  }

  lemma BrIfAccounted(p: Pass, labels: seq<Label>, targets: seq<Target>, d: nat)
    requires PassOk(p, labels) && TargetsOk(labels, targets) && Accounted(p.sim)
    requires 1 <= |p.sim.stack| && BranchValid(labels, d, |p.sim.stack| - 1) && LowerBrIf(p, labels, targets, d).Ok?
    ensures Accounted(LowerBrIf(p, labels, targets, d).value.sim)
  {
    hide SimOk, Accounted, SpillLive, BranchIf, Onward, Names;
    SpillLiveAccounted(p, labels);
    BranchFits(labels, d, |p.sim.stack| - 1);
    BranchIfAccounted(SpillLive(p, labels).value, TargetAt(targets, d), LabelAt(labels, d));
  }

  lemma BranchIfAccounted(p: Pass, target: Target, lab: Label)
    requires SimOk(p.sim) && Accounted(p.sim) && lab.base + lab.arity + 1 <= |p.sim.stack|
      && BranchIf(p, target, lab).Ok?
    ensures Accounted(BranchIf(p, target, lab).value.sim)
  {
    hide SimOk, Accounted, Widen;
    PopsAccounted(p.sim, 1);
    var s := Pops(p.sim, 1);
    WidenAccounted(s, LabelRegister(s, lab.base) + lab.arity);
  }

  lemma StopAccounted(p: Pass, labels: seq<Label>)
    requires PassOk(p, labels) && Accounted(p.sim) && LowerStop(p, labels).Ok?
    ensures Accounted(LowerStop(p, labels).value.sim)
  {
    hide SimOk, Accounted, ResetTo, Names, Lowers;
    ResetAccounted(p.sim, Innermost(labels));
  }

  /** A label's body, from its opening to its end. */
  lemma {:induction false} InsideAccounted(
    p: Pass, labels: seq<Label>, targets: seq<Target>, lab: Label, target: Target, body: seq<Ctl>)
    requires Enters(p, labels, targets) && (target.ToLabel? ==> target.level == |labels|) && Accounted(p.sim)
    requires Innermost(labels).base <= lab.base <= |p.sim.stack|
    requires Closed(HeightAfterSeq(body, |p.sim.origin|, labels + [lab], |p.sim.stack|), lab.base + lab.results).Live?
    requires LowerInside(p, labels, targets, lab, target, body).Ok?
    ensures Accounted(LowerInside(p, labels, targets, lab, target, body).value.sim)
    decreases body, 1
  {
    hide SimOk, Accounted, LowerSeq, MaterializeP, Onward, Lowers, Names;
    OpenOk(p, labels, lab);
    SeqAccounted(p, labels + [lab], targets + [target], body);
    var p1 := LowerSeq(p, labels + [lab], targets + [target], body).value;
    MaterializePAccounted(p1, labels + [lab], lab.results);
  }

  lemma {:induction false} OneAccounted(p: Pass, labels: seq<Label>, targets: seq<Target>, c: Ctl)
    requires Enters(p, labels, targets) && HeightAfterOne(c, |p.sim.origin|, labels, |p.sim.stack|).Live?
      && Accounted(p.sim)
    requires LowerOne(p, labels, targets, c).Ok?
    ensures Accounted(LowerOne(p, labels, targets, c).value.sim)
    decreases c, 2
  {
    hide SimOk, Accounted, LowerPlain, LowerBrIf, LowerInside, MaterializeP, LoopHead, Onward, Lowers, HeightAfterSeq,
         Names;
    match c
    case Plain(op) =>
      PlainFits(op, |p.sim.origin|, Innermost(labels).base, |p.sim.stack|);
      PlainAccounted(p, labels, op);
    case BrIf(d) => BrIfAccounted(p, labels, targets, d);
    case Block(params, results, body) =>
      BlockAccounted(p, labels, targets, params, Label(|p.sim.stack| - params, results, results), body);
    case Loop(params, results, body) =>
      LoopAccounted(p, labels, targets, params, Label(|p.sim.stack| - params, params, results), body);
  }

  lemma {:induction false} BlockAccounted(
    p: Pass, labels: seq<Label>, targets: seq<Target>, params: nat, lab: Label, body: seq<Ctl>)
    requires Enters(p, labels, targets) && Innermost(labels).base <= lab.base == |p.sim.stack| - params
      && Accounted(p.sim)
    requires Closed(HeightAfterSeq(body, |p.sim.origin|, labels + [lab], |p.sim.stack|), lab.base + lab.results).Live?
    requires LowerBlock(p, labels, targets, params, lab, body).Ok?
    ensures Accounted(LowerBlock(p, labels, targets, params, lab, body).value.sim)
    decreases body, 2
  {
    hide PassOk, Accounted, LowerInside, MaterializeP, Onward, Lowers, HeightAfterSeq;
    MaterializePAccounted(p, labels, params);
    var p1 := MaterializeP(p, labels, params).value;
    BodyEnters(p, p1, labels, targets, lab, body);
    InsideAccounted(p1, labels, targets, lab, ToLabel(|labels|), body);
  }

  lemma {:induction false} LoopAccounted(
    p: Pass, labels: seq<Label>, targets: seq<Target>, params: nat, lab: Label, body: seq<Ctl>)
    requires Enters(p, labels, targets) && Innermost(labels).base <= lab.base == |p.sim.stack| - params
      && Accounted(p.sim)
    requires Closed(HeightAfterSeq(body, |p.sim.origin|, labels + [lab], |p.sim.stack|), lab.base + lab.results).Live?
    requires LowerLoop(p, labels, targets, params, lab, body).Ok?
    ensures Accounted(LowerLoop(p, labels, targets, params, lab, body).value.sim)
    decreases body, 2
  {
    hide PassOk, Accounted, LowerInside, LoopHead, Onward, Lowers, HeightAfterSeq;
    LoopHeadOk(p, labels, params);
    HeadAccounted(p, labels, params);
    var p1 := LoopHead(p, labels, params).value;
    HeadOnward(p, p1, labels, params);
    BodyEnters(p, p1, labels, targets, lab, body);
    InsideAccounted(p1, labels, targets, lab, ToIndex(|p1.out| - 1), body);
  }

  lemma HeadAccounted(p: Pass, labels: seq<Label>, params: nat)
    requires PassOk(p, labels) && Innermost(labels).base + params <= |p.sim.stack| && Accounted(p.sim)
    requires LoopHead(p, labels, params).Ok?
    ensures Accounted(LoopHead(p, labels, params).value.sim)
  {
    hide PassOk, Accounted, SpillLive, MaterializeP, Onward;
    SpillLiveAccounted(p, labels);
    MaterializePAccounted(SpillLive(p, labels).value, labels, params);
  }

  /** Every sequence, in every context of open labels, keeps the accounts. */
  lemma {:induction false} SeqAccounted(p: Pass, labels: seq<Label>, targets: seq<Target>, cs: seq<Ctl>)
    requires Enters(p, labels, targets) && !HeightAfterSeq(cs, |p.sim.origin|, labels, |p.sim.stack|).Invalid?
    requires Accounted(p.sim) && LowerSeq(p, labels, targets, cs).Ok?
    ensures Accounted(LowerSeq(p, labels, targets, cs).value.sim)
    decreases cs, 0
  {
    hide SimOk, Accounted, LowerBr, LowerStop, LowerOne, HeightAfterOne, Lowers, Evolves, Names;
    if cs == [] {
    } else if cs[0].Br? {
      BrAccounted(p, labels, targets, cs[0].depth);
    } else if cs[0].Unreachable? {
      StopAccounted(p, labels);
    } else {
      OneAccounted(p, labels, targets, cs[0]);
      SeqAccounted(LowerOne(p, labels, targets, cs[0]).value, labels, targets, cs[1..]);
    }
  }

  /**
   Wherever structured code ends, each slot of the spill region is either free or read by an
   operand, never both; so it grows only when all of it is read at once.
   */
  lemma StructuredSpillsNeverLeak(locals: nat, cs: seq<Ctl>, results: nat)
    requires BodyValid(cs, locals, results) && BodyPasses(cs, locals, results).Ok?
    ensures ExactAccounts(BodyPasses(cs, locals, results).value.0.sim)
  {
    hide SimOk, Accounted, LowerSeq, MaterializeP, HeightAfterSeq, ExactAccounts, Lowers, Onward;
    StartAccounted(locals);
    StartReady(locals, results);
    SeqAccounted(StartPass(locals), FuncLabels(results), [ToLabel(0)], cs);
    AccountsAreExact(BodyPasses(cs, locals, results).value.0.sim);
  }
}
