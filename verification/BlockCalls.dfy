/**
 Lowered structured code calls what the source calls: every call the pass emits names a
 function of the program, with that function's counts of parameters and results.
 */
module BlockCalls {
  import opened StackCode
  import opened BlockCode
  import opened RegisterLowering
  import opened LoweredBody
  import opened LoweringCorrect
  import opened LoweredPrograms
  import opened BlockLowering

  /** A function whose body has structured control. */
  type StructuredFunc = Function<seq<Ctl>>

  predicate SeqCallsOk(funcs: seq<StructuredFunc>, cs: seq<Ctl>)
    decreases cs
  {
    cs == [] || (OneCallsOk(funcs, cs[0]) && SeqCallsOk(funcs, cs[1..]))
  }

  predicate OneCallsOk(funcs: seq<StructuredFunc>, c: Ctl)
    decreases c
  {
    match c
    case Plain(op) => CallsOk(funcs, op)
    case Block(_, _, body) => SeqCallsOk(funcs, body)
    case Loop(_, _, body) => SeqCallsOk(funcs, body)
    case _ => true
  }

  predicate EmittedOk(funcs: seq<StructuredFunc>, op: CtlOp) {
    op.Do? && op.op.CallLocal? ==>
      && op.op.callee < |funcs| && op.op.params == funcs[op.op.callee].params
      && op.op.results == funcs[op.op.callee].results
  }

  ghost predicate OutCallsOk(funcs: seq<StructuredFunc>, out: seq<CtlOp>) {
    forall j :: 0 <= j < |out| ==> EmittedOk(funcs, out[j])
  }

  lemma AbsorbCallsOk(funcs: seq<StructuredFunc>, out: seq<CtlOp>, s: Sim)
    requires OutCallsOk(funcs, out) && SimCallsOk(funcs, s)
    ensures OutCallsOk(funcs, Absorb(out, s).out)
  {
  }

  lemma PlainCallsOk(funcs: seq<StructuredFunc>, p: Pass, labels: seq<Label>, op: Op)
    requires PassOk(p, labels) && OutCallsOk(funcs, p.out) && CallsOk(funcs, op)
      && Innermost(labels).base <= |p.sim.stack|
    requires Valid(op, |p.sim.origin|, |p.sim.stack| - Innermost(labels).base)
      && Valid(op, |p.sim.origin|, |p.sim.stack|)
    requires LowerPlain(p, labels, op).Ok?
    ensures OutCallsOk(funcs, LowerPlain(p, labels, op).value.out)
  {
    hide SimOk, LowerOp, Names, OutCallsOk, CallsOk, Absorb;
    OpCallsOk(funcs, p.sim, op);
    AbsorbCallsOk(funcs, p.out, LowerOp(p.sim, op).value);
  }

  lemma MaterializePCallsOk(funcs: seq<StructuredFunc>, p: Pass, labels: seq<Label>, n: nat)
    requires PassOk(p, labels) && OutCallsOk(funcs, p.out) && Innermost(labels).base + n <= |p.sim.stack|
    requires MaterializeP(p, labels, n).Ok?
    ensures OutCallsOk(funcs, MaterializeP(p, labels, n).value.out)
  {
    hide SimOk, Materialize, Names, OutCallsOk, Onward, Absorb;
    if n != 0 {
      MaterializeKeepsOk(p.sim, n);
      AbsorbCallsOk(funcs, p.out, Staged(p.sim, n));
    }
  }

  lemma {:induction false} SpillFromCallsOk(funcs: seq<StructuredFunc>, s: Sim, i: nat)
    requires SimOk(s) && SimCallsOk(funcs, s) && i <= |s.origin| && SpillFrom(s, i).Ok?
    ensures SimCallsOk(funcs, SpillFrom(s, i).value)
    decreases |s.origin| - i
  {
    hide SimOk, SimCallsOk, Rescue, Evolves, Grows;
    if i != |s.origin| {
      RescueDefined(s, i);
      RescueCallsOk(funcs, s, i);
      RescueEvolves(s, i);
      SpillFromCallsOk(funcs, Rescue(s, i).value, i + 1);
    }
  }

  lemma RescueDefined(s: Sim, i: nat)
    requires SimOk(s) && i < |s.origin|
    ensures s.origin[i].Some? ==> s.origin[i].value < |s.arena|
  {
  }

  lemma SpillLiveCallsOk(funcs: seq<StructuredFunc>, p: Pass, labels: seq<Label>)
    requires PassOk(p, labels) && OutCallsOk(funcs, p.out) && SpillLive(p, labels).Ok?
    ensures OutCallsOk(funcs, SpillLive(p, labels).value.out)
  {
    hide SimOk, SpillFrom, Onward, Names, OutCallsOk, Absorb;
    SpillFromCallsOk(funcs, p.sim, 0);
    AbsorbCallsOk(funcs, p.out, SpillFrom(p.sim, 0).value);
  }

  lemma BrCallsOk(funcs: seq<StructuredFunc>, p: Pass, labels: seq<Label>, targets: seq<Target>, d: nat)
    requires PassOk(p, labels) && TargetsOk(labels, targets) && BranchValid(labels, d, |p.sim.stack|)
    requires OutCallsOk(funcs, p.out) && LowerBr(p, labels, targets, d).Ok?
    ensures OutCallsOk(funcs, LowerBr(p, labels, targets, d).value.out)
  {
    hide SimOk, Widen, ResetTo, Lowers, PassOk, LabelRegister, Inputs;
    BranchReady(p, labels, d);
  }

  lemma BrIfCallsOk(funcs: seq<StructuredFunc>, p: Pass, labels: seq<Label>, targets: seq<Target>, d: nat)
    requires PassOk(p, labels) && TargetsOk(labels, targets) && OutCallsOk(funcs, p.out)
    requires 1 <= |p.sim.stack| && BranchValid(labels, d, |p.sim.stack| - 1) && LowerBrIf(p, labels, targets, d).Ok?
    ensures OutCallsOk(funcs, LowerBrIf(p, labels, targets, d).value.out)
  {
    hide SimOk, SpillLive, BranchIf, Onward, Names, OutCallsOk;
    SpillLiveCallsOk(funcs, p, labels);
    BranchFits(labels, d, |p.sim.stack| - 1);
    BranchIfCallsOk(funcs, SpillLive(p, labels).value, TargetAt(targets, d), LabelAt(labels, d));
  }

  lemma BranchIfCallsOk(funcs: seq<StructuredFunc>, p: Pass, target: Target, lab: Label)
    requires SimOk(p.sim) && OutCallsOk(funcs, p.out) && lab.base + lab.arity + 1 <= |p.sim.stack|
    requires BranchIf(p, target, lab).Ok?
    ensures OutCallsOk(funcs, BranchIf(p, target, lab).value.out)
  {
    hide SimOk, Widen, Inputs;
  }

  lemma PatchedCallsOk(funcs: seq<StructuredFunc>, out: seq<CtlOp>, level: nat, index: nat)
    requires OutCallsOk(funcs, out)
    ensures OutCallsOk(funcs, PatchAll(out, level, index) + [Mark])
  {
    var r := PatchAll(out, level, index) + [Mark];
    forall j | 0 <= j < |r| ensures EmittedOk(funcs, r[j]) {
      if j < |out| {
        assert EmittedOk(funcs, out[j]) && r[j] == Patch(out[j], level, index);
      }
    }
  }

  lemma {:induction false} InsideCallsOk(
    funcs: seq<StructuredFunc>, p: Pass, labels: seq<Label>, targets: seq<Target>, lab: Label, target: Target,
    body: seq<Ctl>)
    requires Enters(p, labels, targets) && (target.ToLabel? ==> target.level == |labels|)
    requires OutCallsOk(funcs, p.out) && SeqCallsOk(funcs, body) && Innermost(labels).base <= lab.base <= |p.sim.stack|
    requires Closed(HeightAfterSeq(body, |p.sim.origin|, labels + [lab], |p.sim.stack|), lab.base + lab.results).Live?
    requires LowerInside(p, labels, targets, lab, target, body).Ok?
    ensures OutCallsOk(funcs, LowerInside(p, labels, targets, lab, target, body).value.out)
    decreases body, 1
  {
    hide SimOk, LowerSeq, MaterializeP, Onward, Lowers, Names, OutCallsOk;
    OpenOk(p, labels, lab);
    EverySeqCallsOk(funcs, p, labels + [lab], targets + [target], body);
    var p1 := LowerSeq(p, labels + [lab], targets + [target], body).value;
    MaterializePCallsOk(funcs, p1, labels + [lab], lab.results);
    var p2 := MaterializeP(p1, labels + [lab], lab.results).value;
    PatchedCallsOk(funcs, p2.out, |labels|, |p2.out|);
  }

  lemma {:induction false} OneConstructCallsOk(
    funcs: seq<StructuredFunc>, p: Pass, labels: seq<Label>, targets: seq<Target>, c: Ctl)
    requires Enters(p, labels, targets) && HeightAfterOne(c, |p.sim.origin|, labels, |p.sim.stack|).Live?
    requires OutCallsOk(funcs, p.out) && OneCallsOk(funcs, c) && LowerOne(p, labels, targets, c).Ok?
    ensures OutCallsOk(funcs, LowerOne(p, labels, targets, c).value.out)
    decreases c, 2
  {
    hide SimOk, OutCallsOk, LowerPlain, LowerBrIf, LowerInside, MaterializeP, LoopHead, Onward, Lowers, HeightAfterSeq,
         Names,
         CallsOk;
    match c
    case Plain(op) =>
      PlainFits(op, |p.sim.origin|, Innermost(labels).base, |p.sim.stack|);
      PlainCallsOk(funcs, p, labels, op);
    case BrIf(d) => BrIfCallsOk(funcs, p, labels, targets, d);
    case Block(params, results, body) =>
      BlockCallsOk(funcs, p, labels, targets, params, Label(|p.sim.stack| - params, results, results), body);
    case Loop(params, results, body) =>
      LoopCallsOk(funcs, p, labels, targets, params, Label(|p.sim.stack| - params, params, results), body);
  }

  lemma {:induction false} BlockCallsOk(
    funcs: seq<StructuredFunc>, p: Pass, labels: seq<Label>, targets: seq<Target>, params: nat, lab: Label,
    body: seq<Ctl>)
    requires Enters(p, labels, targets) && Innermost(labels).base <= lab.base == |p.sim.stack| - params
    requires OutCallsOk(funcs, p.out) && SeqCallsOk(funcs, body)
    requires Closed(HeightAfterSeq(body, |p.sim.origin|, labels + [lab], |p.sim.stack|), lab.base + lab.results).Live?
    requires LowerBlock(p, labels, targets, params, lab, body).Ok?
    ensures OutCallsOk(funcs, LowerBlock(p, labels, targets, params, lab, body).value.out)
    decreases body, 2
  {
    hide PassOk, OutCallsOk, LowerInside, MaterializeP, Onward, Lowers, HeightAfterSeq;
    MaterializePCallsOk(funcs, p, labels, params);
    var p1 := MaterializeP(p, labels, params).value;
    BodyEnters(p, p1, labels, targets, lab, body);
    InsideCallsOk(funcs, p1, labels, targets, lab, ToLabel(|labels|), body);
  }

  lemma {:induction false} LoopCallsOk(
    funcs: seq<StructuredFunc>, p: Pass, labels: seq<Label>, targets: seq<Target>, params: nat, lab: Label,
    body: seq<Ctl>)
    requires Enters(p, labels, targets) && Innermost(labels).base <= lab.base == |p.sim.stack| - params
    requires OutCallsOk(funcs, p.out) && SeqCallsOk(funcs, body)
    requires Closed(HeightAfterSeq(body, |p.sim.origin|, labels + [lab], |p.sim.stack|), lab.base + lab.results).Live?
    requires LowerLoop(p, labels, targets, params, lab, body).Ok?
    ensures OutCallsOk(funcs, LowerLoop(p, labels, targets, params, lab, body).value.out)
    decreases body, 2
  {
    hide PassOk, OutCallsOk, LowerInside, LoopHead, Onward, Lowers, HeightAfterSeq;
    LoopHeadOk(p, labels, params);
    HeadCallsOk(funcs, p, labels, params);
    var p1 := LoopHead(p, labels, params).value;
    HeadOnward(p, p1, labels, params);
    BodyEnters(p, p1, labels, targets, lab, body);
    InsideCallsOk(funcs, p1, labels, targets, lab, ToIndex(|p1.out| - 1), body);
  }

  lemma HeadCallsOk(funcs: seq<StructuredFunc>, p: Pass, labels: seq<Label>, params: nat)
    requires PassOk(p, labels) && Innermost(labels).base + params <= |p.sim.stack| && OutCallsOk(funcs, p.out)
    requires LoopHead(p, labels, params).Ok?
    ensures OutCallsOk(funcs, LoopHead(p, labels, params).value.out)
  {
    hide PassOk, SpillLive, MaterializeP, Onward;
    SpillLiveCallsOk(funcs, p, labels);
    MaterializePCallsOk(funcs, SpillLive(p, labels).value, labels, params);
  }

  /** Every sequence, in every context of open labels. */
  lemma {:induction false} EverySeqCallsOk(
    funcs: seq<StructuredFunc>, p: Pass, labels: seq<Label>, targets: seq<Target>, cs: seq<Ctl>)
    requires Enters(p, labels, targets) && !HeightAfterSeq(cs, |p.sim.origin|, labels, |p.sim.stack|).Invalid?
    requires OutCallsOk(funcs, p.out) && SeqCallsOk(funcs, cs) && LowerSeq(p, labels, targets, cs).Ok?
    ensures OutCallsOk(funcs, LowerSeq(p, labels, targets, cs).value.out)
    decreases cs, 0
  {
    hide SimOk, OutCallsOk, LowerBr, LowerStop, LowerOne, HeightAfterOne, Lowers, Evolves, Names, OneCallsOk;
    if cs == [] {
    } else if cs[0].Br? {
      BrCallsOk(funcs, p, labels, targets, cs[0].depth);
    } else if cs[0].Unreachable? {
      StopCallsOk(funcs, p, labels);
    } else {
      OneConstructCallsOk(funcs, p, labels, targets, cs[0]);
      EverySeqCallsOk(funcs, LowerOne(p, labels, targets, cs[0]).value, labels, targets, cs[1..]);
    }
  }

  lemma StopCallsOk(funcs: seq<StructuredFunc>, p: Pass, labels: seq<Label>)
    requires PassOk(p, labels) && OutCallsOk(funcs, p.out) && LowerStop(p, labels).Ok?
    ensures OutCallsOk(funcs, LowerStop(p, labels).value.out)
  {
    hide SimOk, ResetTo, Names, Lowers;
  }
}
