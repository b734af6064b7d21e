/**
 The simulation for structured code: whole sequences, blocks and loops.
 */
module BlockRuns {
  import opened Values
  import opened RegisterLayout
  import opened StackCode
  import opened BlockCode
  import opened RegisterLowering
  import opened LoweredBody
  import opened LoweringCorrect
  import opened BlockLowering
  import opened BlockMachine
  import opened BlockCorrect

  // ------------------------------------------------------------------ the condition

  /** A label's end: the instruction branches go to, and the pass's state there. */
  ghost function EndOf(p: Pass, labels: seq<Label>, targets: seq<Target>, lab: Label, target: Target,
    body: seq<Ctl>): Dest
    requires Inside(p, labels, targets, lab, target, body)
  {
    OpenOk(p, labels, lab);
    match LowerSeq(p, labels + [lab], targets + [target], body)
    case FrameTooLarge(_) => Dest(0, p.sim)
    case Ok(p1) =>
      match MaterializeP(p1, labels + [lab], lab.results)
      case FrameTooLarge(_) => Dest(0, p.sim)
      case Ok(p2) => Dest(|p2.out|, p2.sim)
  }

  ghost predicate Inside(p: Pass, labels: seq<Label>, targets: seq<Target>, lab: Label, target: Target,
    body: seq<Ctl>) {
    && Enters(p, labels, targets) && (target.ToLabel? ==> target.level == |labels|)
    && Innermost(labels).base <= lab.base <= |p.sim.stack|
    && Closed(HeightAfterSeq(body, |p.sim.origin|, labels + [lab], |p.sim.stack|), lab.base + lab.results).Live?
  }

  /**
   At every branch, the operands below its label are where the label's destination looks for
   them; unless `every`, the branches that may not be so are the only ones considered: an
   unconditional branch past its own block to the end of another, with no loop between.
   */
  ghost predicate StableSeq(p: Pass, labels: seq<Label>, targets: seq<Target>, dests: seq<Dest>, cs: seq<Ctl>,
    every: bool)
    requires Enters(p, labels, targets) && |dests| == |labels|
    requires !HeightAfterSeq(cs, |p.sim.origin|, labels, |p.sim.stack|).Invalid?
    decreases cs, 0
  {
    if cs == [] || cs[0].Unreachable? then true
    else if cs[0].Br? then
      every || Outward(targets, cs[0].depth) ==>
        StableAt(p.sim, DestAt(dests, cs[0].depth).sim, LabelAt(labels, cs[0].depth).base)
    else
      && StableOne(p, labels, targets, dests, cs[0], every)
      && match LowerOne(p, labels, targets, cs[0])
         case FrameTooLarge(_) => true
         case Ok(p1) => StableSeq(p1, labels, targets, dests, cs[1..], every)
  }

  /** A branch that leaves its own block for the end of another, with no loop between. */
  predicate Outward(targets: seq<Target>, d: nat)
    requires d < |targets|
  {
    d != 0 && forall j :: 0 <= j <= d ==> TargetAt(targets, j).ToLabel?
  }

  ghost predicate StableOne(p: Pass, labels: seq<Label>, targets: seq<Target>, dests: seq<Dest>, c: Ctl, every: bool)
    requires Enters(p, labels, targets) && |dests| == |labels|
    requires HeightAfterOne(c, |p.sim.origin|, labels, |p.sim.stack|).Live?
    decreases c, 0
  {
    match c
    case BrIf(d) => every ==> StableBrIf(p, labels, dests, d)
    case Block(params, results, body) =>
      StableBlock(p, labels, targets, dests, params, Label(|p.sim.stack| - params, results, results), body, every)
    case Loop(params, results, body) =>
      StableLoop(p, labels, targets, dests, params, Label(|p.sim.stack| - params, params, results), body, every)
    case _ => true
  }

  ghost predicate StableBrIf(p: Pass, labels: seq<Label>, dests: seq<Dest>, d: nat)
    requires PassOk(p, labels) && d < |labels| == |dests| && p.sim.stack != []
  {
    SpillLive(p, labels).Ok? ==>
      StableAt(Pops(SpillLive(p, labels).value.sim, 1), DestAt(dests, d).sim, LabelAt(labels, d).base)
  }

  ghost predicate StableBlock(
    p: Pass, labels: seq<Label>, targets: seq<Target>, dests: seq<Dest>, params: nat, lab: Label, body: seq<Ctl>,
    every: bool)
    requires Enters(p, labels, targets) && |dests| == |labels|
      && Innermost(labels).base <= lab.base == |p.sim.stack| - params
    requires Closed(HeightAfterSeq(body, |p.sim.origin|, labels + [lab], |p.sim.stack|), lab.base + lab.results).Live?
    decreases body, 2
  {
    match MaterializeP(p, labels, params)
    case FrameTooLarge(_) => true
    case Ok(p1) =>
      StableInside(p1, labels, targets, dests, lab, ToLabel(|labels|), body,
                   EndOf(p1, labels, targets, lab, ToLabel(|labels|), body), every)
  }

  ghost predicate StableLoop(
    p: Pass, labels: seq<Label>, targets: seq<Target>, dests: seq<Dest>, params: nat, lab: Label, body: seq<Ctl>,
    every: bool)
    requires Enters(p, labels, targets) && |dests| == |labels|
      && Innermost(labels).base <= lab.base == |p.sim.stack| - params
    requires Closed(HeightAfterSeq(body, |p.sim.origin|, labels + [lab], |p.sim.stack|), lab.base + lab.results).Live?
    decreases body, 2
  {
    LoopHeadOk(p, labels, params);
    match LoopHead(p, labels, params)
    case FrameTooLarge(_) => true
    case Ok(p1) =>
      StableInside(p1, labels, targets, dests, lab, ToIndex(|p1.out| - 1), body, Dest(|p1.out| - 1, p1.sim), every)
  }

  ghost predicate StableInside(
    p: Pass, labels: seq<Label>, targets: seq<Target>, dests: seq<Dest>, lab: Label, target: Target, body: seq<Ctl>,
    dest: Dest,
    every: bool)
    requires Inside(p, labels, targets, lab, target, body) && |dests| == |labels|
    decreases body, 1
  {
    OpenOk(p, labels, lab);
    StableSeq(p, labels + [lab], targets + [target], dests + [dest], body, every)
  }

  // ------------------------------------------------------------------ how runs compose

  /** The open labels, as a run needs them. */
  ghost predicate LabelsReady(labels: seq<Label>, targets: seq<Target>, env: seq<nat>, dests: seq<Dest>, l: RegLayout) {
    && |labels| == |targets| == |env| == |dests| && TargetsOk(labels, targets)
    && forall k :: 0 <= k < |labels| ==> ResolveTarget(env, targets[k]) == dests[k].index && DestOk(dests[k],
       labels[k], l)
  }

  /**
   Where a run of lowered code, `size` instructions long, stands when the stack machine's run has
   gone as `f` says.  While the stack machine goes on, so does the lowered code: it has not ended.
   */
  ghost predicate Arrives<W>(
    f: Flow<W>, live: bool, r: Pass, labels: seq<Label>, dests: seq<Dest>, l: RegLayout, b: nat, regs: seq<Value>,
    size: nat, fuel: nat, n: nat, pt: Point<W>)
    requires |labels| == |dests|
  {
    match f
    case Fall(st) => live && Reaches(pt, |r.out|, r.sim, l, b, st, regs)
    case Jump(d, st) =>
      && d < |labels| && LabelAt(labels, d).base + LabelAt(labels, d).arity <= |st.stack|
      && Reaches(pt, DestAt(dests, d).index, DestAt(dests, d).sim, l, b,
                 Unwind(st, LabelAt(labels, d).base, LabelAt(labels, d).arity), regs)
    case Stopped(w) => pt == Halted(w)
    case OutOfFuel => pt.At? && pt.pc < size && fuel <= n
  }

  lemma ReachesFrom<W>(
    pt: Point<W>, pc: nat, sim: Sim, l: RegLayout, b: nat, st: State<W>, regs1: seq<Value>, regs: seq<Value>)
    requires Reaches(pt, pc, sim, l, b, st, regs1) && b <= |regs| <= |regs1| && regs1[..b] == regs[..b]
    ensures Reaches(pt, pc, sim, l, b, st, regs)
  {
  }

  lemma CodeSplit(code: seq<FrameCtl>, l: RegLayout, env: seq<nat>, p: Pass, p1: Pass, r: Pass)
    requires p.out <= p1.out <= r.out && CodeAt(code, l, env, r.out, |p.out|, |r.out|)
    ensures CodeAt(code, l, env, p1.out, |p.out|, |p1.out|) && CodeAt(code, l, env, r.out, |p1.out|, |r.out|)
  {
  }

  /** Inside a label, branches to it go where its end put them. */
  lemma CodeInside(code: seq<FrameCtl>, l: RegLayout, env: seq<nat>, out: seq<CtlOp>, lo: nat)
    requires var r := PatchAll(out, |env|, |out|) + [Mark]; CodeAt(code, l, env, r, lo, |r|)
    requires lo <= |out| && forall j :: 0 <= j < |out| ==> Names(out[j], |env| + 1)
    ensures CodeAt(code, l, WithEnd(env, |out|), out, lo, |out|) && code[|out|] == FMark
  {
    var r := PatchAll(out, |env|, |out|) + [Mark];
    forall j | lo <= j < |out| ensures code[j] == ResolveCtl(l, WithEnd(env, |out|), out[j]) {
      assert r[j] == Patch(out[j], |env|, |out|) && Names(out[j], |env| + 1);
    }
    assert r[|out|] == Mark;
  }

  lemma MarkStep<W>(
    fx: FileEffects<W>, l: RegLayout, b: nat, code: seq<FrameCtl>, pt: Point<W>, sim: Sim, st: State<W>,
    regs: seq<Value>)
    requires pt.At? && pt.pc < |code| && code[pt.pc] == FMark && Reaches(pt, pt.pc, sim, l, b, st, regs)
    ensures Steps(fx, l, b, code, 1, pt) == At(pt.pc + 1, pt.regs, pt.world)
    ensures Reaches(Steps(fx, l, b, code, 1, pt), pt.pc + 1, sim, l, b, st, regs)
  {
    TwoSteps(fx, l, b, code, pt);
  }

  // ------------------------------------------------------------------ the simulation

  /** The end of a label, reached by falling through: its results are forced into registers. */
  lemma EndRuns<W>(
    fx: FileEffects<W>, l: RegLayout, b: nat, code: seq<FrameCtl>, env: seq<nat>, p1: Pass, labels: seq<Label>,
    st: State<W>, regs: seq<Value>)
    returns (n: nat)
    requires PassOk(p1, labels) && |p1.sim.stack| == Innermost(labels).base + Innermost(labels).results
    requires MaterializeP(p1, labels, Innermost(labels).results).Ok?
    requires var p2 := MaterializeP(p1, labels, Innermost(labels).results).value;
      && Fits(p2.sim, l) && CodeAt(code, l, env, p2.out, |p1.out|, |p2.out|)
      && |p2.out| < |code| && code[|p2.out|] == FMark
    requires Rel(p1.sim, l, b, st.locals, st.stack, regs)
    ensures var p2 := MaterializeP(p1, labels, Innermost(labels).results).value;
      Reaches(Steps(fx, l, b, code, n, At(|p1.out|, regs, st.world)), |p2.out| + 1, p2.sim, l, b, st, regs)
  {
    hide Rel, CodeAt, SimOk, CtlStep;
    var p2 := MaterializeP(p1, labels, Innermost(labels).results).value;
    n := MaterializeRuns(fx, l, b, code, env, p1, labels, Innermost(labels).results, st, regs);
    var pt := Steps(fx, l, b, code, n, At(|p1.out|, regs, st.world));
    MarkStep(fx, l, b, code, pt, p2.sim, st, regs);
    StepsAdd(fx, l, b, code, n, 1, At(|p1.out|, regs, st.world));
    n := n + 1;
  }

  /** The instruction of one more label's end. */
  function WithEnd(env: seq<nat>, end: nat): seq<nat> {
    env + [end]
  }

  predicate MarkAt(code: seq<FrameCtl>, pc: nat) {
    pc < |code| && code[pc] == FMark
  }

  /** With the label open, the body lowers to `p1`, and its results forced into registers give `p2`. */
  ghost predicate OpenedAs(
    p: Pass, labels: seq<Label>, targets: seq<Target>, lab: Label, target: Target, body: seq<Ctl>, p1: Pass, p2: Pass)
  {
    && Enters(p, labels + [lab], targets + [target]) && Innermost(labels + [lab]) == lab
    && !HeightAfterSeq(body, |p.sim.origin|, labels + [lab], |p.sim.stack|).Invalid?
    && LowerSeq(p, labels + [lab], targets + [target], body) == Lowered<Pass>.Ok(p1)
    && PassOk(p1, labels + [lab]) && |p1.sim.stack| == lab.base + lab.results
    && MaterializeP(p1, labels + [lab], lab.results) == Lowered<Pass>.Ok(p2)
  }

  /** The facts about a label's body, lowered to `r`, that its runs need. */
  ghost predicate InsideReady(
    code: seq<FrameCtl>, l: RegLayout, p: Pass, labels: seq<Label>, targets: seq<Target>, env: seq<nat>,
    dests: seq<Dest>,
    lab: Label, target: Target, body: seq<Ctl>, dest: Dest, r: Pass)
  {
    && Inside(p, labels, targets, lab, target, body) && LabelsReady(labels, targets, env, dests, l)
    && LowerInside(p, labels, targets, lab, target, body) == Lowered<Pass>.Ok(r)
    && Fits(r.sim, l) && CodeAt(code, l, env, r.out, |p.out|, |r.out|)
    && DestOk(dest, lab, l)
    && ResolveTarget(WithEnd(env, EndOf(p, labels, targets, lab, target, body).index), target) == dest.index
    && StableInside(p, labels, targets, dests, lab, target, body, dest, true)
  }

  /** Opening a label: its body is lowered, resolved and stable with the label open. */
  lemma InsideOpens(
    code: seq<FrameCtl>, l: RegLayout, p: Pass, labels: seq<Label>, targets: seq<Target>, env: seq<nat>,
    dests: seq<Dest>,
    lab: Label, target: Target, body: seq<Ctl>, dest: Dest, r: Pass)
    returns (p1: Pass, p2: Pass)
    requires InsideReady(code, l, p, labels, targets, env, dests, lab, target, body, dest, r)
    ensures OpenedAs(p, labels, targets, lab, target, body, p1, p2)
    ensures r == Pass(p2.sim, PatchAll(p2.out, |labels|, |p2.out|) + [Mark])
    ensures MarkAt(code, |p2.out|) && Fits(p2.sim, l) && Fits(p1.sim, l)
    ensures CodeAt(code, l, WithEnd(env, |p2.out|), p1.out, |p.out|, |p1.out|)
    ensures CodeAt(code, l, WithEnd(env, |p2.out|), p2.out, |p1.out|, |p2.out|)
    ensures LabelsReady(labels + [lab], targets + [target], WithEnd(env, |p2.out|), dests + [dest], l)
  {
    hide PassOk, Grows, StableSeq, CodeAt, Fits, ResolveTarget, LowerSeq, MaterializeP, LowerInside, EndOf,
         LabelsReady, DestOk,
         StableInside, PatchAll, HeightAfterSeq;
    p1, p2 := InsideShape(p, labels, targets, lab, target, body);
    ReadyCode(labels, targets, env, dests, l);
    CodeInside(code, l, env, p2.out, |p.out|);
    CodeSplit(code, l, WithEnd(env, |p2.out|), p, p1, p2);
    CodeEnds(code, l, env, p, p2);
    FitsEarlier(p1.sim, p2.sim, l);
    LabelsReadyInside(labels, targets, env, dests, l, lab, target, dest, |p2.out|);
  }

  lemma ReadyCode(labels: seq<Label>, targets: seq<Target>, env: seq<nat>, dests: seq<Dest>, l: RegLayout)
    requires LabelsReady(labels, targets, env, dests, l)
    ensures |env| == |labels| == |dests|
  {
  }

  lemma CodeEnds(code: seq<FrameCtl>, l: RegLayout, env: seq<nat>, p: Pass, p2: Pass)
    requires var out := PatchAll(p2.out, |env|, |p2.out|) + [Mark]; CodeAt(code, l, env, out, |p.out|, |out|)
    ensures |p2.out| < |code|
  {
  }

  /** A label's body and its end, as the pass makes them. */
  lemma InsideShape(p: Pass, labels: seq<Label>, targets: seq<Target>, lab: Label, target: Target, body: seq<Ctl>)
    returns (p1: Pass, p2: Pass)
    requires Inside(p, labels, targets, lab, target, body) && LowerInside(p, labels, targets, lab, target, body).Ok?
    ensures OpenedAs(p, labels, targets, lab, target, body, p1, p2)
    ensures EndOf(p, labels, targets, lab, target, body) == Dest(|p2.out|, p2.sim)
    ensures p.out <= p1.out <= p2.out && Grows(p1.sim, p2.sim)
    ensures forall j :: 0 <= j < |p2.out| ==> Names(p2.out[j], |labels| + 1)
    ensures LowerInside(p, labels, targets, lab, target, body).value ==
            Pass(p2.sim, PatchAll(p2.out, |labels|, |p2.out|) + [Mark])
  {
    hide SimOk, Evolves;
    OpenOk(p, labels, lab);
    p1 := LowerSeq(p, labels + [lab], targets + [target], body).value;
    p2 := MaterializeP(p1, labels + [lab], lab.results).value;
  }

  lemma LabelsReadyInside(
    labels: seq<Label>, targets: seq<Target>, env: seq<nat>, dests: seq<Dest>, l: RegLayout,
    lab: Label, target: Target, dest: Dest, end: nat)
    requires LabelsReady(labels, targets, env, dests, l) && DestOk(dest, lab, l)
    requires ResolveTarget(WithEnd(env, end), target) == dest.index && (target.ToLabel? ==> target.level == |labels|)
    ensures LabelsReady(labels + [lab], targets + [target], WithEnd(env, end), dests + [dest], l)
  {
    hide DestOk;
    forall k | 0 <= k < |labels| + 1
      ensures ResolveTarget(WithEnd(env, end), (targets + [target])[k]) == (dests + [dest])[k].index
    {
      if k < |labels| {
        ResolvedBefore(env, WithEnd(env, end), targets[k], k);
      }
    }
  }

  lemma ResolvedBefore(env: seq<nat>, env': seq<nat>, t: Target, k: nat)
    requires k < |env| && env <= env' && (t.ToLabel? ==> t.level == k)
    ensures ResolveTarget(env', t) == ResolveTarget(env, t)
  {
  }

  /** Where a run of a label's body and end stands; a branch to the label itself is at its destination. */
  ghost predicate Within<W>(
    g: Flow<W>, r: Pass, labels: seq<Label>, dests: seq<Dest>, lab: Label, dest: Dest, l: RegLayout, b: nat,
    regs: seq<Value>,
    size: nat, fuel: nat, n: nat, pt: Point<W>)
    requires |labels| == |dests|
  {
    match g
    case Jump(d, st) =>
      if d == 0 then
        && lab.base + lab.arity <= |st.stack|
        && Reaches(pt, dest.index, dest.sim, l, b, Unwind(st, lab.base, lab.arity), regs)
      else Arrives(Flow<W>.Jump(d - 1, st), true, r, labels, dests, l, b, regs, size, fuel, n, pt)
    case _ => Arrives(g, true, r, labels, dests, l, b, regs, size, fuel, n, pt)
  }

  lemma InsideRuns<W>(
    fx: FileEffects<W>, l: RegLayout, b: nat, code: seq<FrameCtl>, p: Pass, labels: seq<Label>, targets: seq<Target>,
    env: seq<nat>, dests: seq<Dest>, lab: Label, target: Target, body: seq<Ctl>, dest: Dest, r: Pass, fuel: nat,
    st: State<W>,
    regs: seq<Value>)
    returns (n: nat)
    requires |labels| == |dests|
    requires InsideReady(code, l, p, labels, targets, env, dests, lab, target, body, dest, r)
    requires Rel(p.sim, l, b, st.locals, st.stack, regs)
    ensures Within(RunSeq(fx.effects, fuel, body, st), r, labels, dests, lab, dest, l, b, regs, |code|, fuel, n,
                   Steps(fx, l, b, code, n, At(|p.out|, regs, st.world)))
    decreases fuel, body, 1
  {
    hide PassOk, Grows, Rel, CodeAt, Fits, LowerSeq, MaterializeP, EndOf, StableSeq, CtlStep, Steps, RunSeq, Reaches,
         LowerInside,
         LabelsReady, DestOk, HeightAfterSeq, PatchAll, Arrives, Within, ResolveTarget;
    var p1, p2 := InsideOpens(code, l, p, labels, targets, env, dests, lab, target, body, dest, r);
    n := SeqRuns(fx, l, b, code, p, labels + [lab], targets + [target], WithEnd(env, |p2.out|), dests + [dest], body,
      p1, fuel, st, regs);
    var at := At(|p.out|, regs, st.world);
    var g := RunSeq(fx.effects, fuel, body, st);
    if g.Fall? {
      var pt := Steps(fx, l, b, code, n, at);
      FallArrives(g, p1, labels + [lab], dests + [dest], l, b, regs, |code|, fuel, n, pt);
      ReachesAt(pt, |p1.out|, p1.sim, l, b, g.state, regs);
      assert Innermost(labels + [lab]) == lab;
      var m := EndRuns(fx, l, b, code, WithEnd(env, |p2.out|), p1, labels + [lab], g.state, pt.regs);
      StepsAdd(fx, l, b, code, n, m, at);
      n := n + m;
      ReachesFrom(Steps(fx, l, b, code, n, at), |p2.out| + 1, p2.sim, l, b, g.state, pt.regs, regs);
      ArrivesByFalling(g, r, labels, dests, lab, dest, l, b, regs, |code|, fuel, n, Steps(fx, l, b, code, n, at));
    } else {
      ArrivesOutside(g, p1, r, labels, dests, lab, dest, l, b, regs, |code|, fuel, n, Steps(fx, l, b, code, n, at));
    }
  }

  lemma FallArrives<W>(
    g: Flow<W>, p1: Pass, labels: seq<Label>, dests: seq<Dest>, l: RegLayout, b: nat, regs: seq<Value>,
    size: nat, fuel: nat, n: nat, pt: Point<W>)
    requires |labels| == |dests| && g.Fall?
    requires exists live :: Arrives(g, live, p1, labels, dests, l, b, regs, size, fuel, n, pt)
    ensures Reaches(pt, |p1.out|, p1.sim, l, b, g.state, regs)
  {
  }

  lemma ArrivesByFalling<W>(
    g: Flow<W>, r: Pass, labels: seq<Label>, dests: seq<Dest>, lab: Label, dest: Dest, l: RegLayout, b: nat,
    regs: seq<Value>,
    size: nat, fuel: nat, n: nat, pt: Point<W>)
    requires |labels| == |dests| && g.Fall? && Reaches(pt, |r.out|, r.sim, l, b, g.state, regs)
    ensures Within(g, r, labels, dests, lab, dest, l, b, regs, size, fuel, n, pt)
  {
  }

  /** A branch out of a body names the label, or one further out. */
  lemma ArrivesOutside<W>(
    g: Flow<W>, p1: Pass, r: Pass, labels: seq<Label>, dests: seq<Dest>, lab: Label, dest: Dest, l: RegLayout, b: nat,
    regs: seq<Value>, size: nat, fuel: nat, n: nat, pt: Point<W>)
    requires |labels| == |dests| && !g.Fall?
    requires exists live :: Arrives(g, live, p1, labels + [lab], dests + [dest], l, b, regs, size, fuel, n, pt)
    ensures Within(g, r, labels, dests, lab, dest, l, b, regs, size, fuel, n, pt)
  {
    hide Reaches;
    if g.Jump? && g.depth < |labels| + 1 {
      assert LabelAt(labels + [lab], g.depth) == if g.depth == 0 then lab else LabelAt(labels, g.depth - 1);
      assert DestAt(dests + [dest], g.depth) == if g.depth == 0 then dest else DestAt(dests, g.depth - 1);
    }
  }

  lemma ReachesAt<W>(pt: Point<W>, pc: nat, sim: Sim, l: RegLayout, b: nat, st: State<W>, regs: seq<Value>)
    requires Reaches(pt, pc, sim, l, b, st, regs)
    ensures pt == At(pc, pt.regs, st.world) && Rel(sim, l, b, st.locals, st.stack, pt.regs)
    ensures b <= |regs| <= |pt.regs| && pt.regs[..b] == regs[..b]
  {
    hide Rel;
  }

  /** A loop, from its head: each branch back to it spends fuel and comes back to the head. */
  lemma LoopRuns<W>(
    fx: FileEffects<W>, l: RegLayout, b: nat, code: seq<FrameCtl>, p: Pass, labels: seq<Label>, targets: seq<Target>,
    env: seq<nat>, dests: seq<Dest>, lab: Label, body: seq<Ctl>, r: Pass, fuel: nat, st: State<W>, regs: seq<Value>)
    returns (n: nat)
    requires p.out != [] && |labels| == |dests|
    requires InsideReady(code, l, p, labels, targets, env, dests, lab, ToIndex(|p.out| - 1), body,
      Dest(|p.out| - 1, p.sim), r)
    requires |p.out| - 1 < |code| && code[|p.out| - 1] == FMark
    requires Rel(p.sim, l, b, st.locals, st.stack, regs)
    ensures Arrives(RunLoop(fx.effects, fuel, body, lab.base, lab.arity, st), true, r, labels, dests, l, b, regs,
      |code|, fuel, n,
                    Steps(fx, l, b, code, n, At(|p.out| - 1, regs, st.world)))
    decreases fuel, body, 2
  {
    hide InsideReady, Rel, CtlStep, Steps, RunSeq, Reaches;
    var head := At(|p.out| - 1, regs, st.world);
    HeadStep(fx, l, b, code, |p.out| - 1, p.sim, st, regs);
    n := InsideRuns(fx, l, b, code, p, labels, targets, env, dests, lab, ToIndex(|p.out| - 1), body,
                    Dest(|p.out| - 1, p.sim), r, fuel, st, regs);
    StepsAdd(fx, l, b, code, 1, n, head);
    n := n + 1;
    var g := RunSeq(fx.effects, fuel, body, st);
    if g.Jump? && g.depth == 0 {
      var pt := Steps(fx, l, b, code, n, head);
      var st' := Unwind(g.state, lab.base, lab.arity);
      ReachesAt(pt, |p.out| - 1, p.sim, l, b, st', regs);
      if fuel != 0 {
        var m := LoopRuns(fx, l, b, code, p, labels, targets, env, dests, lab, body, r, fuel - 1, st', pt.regs);
        StepsAdd(fx, l, b, code, n, m, head);
        ArrivesFrom(RunLoop(fx.effects, fuel - 1, body, lab.base, lab.arity, st'), true, r, labels, dests, l, b,
                    pt.regs, regs, |code|, fuel - 1, m, fuel, n + m, Steps(fx, l, b, code, n + m, head));
        n := n + m;
      }
    }
  }

  lemma HeadStep<W>(
    fx: FileEffects<W>, l: RegLayout, b: nat, code: seq<FrameCtl>, pc: nat, sim: Sim, st: State<W>, regs: seq<Value>)
    requires pc < |code| && code[pc] == FMark && Rel(sim, l, b, st.locals, st.stack, regs)
    ensures Steps(fx, l, b, code, 1, At(pc, regs, st.world)) == At(pc + 1, regs, st.world)
  {
    hide Rel;
    TwoSteps(fx, l, b, code, At(pc, regs, st.world));
  }

  lemma ArrivesFrom<W>(
    f: Flow<W>, live: bool, r: Pass, labels: seq<Label>, dests: seq<Dest>, l: RegLayout, b: nat, regs1: seq<Value>,
    regs: seq<Value>,
    size: nat, fuel1: nat, n1: nat, fuel: nat, n: nat, pt: Point<W>)
    requires |labels| == |dests| && b <= |regs| <= |regs1| && regs1[..b] == regs[..b]
    requires Arrives(f, live, r, labels, dests, l, b, regs1, size, fuel1, n1, pt) && n1 <= n
      && (fuel1 <= n1 ==> fuel <= n)
    ensures Arrives(f, live, r, labels, dests, l, b, regs, size, fuel, n, pt)
  {
    hide Rel;
  }

  /** The facts about a sequence, lowered to `r`, that its runs need. */
  ghost predicate SeqReady(
    code: seq<FrameCtl>, l: RegLayout, p: Pass, labels: seq<Label>, targets: seq<Target>, env: seq<nat>,
    dests: seq<Dest>,
    cs: seq<Ctl>, r: Pass)
  {
    && Enters(p, labels, targets) && LabelsReady(labels, targets, env, dests, l)
    && !HeightAfterSeq(cs, |p.sim.origin|, labels, |p.sim.stack|).Invalid?
    && LowerSeq(p, labels, targets, cs) == Lowered<Pass>.Ok(r)
    && Fits(r.sim, l) && CodeAt(code, l, env, r.out, |p.out|, |r.out|)
    && StableSeq(p, labels, targets, dests, cs, true)
  }

  /** The facts about one construct, lowered to `r`, that its runs need. */
  ghost predicate OneReady(
    code: seq<FrameCtl>, l: RegLayout, p: Pass, labels: seq<Label>, targets: seq<Target>, env: seq<nat>,
    dests: seq<Dest>,
    c: Ctl, r: Pass)
  {
    && Enters(p, labels, targets) && LabelsReady(labels, targets, env, dests, l)
    && HeightAfterOne(c, |p.sim.origin|, labels, |p.sim.stack|).Live?
    && LowerOne(p, labels, targets, c) == Lowered<Pass>.Ok(r)
    && Fits(r.sim, l) && CodeAt(code, l, env, r.out, |p.out|, |r.out|)
    && StableOne(p, labels, targets, dests, c, true)
  }

  lemma BrIfRuns<W>(
    fx: FileEffects<W>, l: RegLayout, b: nat, code: seq<FrameCtl>, p: Pass, labels: seq<Label>, targets: seq<Target>,
    env: seq<nat>, dests: seq<Dest>, d: nat, r: Pass, fuel: nat, st: State<W>, regs: seq<Value>)
    returns (n: nat)
    requires |labels| == |dests| && OneReady(code, l, p, labels, targets, env, dests, BrIf(d), r)
    requires Rel(p.sim, l, b, st.locals, st.stack, regs)
    ensures Arrives(RunOne(fx.effects, fuel, BrIf(d), st), true, r, labels, dests, l, b, regs, |code|, fuel, n,
                    Steps(fx, l, b, code, n, At(|p.out|, regs, st.world)))
  {
    hide SimOk, Rel, CodeAt, Fits, CtlStep, DestOk, StableAt, BranchIf, SpillLive, Evolves;
    FromRel(p.sim, l, b, st.locals, st.stack, regs);
    var p1 := SpillLive(p, labels).value;
    var lab, target, dest := LabelAt(labels, d), TargetAt(targets, d), DestAt(dests, d);
    BranchFits(labels, d, |p.sim.stack| - 1);
    BranchIfOk(p1, labels, target, lab);
    assert BranchIf(p1, target, lab) == Lowered<Pass>.Ok(r);
    FitsEarlier(p1.sim, r.sim, l);
    CodeSplit(code, l, env, p, p1, r);
    n := SpillRuns(fx, l, b, code, env, p, labels, st, regs);
    var at := At(|p.out|, regs, st.world);
    var pt := Steps(fx, l, b, code, n, at);
    ReachesAt(pt, |p1.out|, p1.sim, l, b, st, regs);
    BranchIfRuns(fx, l, b, code, env, p1, lab, target, dest, st, pt.regs);
    StepsAdd(fx, l, b, code, n, 1, at);
    TwoSteps(fx, l, b, code, pt);
    n := n + 1;
    var rest := st.(stack := st.stack[..|st.stack| - 1]);
    if IsTrue(st.stack[|st.stack| - 1]) {
      ReachesFrom(Steps(fx, l, b, code, n, at), dest.index, dest.sim, l, b, Unwind(rest, lab.base, lab.arity), pt.regs,
        regs);
    } else {
      ReachesFrom(Steps(fx, l, b, code, n, at), |r.out|, r.sim, l, b, rest, pt.regs, regs);
    }
  }

  /** A block, opened: what its body's runs need, with its end as the destination of its branches. */
  lemma BlockOpens(
    code: seq<FrameCtl>, l: RegLayout, p: Pass, labels: seq<Label>, targets: seq<Target>, env: seq<nat>,
    dests: seq<Dest>,
    params: nat, results: nat, body: seq<Ctl>, r: Pass)
    returns (p1: Pass, dest: Dest)
    requires OneReady(code, l, p, labels, targets, env, dests, Block(params, results, body), r)
    ensures Innermost(labels).base + params <= |p.sim.stack| && MaterializeP(p, labels, params) == Lowered<Pass>.Ok(p1)
    ensures Fits(p1.sim, l) && CodeAt(code, l, env, p1.out, |p.out|, |p1.out|)
    ensures InsideReady(code, l, p1, labels, targets, env, dests, Label(|p.sim.stack| - params, results, results),
                        ToLabel(|labels|), body, dest, r)
    ensures dest.index < |code| && code[dest.index] == FMark && r.sim == dest.sim && |r.out| == dest.index + 1
  {
    hide SimOk, CodeAt, Fits, StableSeq, Evolves, LowerSeq, DestOk, LowerInside, MaterializeP, StableOne, LowerOne,
         HeightAfterOne,
         HeightAfterSeq, StableInside, EndOf, ResolveCtl, LabelsReady, Grows;
    ReadyCode(labels, targets, env, dests, l);
    BlockFits(p, labels, params, results, body);
    var lab := Label(|p.sim.stack| - params, results, results);
    p1 := BlockShape(p, labels, targets, dests, params, lab, body, r);
    FitsEarlier(p1.sim, r.sim, l);
    CodeSplit(code, l, env, p, p1, r);
    var q1, q2 := InsideShape(p1, labels, targets, lab, ToLabel(|labels|), body);
    dest := Dest(|q2.out|, q2.sim);
    EndIsDest(q1, q2, labels + [lab], lab, l);
    CodeInside(code, l, env, q2.out, |p1.out|);
    CodeEnds(code, l, env, p1, q2);
  }

  /** A label's body lowered to `r`, stable with the label going to `dest`. */
  ghost predicate BodyLowered(
    p: Pass, labels: seq<Label>, targets: seq<Target>, dests: seq<Dest>, lab: Label, target: Target, body: seq<Ctl>,
    dest: Dest,
    r: Pass)
  {
    && |dests| == |labels| && Inside(p, labels, targets, lab, target, body)
    && LowerInside(p, labels, targets, lab, target, body) == Lowered<Pass>.Ok(r)
    && StableInside(p, labels, targets, dests, lab, target, body, dest, true)
    && p.out <= r.out && Grows(p.sim, r.sim)
  }

  ghost predicate BlockLowered(
    p: Pass, labels: seq<Label>, targets: seq<Target>, dests: seq<Dest>, params: nat, lab: Label, body: seq<Ctl>,
    p1: Pass, r: Pass)
  {
    && PassOk(p, labels) && Innermost(labels).base + params <= |p.sim.stack|
    && MaterializeP(p, labels, params) == Lowered<Pass>.Ok(p1) && p.out <= p1.out
    && Inside(p1, labels, targets, lab, ToLabel(|labels|), body)
    && BodyLowered(p1, labels, targets, dests, lab, ToLabel(|labels|), body,
                   EndOf(p1, labels, targets, lab, ToLabel(|labels|), body), r)
  }

  /** A block as the pass lowers it. */
  lemma BlockShape(
    p: Pass, labels: seq<Label>, targets: seq<Target>, dests: seq<Dest>, params: nat, lab: Label, body: seq<Ctl>,
    r: Pass)
    returns (p1: Pass)
    requires Enters(p, labels, targets) && |dests| == |labels| && lab.base + params == |p.sim.stack|
      && lab.arity == lab.results
    requires HeightAfterOne(Block(params, lab.results, body), |p.sim.origin|, labels, |p.sim.stack|).Live?
    requires LowerOne(p, labels, targets, Block(params, lab.results, body)) == Lowered<Pass>.Ok(r)
    requires StableOne(p, labels, targets, dests, Block(params, lab.results, body), true)
    ensures BlockLowered(p, labels, targets, dests, params, lab, body, p1, r)
  {
    hide PassOk, LowerOne, StableOne, HeightAfterOne, HeightAfterSeq, LowerInside, StableInside, EndOf, MaterializeP,
         Onward;
    OneIsBlock(p, labels, targets, dests, params, lab, body, true);
    p1 := MaterializeP(p, labels, params).value;
    OnwardFacts(p, p1, |p.sim.stack| - params);
    OnwardFacts(p1, r, lab.base);
  }

  lemma OnwardFacts(p: Pass, r: Pass, h: nat)
    requires Onward(p, r, h)
    ensures p.out <= r.out && Grows(p.sim, r.sim) && |r.sim.origin| == |p.sim.origin|
  {
  }

  lemma OneIsBlock(
    p: Pass, labels: seq<Label>, targets: seq<Target>, dests: seq<Dest>, params: nat, lab: Label, body: seq<Ctl>,
    every: bool)
    requires Enters(p, labels, targets) && |dests| == |labels| && lab.base + params == |p.sim.stack|
      && lab.arity == lab.results
    requires HeightAfterOne(Block(params, lab.results, body), |p.sim.origin|, labels, |p.sim.stack|).Live?
    ensures Innermost(labels).base <= lab.base
    ensures Closed(HeightAfterSeq(body, |p.sim.origin|, labels + [lab], |p.sim.stack|), lab.base + lab.results).Live?
    ensures LowerOne(p, labels, targets, Block(params, lab.results, body)) ==
            LowerBlock(p, labels, targets, params, lab, body)
    ensures StableOne(p, labels, targets, dests, Block(params, lab.results, body), every) ==
            StableBlock(p, labels, targets, dests, params, lab, body, every)
  {
    hide PassOk, LowerBlock, StableBlock;
    assert lab == Label(|p.sim.stack| - params, lab.results, lab.results);
  }

  lemma OneIsLoop(
    p: Pass, labels: seq<Label>, targets: seq<Target>, dests: seq<Dest>, lab: Label, body: seq<Ctl>, every: bool)
    requires Enters(p, labels, targets) && |dests| == |labels| && lab.base + lab.arity == |p.sim.stack|
    requires HeightAfterOne(Loop(lab.arity, lab.results, body), |p.sim.origin|, labels, |p.sim.stack|).Live?
    ensures Innermost(labels).base <= lab.base
    ensures Closed(HeightAfterSeq(body, |p.sim.origin|, labels + [lab], |p.sim.stack|), lab.base + lab.results).Live?
    ensures LowerOne(p, labels, targets, Loop(lab.arity, lab.results, body)) ==
            LowerLoop(p, labels, targets, lab.arity, lab, body)
    ensures StableOne(p, labels, targets, dests, Loop(lab.arity, lab.results, body), every) ==
            StableLoop(p, labels, targets, dests, lab.arity, lab, body, every)
  {
    hide PassOk, LowerLoop, StableLoop;
    assert lab == Label(|p.sim.stack| - lab.arity, lab.arity, lab.results);
  }

  lemma EndIsDest(q1: Pass, q2: Pass, labels: seq<Label>, lab: Label, l: RegLayout)
    requires PassOk(q1, labels) && |q1.sim.stack| == lab.base + lab.results && lab.arity == lab.results
    requires Innermost(labels) == lab && MaterializeP(q1, labels, lab.results) == Lowered<Pass>.Ok(q2)
      && Fits(q2.sim, l)
    ensures DestOk(Dest(|q2.out|, q2.sim), lab, l)
  {
    hide SimOk;
  }

  lemma BlockConstructRuns<W>(
    fx: FileEffects<W>, l: RegLayout, b: nat, code: seq<FrameCtl>, p: Pass, labels: seq<Label>, targets: seq<Target>,
    env: seq<nat>, dests: seq<Dest>, params: nat, results: nat, body: seq<Ctl>, r: Pass, fuel: nat, st: State<W>,
    regs: seq<Value>)
    returns (n: nat)
    requires |labels| == |dests| && OneReady(code, l, p, labels, targets, env, dests, Block(params, results, body), r)
    requires Rel(p.sim, l, b, st.locals, st.stack, regs)
    ensures Arrives(RunOne(fx.effects, fuel, Block(params, results, body), st), true, r, labels, dests, l, b, regs,
      |code|, fuel, n,
                    Steps(fx, l, b, code, n, At(|p.out|, regs, st.world)))
    decreases fuel, body, 3
  {
    hide SimOk, Rel, CodeAt, Fits, CtlStep, Steps, RunSeq, Reaches, InsideReady, StableOne, LowerOne, HeightAfterOne,
         MaterializeP;
    FromRel(p.sim, l, b, st.locals, st.stack, regs);
    var p1, dest := BlockOpens(code, l, p, labels, targets, env, dests, params, results, body, r);
    var lab := Label(|p.sim.stack| - params, results, results);
    var at := At(|p.out|, regs, st.world);
    var n1 := MaterializeRuns(fx, l, b, code, env, p, labels, params, st, regs);
    var pt1 := Steps(fx, l, b, code, n1, at);
    ReachesAt(pt1, |p1.out|, p1.sim, l, b, st, regs);
    var n2 := InsideRuns(fx, l, b, code, p1, labels, targets, env, dests, lab, ToLabel(|labels|), body, dest, r, fuel,
      st, pt1.regs);
    StepsAdd(fx, l, b, code, n1, n2, at);
    n := n1 + n2;
    var pt := Steps(fx, l, b, code, n, at);
    var g := RunSeq(fx.effects, fuel, body, st);
    assert RunOne(fx.effects, fuel, Block(params, results, body), st) == Leave(g, lab.base, results);
    if g.Jump? && g.depth == 0 {
      var st' := Unwind(g.state, lab.base, results);
      ReachesAt(pt, dest.index, dest.sim, l, b, st', pt1.regs);
      MarkStep(fx, l, b, code, pt, dest.sim, st', pt1.regs);
      StepsAdd(fx, l, b, code, n, 1, at);
      n := n + 1;
      ReachesFrom(Steps(fx, l, b, code, n, at), dest.index + 1, dest.sim, l, b, st', pt1.regs, regs);
    } else {
      ArrivesFrom(Leave(g, lab.base, results), true, r, labels, dests, l, b, pt1.regs, regs, |code|, fuel, n2, fuel,
        n, pt);
    }
  }

  /** A loop, opened: its head is the destination of its branches. */
  lemma LoopOpens(
    code: seq<FrameCtl>, l: RegLayout, p: Pass, labels: seq<Label>, targets: seq<Target>, env: seq<nat>,
    dests: seq<Dest>,
    params: nat, results: nat, body: seq<Ctl>, r: Pass)
    returns (p0: Pass, q: Pass, p1: Pass)
    requires OneReady(code, l, p, labels, targets, env, dests, Loop(params, results, body), r)
    ensures Innermost(labels).base + params <= |p.sim.stack| && SpillLive(p, labels) == Lowered<Pass>.Ok(p0)
    ensures MaterializeP(p0, labels, params) == Lowered<Pass>.Ok(q) && p1 == Pass(q.sim, q.out + [Mark])
    ensures PassOk(p0, labels) && Fits(p0.sim, l) && CodeAt(code, l, env, p0.out, |p.out|, |p0.out|)
    ensures Fits(q.sim, l) && CodeAt(code, l, env, q.out, |p0.out|, |q.out|)
    ensures InsideReady(code, l, p1, labels, targets, env, dests, Label(|p.sim.stack| - params, params, results),
                        ToIndex(|q.out|), body, Dest(|q.out|, q.sim), r)
    ensures |q.out| < |code| && code[|q.out|] == FMark
  {
    hide SimOk, CodeAt, Fits, StableSeq, Evolves, LowerSeq, DestOk, LowerInside, MaterializeP, StableOne, LowerOne,
         HeightAfterOne,
         HeightAfterSeq, StableInside, EndOf, ResolveCtl, LabelsReady, Grows, SpillLive;
    ReadyCode(labels, targets, env, dests, l);
    LoopFits(p, labels, params, results, body);
    var lab := Label(|p.sim.stack| - params, params, results);
    p0, q, p1 := LoopShape(p, labels, targets, dests, lab, body, r);
    FitsEarlier(p1.sim, r.sim, l);
    FitsEarlier(p0.sim, q.sim, l);
    CodeSplit(code, l, env, p, p1, r);
    CodeSplit(code, l, env, p, p0, p1);
    CodeSplit(code, l, env, p0, q, p1);
    HeadMark(code, l, env, q);
    HeadIsDest(p0, q, labels, lab, l);
  }

  /**
   A loop's head: the borrows rescued (`p0`), its operands in registers (`q`), the instruction
   branches go back to (`p1`).
   */
  ghost predicate HeadLowered(p: Pass, labels: seq<Label>, params: nat, p0: Pass, q: Pass, p1: Pass) {
    && PassOk(p, labels) && PassOk(p0, labels)
    && Innermost(labels).base + params <= |p.sim.stack| == |p0.sim.stack|
    && SpillLive(p, labels) == Lowered<Pass>.Ok(p0)
    && MaterializeP(p0, labels, params) == Lowered<Pass>.Ok(q) && p1 == Pass(q.sim, q.out + [Mark])
    && p.out <= p0.out <= q.out <= p1.out && Grows(p0.sim, q.sim)
  }

  /** A loop as the pass lowers it. */
  lemma LoopShape(
    p: Pass, labels: seq<Label>, targets: seq<Target>, dests: seq<Dest>, lab: Label, body: seq<Ctl>, r: Pass)
    returns (p0: Pass, q: Pass, p1: Pass)
    requires Enters(p, labels, targets) && |dests| == |labels| && lab.base + lab.arity == |p.sim.stack|
    requires HeightAfterOne(Loop(lab.arity, lab.results, body), |p.sim.origin|, labels, |p.sim.stack|).Live?
    requires LowerOne(p, labels, targets, Loop(lab.arity, lab.results, body)) == Lowered<Pass>.Ok(r)
    requires StableOne(p, labels, targets, dests, Loop(lab.arity, lab.results, body), true)
    ensures HeadLowered(p, labels, lab.arity, p0, q, p1)
    ensures BodyLowered(p1, labels, targets, dests, lab, ToIndex(|q.out|), body, Dest(|q.out|, q.sim), r)
  {
    hide PassOk, LowerOne, StableOne, HeightAfterOne, HeightAfterSeq, LowerInside, StableInside, LoopHead, SpillLive,
         MaterializeP,
         Onward;
    OneIsLoop(p, labels, targets, dests, lab, body, true);
    LoopHeadOk(p, labels, lab.arity);
    p1 := LoopHead(p, labels, lab.arity).value;
    p0, q := HeadShape(p, labels, lab.arity, p1);
    OnwardFacts(p, p1, |p.sim.stack| - lab.arity);
    OnwardFacts(p1, r, lab.base);
  }

  lemma BlockFits(p: Pass, labels: seq<Label>, params: nat, results: nat, body: seq<Ctl>)
    requires labels != [] && HeightAfterOne(Block(params, results, body), |p.sim.origin|, labels, |p.sim.stack|).Live?
    ensures params <= |p.sim.stack|
  {
  }

  lemma LoopFits(p: Pass, labels: seq<Label>, params: nat, results: nat, body: seq<Ctl>)
    requires labels != [] && HeightAfterOne(Loop(params, results, body), |p.sim.origin|, labels, |p.sim.stack|).Live?
    ensures params <= |p.sim.stack|
  {
  }

  lemma HeadShape(p: Pass, labels: seq<Label>, params: nat, p1: Pass)
    returns (p0: Pass, q: Pass)
    requires PassOk(p, labels) && Innermost(labels).base + params <= |p.sim.stack|
    requires LoopHead(p, labels, params) == Lowered<Pass>.Ok(p1)
    ensures HeadLowered(p, labels, params, p0, q, p1)
    ensures var h := |p.sim.stack| - params;
      h <= |q.sim.stack| && q.sim.stack[..h] == p0.sim.stack[..h]
  {
    hide SimOk, Evolves, Names;
    p0 := SpillLive(p, labels).value;
    q := MaterializeP(p0, labels, params).value;
  }

  lemma HeadMark(code: seq<FrameCtl>, l: RegLayout, env: seq<nat>, q: Pass)
    requires CodeAt(code, l, env, q.out + [Mark], |q.out|, |q.out| + 1)
    ensures |q.out| < |code| && code[|q.out|] == FMark
  {
  }

  lemma HeadIsDest(p0: Pass, q: Pass, labels: seq<Label>, lab: Label, l: RegLayout)
    requires PassOk(p0, labels) && Innermost(labels).base + lab.arity <= |p0.sim.stack| == lab.base + lab.arity
    requires MaterializeP(p0, labels, lab.arity) == Lowered<Pass>.Ok(q) && Fits(q.sim, l)
    ensures DestOk(Dest(|q.out|, q.sim), lab, l)
  {
    hide SimOk;
  }

  lemma LoopConstructRuns<W>(
    fx: FileEffects<W>, l: RegLayout, b: nat, code: seq<FrameCtl>, p: Pass, labels: seq<Label>, targets: seq<Target>,
    env: seq<nat>, dests: seq<Dest>, params: nat, results: nat, body: seq<Ctl>, r: Pass, fuel: nat, st: State<W>,
    regs: seq<Value>)
    returns (n: nat)
    requires |labels| == |dests| && OneReady(code, l, p, labels, targets, env, dests, Loop(params, results, body), r)
    requires Rel(p.sim, l, b, st.locals, st.stack, regs)
    ensures Arrives(RunOne(fx.effects, fuel, Loop(params, results, body), st), true, r, labels, dests, l, b, regs,
      |code|, fuel, n,
                    Steps(fx, l, b, code, n, At(|p.out|, regs, st.world)))
    decreases fuel, body, 3
  {
    hide SimOk, Rel, CodeAt, Fits, CtlStep, Steps, RunSeq, Reaches, InsideReady, StableOne, LowerOne, HeightAfterOne,
         MaterializeP,
         SpillLive, RunLoop, Arrives;
    FromRel(p.sim, l, b, st.locals, st.stack, regs);
    var p0, q, p1 := LoopOpens(code, l, p, labels, targets, env, dests, params, results, body, r);
    var lab := Label(|p.sim.stack| - params, params, results);
    var at := At(|p.out|, regs, st.world);
    var n0 := SpillRuns(fx, l, b, code, env, p, labels, st, regs);
    var pt0 := Steps(fx, l, b, code, n0, at);
    ReachesAt(pt0, |p0.out|, p0.sim, l, b, st, regs);
    var n1 := MaterializeRuns(fx, l, b, code, env, p0, labels, params, st, pt0.regs);
    StepsAdd(fx, l, b, code, n0, n1, at);
    var pt1 := Steps(fx, l, b, code, n0 + n1, at);
    ReachesAt(pt1, |q.out|, q.sim, l, b, st, pt0.regs);
    SliceOfPrefix(pt1.regs, b, 0, b);
    var n2 := LoopRuns(fx, l, b, code, p1, labels, targets, env, dests, lab, body, r, fuel, st, pt1.regs);
    StepsAdd(fx, l, b, code, n0 + n1, n2, at);
    n := n0 + n1 + n2;
    var f := RunLoop(fx.effects, fuel, body, lab.base, params, st);
    assert RunOne(fx.effects, fuel, Loop(params, results, body), st) == f;
    ArrivesFrom(f, true, r, labels, dests, l, b, pt1.regs, regs, |code|, fuel, n2, fuel, n,
      Steps(fx, l, b, code, n, at));
  }

  lemma OneRuns<W>(
    fx: FileEffects<W>, l: RegLayout, b: nat, code: seq<FrameCtl>, p: Pass, labels: seq<Label>, targets: seq<Target>,
    env: seq<nat>, dests: seq<Dest>, c: Ctl, r: Pass, fuel: nat, st: State<W>, regs: seq<Value>)
    returns (n: nat)
    requires |labels| == |dests| && OneReady(code, l, p, labels, targets, env, dests, c, r)
    requires Rel(p.sim, l, b, st.locals, st.stack, regs)
    ensures Arrives(RunOne(fx.effects, fuel, c, st), true, r, labels, dests, l, b, regs, |code|, fuel, n,
                    Steps(fx, l, b, code, n, At(|p.out|, regs, st.world)))
    decreases fuel, c, 4
  {
    match c
    case Plain(op) => n := PlainArrives(fx, l, b, code, p, labels, targets, env, dests, op, r, fuel, st, regs);
    case BrIf(d) => n := BrIfRuns(fx, l, b, code, p, labels, targets, env, dests, d, r, fuel, st, regs);
    case Block(params, results, body) =>
      n := BlockConstructRuns(fx, l, b, code, p, labels, targets, env, dests, params, results, body, r, fuel, st, regs);
    case Loop(params, results, body) =>
      n := LoopConstructRuns(fx, l, b, code, p, labels, targets, env, dests, params, results, body, r, fuel, st, regs);
    case Br(_) => assert false;
    case Unreachable => assert false;
  }

  lemma PlainArrives<W>(
    fx: FileEffects<W>, l: RegLayout, b: nat, code: seq<FrameCtl>, p: Pass, labels: seq<Label>, targets: seq<Target>,
    env: seq<nat>, dests: seq<Dest>, op: Op, r: Pass, fuel: nat, st: State<W>, regs: seq<Value>)
    returns (n: nat)
    requires |labels| == |dests| && OneReady(code, l, p, labels, targets, env, dests, Plain(op), r)
    requires Rel(p.sim, l, b, st.locals, st.stack, regs)
    ensures Arrives(RunOne(fx.effects, fuel, Plain(op), st), true, r, labels, dests, l, b, regs, |code|, fuel, n,
                    Steps(fx, l, b, code, n, At(|p.out|, regs, st.world)))
  {
    hide Rel, CodeAt, Fits, CtlStep, LowerPlain, SimOk, StackStep, Steps;
    PlainFits(op, |p.sim.origin|, Innermost(labels).base, |p.sim.stack|);
    n := PlainRuns(fx, l, b, code, env, p, labels, op, st, regs);
  }

  lemma BrArrives<W>(
    fx: FileEffects<W>, l: RegLayout, b: nat, code: seq<FrameCtl>, p: Pass, labels: seq<Label>, targets: seq<Target>,
    env: seq<nat>, dests: seq<Dest>, cs: seq<Ctl>, r: Pass, fuel: nat, st: State<W>, regs: seq<Value>)
    returns (n: nat)
    requires |labels| == |dests| && labels != [] && SeqReady(code, l, p, labels, targets, env, dests, cs, r)
    requires cs != [] && cs[0].Br? && Rel(p.sim, l, b, st.locals, st.stack, regs)
    ensures Arrives(Flow<W>.Jump(cs[0].depth, st), false, r, labels, dests, l, b, regs, |code|, fuel, n,
                    Steps(fx, l, b, code, n, At(|p.out|, regs, st.world)))
  {
    hide SimOk, Rel, CtlStep, DestOk, StableAt, Evolves, Carried, Steps, LabelRegister;
    FromRel(p.sim, l, b, st.locals, st.stack, regs);
    var d := cs[0].depth;
    var lab, target, dest := LabelAt(labels, d), TargetAt(targets, d), DestAt(dests, d);
    BranchFits(labels, d, |p.sim.stack|);
    var peak := LabelRegister(p.sim, lab.base) + lab.arity;
    WidenOk(p.sim, peak);
    assert r.out == p.out + Carried(p.sim, lab, target);
    n := BrRuns(fx, l, b, code, env, p, lab, target, dest, st, regs);
  }

  lemma {:induction false} SeqRuns<W>(
    fx: FileEffects<W>, l: RegLayout, b: nat, code: seq<FrameCtl>, p: Pass, labels: seq<Label>, targets: seq<Target>,
    env: seq<nat>, dests: seq<Dest>, cs: seq<Ctl>, r: Pass, fuel: nat, st: State<W>, regs: seq<Value>)
    returns (n: nat)
    requires |labels| == |dests| && labels != [] && SeqReady(code, l, p, labels, targets, env, dests, cs, r)
    requires Rel(p.sim, l, b, st.locals, st.stack, regs)
    ensures Arrives(RunSeq(fx.effects, fuel, cs, st), HeightAfterSeq(cs, |p.sim.origin|, labels, |p.sim.stack|).Live?,
                    r, labels, dests, l, b, regs, |code|, fuel, n,
                      Steps(fx, l, b, code, n, At(|p.out|, regs, st.world)))
    decreases fuel, cs, 0
  {
    hide SimOk, Rel, CodeAt, Fits, CtlStep, Reaches, StableOne, LowerOne, HeightAfterOne, Evolves, RunOne, DestOk;
    var at := At(|p.out|, regs, st.world);
    n := 0;
    if cs == [] {
      StartsThere(p, l, b, st, regs);
    } else if cs[0].Br? {
      n := BrArrives(fx, l, b, code, p, labels, targets, env, dests, cs, r, fuel, st, regs);
      RunsAway(fx.effects, fuel, cs[0], st);
    } else if cs[0].Unreachable? {
      n := 1;
      StopStep(fx, l, b, code, env, p, r, st, regs);
      RunsAway(fx.effects, fuel, cs[0], st);
    } else {
      var p1 := LowerOne(p, labels, targets, cs[0]).value;
      OneThenRest(code, l, p, labels, targets, env, dests, cs, p1, r);
      n := OneRuns(fx, l, b, code, p, labels, targets, env, dests, cs[0], p1, fuel, st, regs);
      var f := RunOne(fx.effects, fuel, cs[0], st);
      if f.Fall? {
        var pt := Steps(fx, l, b, code, n, at);
        ReachesAt(pt, |p1.out|, p1.sim, l, b, f.state, regs);
        var m := SeqRuns(fx, l, b, code, p1, labels, targets, env, dests, cs[1..], r, fuel, f.state, pt.regs);
        StepsAdd(fx, l, b, code, n, m, at);
        var live := HeightAfterSeq(cs[1..], |p1.sim.origin|, labels, |p1.sim.stack|).Live?;
        ArrivesFrom(RunSeq(fx.effects, fuel, cs[1..], f.state), live, r, labels, dests, l, b, pt.regs, regs, |code|,
          fuel, m, fuel, n + m,
                    Steps(fx, l, b, code, n + m, at));
        n := n + m;
      }
    }
  }

  lemma RunsAway<W>(fx: Effects<W>, fuel: nat, c: Ctl, st: State<W>)
    ensures c.Br? ==> RunOne(fx, fuel, c, st) == Flow<W>.Jump(c.depth, st)
    ensures c.Unreachable? ==> RunOne(fx, fuel, c, st) == Flow<W>.Stopped(st.world)
  {
  }

  lemma StartsThere<W>(p: Pass, l: RegLayout, b: nat, st: State<W>, regs: seq<Value>)
    requires Rel(p.sim, l, b, st.locals, st.stack, regs)
    ensures Reaches(At(|p.out|, regs, st.world), |p.out|, p.sim, l, b, st, regs)
  {
    hide SimOk;
  }

  lemma StopStep<W>(
    fx: FileEffects<W>, l: RegLayout, b: nat, code: seq<FrameCtl>, env: seq<nat>, p: Pass, r: Pass, st: State<W>,
    regs: seq<Value>)
    requires r.out == p.out + [Stop] && CodeAt(code, l, env, r.out, |p.out|, |r.out|)
    ensures Steps(fx, l, b, code, 1, At(|p.out|, regs, st.world)) == Point<W>.Halted(st.world)
  {
    assert code[|p.out|] == FStop;
    TwoSteps(fx, l, b, code, At(|p.out|, regs, st.world));
  }

  /** The first construct of a sequence, and the rest of it. */
  lemma OneThenRest(
    code: seq<FrameCtl>, l: RegLayout, p: Pass, labels: seq<Label>, targets: seq<Target>, env: seq<nat>,
    dests: seq<Dest>,
    cs: seq<Ctl>, p1: Pass, r: Pass)
    requires labels != [] && SeqReady(code, l, p, labels, targets, env, dests, cs, r)
    requires cs != [] && !cs[0].Br? && !cs[0].Unreachable? && LowerOne(p, labels, targets, cs[0])
      == Lowered<Pass>.Ok(p1)
    ensures OneReady(code, l, p, labels, targets, env, dests, cs[0], p1)
    ensures SeqReady(code, l, p1, labels, targets, env, dests, cs[1..], r)
    ensures HeightAfterSeq(cs, |p.sim.origin|, labels, |p.sim.stack|) ==
            HeightAfterSeq(cs[1..], |p1.sim.origin|, labels, |p1.sim.stack|)
  {
    hide SimOk, CodeAt, Fits, StableOne, LowerOne, HeightAfterOne, Evolves, DestOk;
    CodeSplit(code, l, env, p, p1, r);
    FitsEarlier(p1.sim, r.sim, l);
  }
}
