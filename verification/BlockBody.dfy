/**
 Whole bodies with structured control.
 */
module BlockBody {
  import opened Values
  import opened RegisterLayout
  import opened StackCode
  import opened BlockCode
  import opened RegisterLowering
  import opened LoweredBody
  import opened LoweringCorrect
  import opened BlockLowering
  import opened BlockMachine
  import opened BlockCorrect
  import opened BlockRuns
  import opened BlockStability

  function StartPass(locals: nat): Pass {
    Pass(Start(locals), [])
  }

  ghost predicate BodyValid(cs: seq<Ctl>, locals: nat, results: nat) {
    locals <= MAX_U16 && Closed(HeightAfterSeq(cs, locals, FuncLabels(results), 0), results).Live?
  }

  lemma StartReady(locals: nat, results: nat)
    requires locals <= MAX_U16
    ensures Enters(StartPass(locals), FuncLabels(results), [ToLabel(0)]) && |Start(locals).origin| == locals
    ensures Start(locals).stack == []
  {
    StartOk(locals);
  }

  /** The body lowered, and with its results forced into registers. */
  ghost function BodyPasses(cs: seq<Ctl>, locals: nat, results: nat): (r: Lowered<(Pass, Pass)>)
    requires BodyValid(cs, locals, results)
    ensures r.Ok? ==>
      && PassOk(r.value.0, FuncLabels(results)) && |r.value.0.sim.stack| == results
      && MaterializeP(r.value.0, FuncLabels(results), results) == Lowered<Pass>.Ok(r.value.1)
  {
    StartReady(locals, results);
    match LowerSeq(StartPass(locals), FuncLabels(results), [ToLabel(0)], cs)
    case FrameTooLarge(what) => FrameTooLarge(what)
    case Ok(p1) =>
      match MaterializeP(p1, FuncLabels(results), results)
      case FrameTooLarge(what) => FrameTooLarge(what)
      case Ok(p2) => Ok((p1, p2))
  }

  datatype LoweredBlocks = LoweredBlocks(code: seq<FrameCtl>, layout: RegLayout)

  function ResolveBody(l: RegLayout, out: seq<CtlOp>): (code: seq<FrameCtl>)
    ensures |code| == |out| && forall j :: 0 <= j < |out| ==> code[j] == ResolveCtl(l, [], out[j])
  {
    seq(|out|, j requires 0 <= j < |out| => ResolveCtl(l, [], out[j]))
  }

  /** `emit_instructions_for_func` on a body with structured control. */
  ghost function LowerStructured(cs: seq<Ctl>, locals: nat, results: nat): Lowered<LoweredBlocks>
    requires BodyValid(cs, locals, results)
  {
    match BodyPasses(cs, locals, results)
    case FrameTooLarge(what) => FrameTooLarge(what)
    case Ok((_, p2)) =>
      var l := LayoutOf(p2.sim);
      if MAX_U16 < Width(l) then FrameTooLarge("the whole frame")
      else Ok(LoweredBlocks(ResolveBody(l, PatchAll(p2.out, 0, |p2.out|) + [Mark]), l))
  }

  /**
   The condition: at each unconditional branch past its own block to the end of another, with no
   loop between, every operand below that block is still read where the code after it will read it.
   */
  ghost predicate NoOperandStranded(cs: seq<Ctl>, locals: nat, results: nat)
    requires BodyValid(cs, locals, results) && BodyPasses(cs, locals, results).Ok?
  {
    StartReady(locals, results);
    var p2 := BodyPasses(cs, locals, results).value.1;
    StableSeq(StartPass(locals), FuncLabels(results), [ToLabel(0)], [Dest(|p2.out|, p2.sim)], cs, false)
  }

  // ------------------------------------------------------------------ bodies

  /**
   What the run of a body that ends at index `end` has come to when the stack machine's has gone
   as `f` says; while the stack machine goes on, the run has not ended.
   */
  ghost predicate Answers<W>(
    f: Flow<W>, results: nat, l: RegLayout, b: nat, regs: seq<Value>, end: nat, fuel: nat, n: nat, pt: Point<W>)
  {
    match f
    case Stopped(w) => pt == Halted(w)
    case OutOfFuel => pt.At? && pt.pc < end && fuel <= n
    case Fall(st) => Delivers(st, results, l, b, regs, end, pt)
    case Jump(d, st) => d == 0 && Delivers(st, results, l, b, regs, end, pt)
  }

  /** The run is over, and leaving the frame puts the top operands at its base, changing nothing below. */
  ghost predicate Delivers<W>(
    st: State<W>, results: nat, l: RegLayout, b: nat, regs: seq<Value>, end: nat, pt: Point<W>)
  {
    && pt.At? && pt.pc == end && pt.world == st.world && results <= |st.stack|
    && b + OperandStart(l) + results <= |pt.regs|
    && var left := ExitRegs(pt.regs, results, b, l);
      && |regs| <= |left| && b <= |regs| && b + results <= |left|
      && left[b..b + results] == st.stack[|st.stack| - results..] && left[..b] == regs[..b]
  }

  /** Operands that are all registers sit at the bottom of the operand registers, in order. */
  lemma RegistersAtBase(s: Sim, l: RegLayout, b: nat, locals: seq<Value>, stack: seq<Value>, regs: seq<Value>)
    requires Rel(s, l, b, locals, stack, regs) && forall j :: 0 <= j < |s.stack| ==> s.stack[j].SReg?
    ensures var at := b + OperandStart(l);
      at + |stack| <= |regs| && regs[at..at + |stack|] == stack
  {
    hide RegIntact, SimOk;
    FromRel(s, l, b, locals, stack, regs);
    var at := b + OperandStart(l);
    AllRegisters(s);
    forall j | 0 <= j < |stack| ensures regs[at + j] == stack[j] {
      assert Addr(s, l, j) == OperandStart(l) + j;
    }
  }

  lemma AllRegisters(s: Sim)
    requires SimOk(s) && forall j :: 0 <= j < |s.stack| ==> s.stack[j].SReg?
    ensures |s.origin| + |s.stack| == s.currReg
    ensures forall j :: 0 <= j < |s.stack| ==> s.stack[j] == SReg(|s.origin| + j)
  {
    hide SpillsOk, OriginsOk, Count;
    RegsAbove(s.stack, 0, |s.stack|);
    assert s.stack[..|s.stack|] == s.stack && Regs(s.stack[..0]) == 0;
    forall j | 0 <= j < |s.stack| ensures s.stack[j] == SReg(|s.origin| + j) {
      RegsAbove(s.stack, 0, j);
    }
  }

  lemma ReachedDelivers<W>(
    s: Sim, l: RegLayout, b: nat, st: State<W>, full: State<W>, results: nat, entered: seq<Value>, regs: seq<Value>,
    end: nat,
    pt: Point<W>)
    requires Reaches(pt, end, s, l, b, st, entered) && |st.stack| == results && st.world == full.world
    requires results <= |full.stack| && st.stack == full.stack[|full.stack| - results..]
    requires forall j :: 0 <= j < |s.stack| ==> s.stack[j].SReg?
    requires b <= |regs| <= |entered| && entered[..b] == regs[..b]
    ensures Delivers(full, results, l, b, regs, end, pt)
  {
    hide Rel;
    RegistersAtBase(s, l, b, st.locals, st.stack, pt.regs);
    var at := b + OperandStart(l);
    var left := ExitRegs(pt.regs, results, b, l);
    assert left[..b] == pt.regs[..b];
    assert left[b..b + results] == pt.regs[at..at + results];
  }

  lemma BodyReady(cs: seq<Ctl>, locals: nat, results: nat, f: LoweredBlocks)
    returns (p1: Pass, p2: Pass)
    requires BodyValid(cs, locals, results) && LowerStructured(cs, locals, results) == Lowered<LoweredBlocks>.Ok(f)
    requires NoOperandStranded(cs, locals, results)
    ensures Enters(StartPass(locals), FuncLabels(results), [ToLabel(0)])
    ensures BodyPasses(cs, locals, results) == Lowered<(Pass, Pass)>.Ok((p1, p2))
    ensures f.layout == LayoutOf(p2.sim) && Fits(p1.sim, f.layout) && Fits(p2.sim, f.layout)
    ensures Width(f.layout) <= MAX_U16 && locals == f.layout.localsCount <= f.layout.registers
    ensures f.code == ResolveBody(f.layout, PatchAll(p2.out, 0, |p2.out|) + [Mark])
    ensures SeqReady(f.code, f.layout, StartPass(locals), FuncLabels(results), [ToLabel(0)], [|p2.out|],
                     [Dest(|p2.out|, p2.sim)], cs, p1)
    ensures CodeAt(f.code, f.layout, [|p2.out|], p2.out, |p1.out|, |p2.out|)
    ensures |f.code| == |p2.out| + 1 && f.code[|p2.out|] == FMark
    ensures forall j :: 0 <= j < |p2.sim.stack| ==> p2.sim.stack[j].SReg?
  {
    hide SimOk, StableSeq, StableAt, LowerSeq, ResolveCtl;
    StartReady(locals, results);
    var labels := FuncLabels(results);
    p1 := BodyPasses(cs, locals, results).value.0;
    p2 := BodyPasses(cs, locals, results).value.1;
    var p0, l, dest := StartPass(locals), f.layout, Dest(|p2.out|, p2.sim);
    BodyLayout(p0, p1, p2, labels);
    EndStable(p1, p2, labels, labels[0]);
    PromoteSeq(p0, labels, [ToLabel(0)], [dest], cs, p1);
    EndIsDest(p1, p2, labels, labels[0], l);
    assert [] + [|p2.out|] == [|p2.out|];
    CodeInside(f.code, l, [], p2.out, 0);
    CodeSplit(f.code, l, [|p2.out|], p0, p1, p2);
  }

  lemma BodyLayout(p0: Pass, p1: Pass, p2: Pass, labels: seq<Label>)
    requires Onward(p0, p1, 0) && Onward(p1, p2, 0) && SimOk(p2.sim)
    ensures Fits(p1.sim, LayoutOf(p2.sim)) && Fits(p2.sim, LayoutOf(p2.sim))
    ensures |p0.sim.origin| == LayoutOf(p2.sim).localsCount <= LayoutOf(p2.sim).registers
  {
    hide SpillsOk, OriginsOk, StackOk;
  }

  /**
   Lowering of structured code preserves meaning.  Entering a frame for a lowered body, running
   it and leaving the frame does what the stack machine does with blocks, loops and branches,
   for every body on which no operand is stranded, every arguments, and whatever operators and
   callees compute: it traps with the same effects, delivers the same results at the frame's
   base with nothing below changed, or goes on for as long as the stack machine does.
   */
  lemma StructuredBodyCorrect<W>(
    fx: FileEffects<W>, cs: seq<Ctl>, params: nat, locals: seq<ValType>, results: nat, f: LoweredBlocks, b: nat,
    regs: seq<Value>, w: W, fuel: nat)
    requires params <= |locals| && b + params <= |regs| && BodyValid(cs, |locals|, results)
    requires LowerStructured(cs, |locals|, results) == Lowered<LoweredBlocks>.Ok(f)
      && NoOperandStranded(cs, |locals|, results)
    ensures |locals| <= f.layout.registers
    ensures var entered := EnterRegs(regs, params, locals, b, f.layout);
      var flow := RunSeq(fx.effects, fuel, cs, State(regs[b..b + params] + Zeros(locals[params..]), [], w));
      exists n: nat ::
        Answers(flow, results, f.layout, b, regs, |f.code|, fuel, n,
          Steps(fx, f.layout, b, f.code, n, At(0, entered, w)))
  {
    hide SimOk, Rel, BodyPasses, LowerStructured, NoOperandStranded, SeqReady, CodeAt, Fits, EnterRegs, RunSeq, Steps,
         CtlStep,
         HeightAfterSeq, Reaches, Delivers, ExitRegs, ResolveBody;
    var p1, p2 := BodyReady(cs, |locals|, results, f);
    var l, labels, dest := f.layout, FuncLabels(results), Dest(|p2.out|, p2.sim);
    var entered := EnterRegs(regs, params, locals, b, l);
    var st := State(regs[b..b + params] + Zeros(locals[params..]), [], w);
    EntryRel(regs, params, locals, b, l);
    var at := At(0, entered, w);
    var n := SeqRuns(fx, l, b, f.code, StartPass(|locals|), labels, [ToLabel(0)], [|p2.out|], [dest], cs, p1, fuel, st,
      entered);
    var flow := RunSeq(fx.effects, fuel, cs, st);
    var pt := Steps(fx, l, b, f.code, n, at);
    match flow {
      case Fall(st') =>
        ReachesAt(pt, |p1.out|, p1.sim, l, b, st', entered);
        FromRel(p1.sim, l, b, st'.locals, st'.stack, pt.regs);
        var m := EndRuns(fx, l, b, f.code, [|p2.out|], p1, labels, st', pt.regs);
        StepsAdd(fx, l, b, f.code, n, m, at);
        n := n + m;
        ReachesFrom(Steps(fx, l, b, f.code, n, at), |p2.out| + 1, p2.sim, l, b, st', pt.regs, entered);
        assert st'.stack[|st'.stack| - results..] == st'.stack;
        EnteredGrows(regs, params, locals, b, l);
        ReachedDelivers(p2.sim, l, b, st', st', results, entered, regs, |f.code|, Steps(fx, l, b, f.code, n, at));
      case Jump(d, st') =>
        var kept := Unwind(st', 0, results);
        ReachesAt(pt, |p2.out|, p2.sim, l, b, kept, entered);
        MarkStep(fx, l, b, f.code, pt, p2.sim, kept, entered);
        StepsAdd(fx, l, b, f.code, n, 1, at);
        n := n + 1;
        assert kept.stack == st'.stack[|st'.stack| - results..];
        EnteredGrows(regs, params, locals, b, l);
        ReachedDelivers(p2.sim, l, b, kept, st', results, entered, regs, |f.code|, Steps(fx, l, b, f.code, n, at));
      case _ =>
    }
    assert Answers(flow, results, l, b, regs, |f.code|, fuel, n, Steps(fx, l, b, f.code, n, at));
  }

  lemma EnteredGrows(regs: seq<Value>, params: nat, locals: seq<ValType>, b: nat, l: RegLayout)
    requires params <= |locals| == l.localsCount <= l.registers && |locals| <= MAX_U16 && b + params <= |regs|
    ensures b <= |regs| <= |EnterRegs(regs, params, locals, b, l)|
      && EnterRegs(regs, params, locals, b, l)[..b] == regs[..b]
  {
    EntryRel(regs, params, locals, b, l);
  }

  // ------------------------------------------------------------------ ending

  /** The run has ended: it trapped, or it is past the last instruction. */
  predicate Ended<W>(pt: Point<W>, size: nat) {
    pt.Halted? || size <= pt.pc
  }

  ghost predicate StackEnds<W>(fx: Effects<W>, cs: seq<Ctl>, st: State<W>, fuel: nat) {
    !RunSeq(fx, fuel, cs, st).OutOfFuel?
  }

  ghost predicate CodeEnds<W>(fx: FileEffects<W>, l: RegLayout, b: nat, code: seq<FrameCtl>, pt: Point<W>, n: nat) {
    Ended(Steps(fx, l, b, code, n, pt), |code|)
  }

  lemma {:induction false} EndedStays<W>(fx: FileEffects<W>, l: RegLayout, b: nat, code: seq<FrameCtl>, n: nat,
    pt: Point<W>)
    requires Ended(pt, |code|)
    ensures Steps(fx, l, b, code, n, pt) == pt
  {
    if n != 0 {
      EndedStays(fx, l, b, code, n - 1, pt);
    }
  }

  /** Where a run that has ended once is at any later step. */
  lemma LaterSame<W>(fx: FileEffects<W>, l: RegLayout, b: nat, code: seq<FrameCtl>, pt: Point<W>, n: nat, m: nat)
    requires CodeEnds(fx, l, b, code, pt, n) && n <= m
    ensures Steps(fx, l, b, code, m, pt) == Steps(fx, l, b, code, n, pt)
  {
    StepsAdd(fx, l, b, code, n, m - n, pt);
    EndedStays(fx, l, b, code, m - n, Steps(fx, l, b, code, n, pt));
  }

  /** The other direction: whatever a lowered body ends with is what the stack machine ends with. */
  lemma LoweredEndIsRight<W>(
    fx: FileEffects<W>, cs: seq<Ctl>, params: nat, locals: seq<ValType>, results: nat, f: LoweredBlocks, b: nat,
    regs: seq<Value>, w: W, n: nat)
    returns (fuel: nat)
    requires params <= |locals| && b + params <= |regs| && BodyValid(cs, |locals|, results)
    requires LowerStructured(cs, |locals|, results) == Lowered<LoweredBlocks>.Ok(f)
      && NoOperandStranded(cs, |locals|, results)
    requires |locals| <= f.layout.registers
    requires CodeEnds(fx, f.layout, b, f.code, At(0, EnterRegs(regs, params, locals, b, f.layout), w), n)
    ensures var st := State(regs[b..b + params] + Zeros(locals[params..]), [], w);
      var flow := RunSeq(fx.effects, fuel, cs, st);
      && StackEnds(fx.effects, cs, st, fuel)
      && Answers(flow, results, f.layout, b, regs, |f.code|, fuel, n,
                 Steps(fx, f.layout, b, f.code, n, At(0, EnterRegs(regs, params, locals, b, f.layout), w)))
  {
    hide BodyValid, LowerStructured, NoOperandStranded, EnterRegs, RunSeq, Steps, CtlStep, Delivers;
    fuel := n + 1;
    StructuredBodyCorrect(fx, cs, params, locals, results, f, b, regs, w, fuel);
    var at := At(0, EnterRegs(regs, params, locals, b, f.layout), w);
    var flow := RunSeq(fx.effects, fuel, cs, State(regs[b..b + params] + Zeros(locals[params..]), [], w));
    var m: nat :|
      Answers(flow, results, f.layout, b, regs, |f.code|, fuel, m, Steps(fx, f.layout, b, f.code, m, at));
    AnswersEnds(flow, results, f.layout, b, regs, |f.code|, fuel, m, Steps(fx, f.layout, b, f.code, m, at));
    if n <= m {
      LaterSame(fx, f.layout, b, f.code, at, n, m);
    } else {
      LaterSame(fx, f.layout, b, f.code, at, m, n);
    }
    AnswersLater(flow, results, f.layout, b, regs, |f.code|, fuel, m, n, Steps(fx, f.layout, b, f.code, n, at));
  }

  lemma AnswersEnds<W>(
    f: Flow<W>, results: nat, l: RegLayout, b: nat, regs: seq<Value>, end: nat, fuel: nat, n: nat, pt: Point<W>)
    requires Answers(f, results, l, b, regs, end, fuel, n, pt)
    ensures Ended(pt, end) <==> !f.OutOfFuel?
    ensures f.OutOfFuel? ==> fuel <= n
  {
    hide ExitRegs;
  }

  lemma AnswersLater<W>(
    f: Flow<W>, results: nat, l: RegLayout, b: nat, regs: seq<Value>, end: nat, fuel: nat, m: nat, n: nat, pt: Point<W>)
    requires Answers(f, results, l, b, regs, end, fuel, m, pt) && !f.OutOfFuel?
    ensures Answers(f, results, l, b, regs, end, fuel, n, pt)
  {
    hide Delivers;
  }

  /** A lowered body ends if and only if the stack machine does. */
  lemma BodiesEndTogether<W>(
    fx: FileEffects<W>, cs: seq<Ctl>, params: nat, locals: seq<ValType>, results: nat, f: LoweredBlocks, b: nat,
    regs: seq<Value>, w: W)
    requires params <= |locals| && b + params <= |regs| && BodyValid(cs, |locals|, results)
    requires LowerStructured(cs, |locals|, results) == Lowered<LoweredBlocks>.Ok(f)
      && NoOperandStranded(cs, |locals|, results)
    ensures |locals| <= f.layout.registers
    ensures var at := At(0, EnterRegs(regs, params, locals, b, f.layout), w);
      var st := State(regs[b..b + params] + Zeros(locals[params..]), [], w);
      (exists fuel :: StackEnds(fx.effects, cs, st, fuel)) <==> (exists n :: CodeEnds(fx, f.layout, b, f.code, at, n))
  {
    hide BodyValid, LowerStructured, NoOperandStranded, EnterRegs, RunSeq, Steps, CtlStep, Answers;
    StructuredBodyCorrect(fx, cs, params, locals, results, f, b, regs, w, 0);
    var l, code := f.layout, f.code;
    var at := At(0, EnterRegs(regs, params, locals, b, l), w);
    var st := State(regs[b..b + params] + Zeros(locals[params..]), [], w);
    if fuel :| StackEnds(fx.effects, cs, st, fuel) {
      StructuredBodyCorrect(fx, cs, params, locals, results, f, b, regs, w, fuel);
      var flow := RunSeq(fx.effects, fuel, cs, st);
      var n: nat :| Answers(flow, results, l, b, regs, |code|, fuel, n, Steps(fx, l, b, code, n, at));
      AnswersEnds(flow, results, l, b, regs, |code|, fuel, n, Steps(fx, l, b, code, n, at));
      assert CodeEnds(fx, l, b, code, at, n);
    }
    if n :| CodeEnds(fx, l, b, code, at, n) {
      var fuel := LoweredEndIsRight(fx, cs, params, locals, results, f, b, regs, w, n);
    }
  }

  // ------------------------------------------------------------------ bodies that need no check

  /**
   Every unconditional branch goes to the end of its own block, back to a loop, out of one, or
   out of the function; `free` says of each open label whether it is a loop or the function.
   */
  predicate Inward(cs: seq<Ctl>, free: seq<bool>)
    decreases cs
  {
    cs == [] || (InwardOne(cs[0], free) && Inward(cs[1..], free))
  }

  predicate InwardOne(c: Ctl, free: seq<bool>)
    decreases c
  {
    match c
    case Br(d) => d == 0 || (d < |free| && exists k :: |free| - 1 - d <= k < |free| && free[k])
    case Block(_, _, body) => Inward(body, free + [false])
    case Loop(_, _, body) => Inward(body, free + [true])
    case _ => true
  }

  ghost predicate FreeLabels(labels: seq<Label>, targets: seq<Target>, free: seq<bool>) {
    && |labels| == |targets| == |free|
    && forall k :: 0 <= k < |free| && free[k] ==> targets[k].ToIndex? || labels[k].base == 0
  }

  /** A branch to a loop, out of one, or out of the function is not outward, or has nothing below its label. */
  lemma InwardBranch(
    p: Pass, labels: seq<Label>, targets: seq<Target>, dests: seq<Dest>, d: nat, free: seq<bool>)
    requires Enters(p, labels, targets) && |dests| == |labels| && FreeLabels(labels, targets, free)
    requires BranchValid(labels, d, |p.sim.stack|) && InwardOne(Br(d), free)
    ensures Outward(targets, d) ==> StableAt(p.sim, DestAt(dests, d).sim, LabelAt(labels, d).base)
  {
    hide SimOk;
    if Outward(targets, d) {
      var k :| |free| - 1 - d <= k < |free| && free[k];
      assert TargetAt(targets, |free| - 1 - k).ToLabel?;
      assert labels[|labels| - 1 - d].base <= labels[k].base;
      assert p.sim.stack[..0] == DestAt(dests, d).sim.stack[..0];
    }
  }

  lemma {:induction false} InwardSeq(
    p: Pass, labels: seq<Label>, targets: seq<Target>, dests: seq<Dest>, cs: seq<Ctl>, free: seq<bool>)
    requires Enters(p, labels, targets) && |dests| == |labels| && FreeLabels(labels, targets, free)
    requires !HeightAfterSeq(cs, |p.sim.origin|, labels, |p.sim.stack|).Invalid? && Inward(cs, free)
    ensures StableSeq(p, labels, targets, dests, cs, false)
    decreases cs, 0
  {
    hide SimOk, LowerOne, StableOne, HeightAfterOne, Onward;
    if cs != [] && cs[0].Br? {
      InwardBranch(p, labels, targets, dests, cs[0].depth, free);
    } else if cs != [] && !cs[0].Unreachable? {
      InwardConstruct(p, labels, targets, dests, cs[0], free);
      var r := LowerOne(p, labels, targets, cs[0]);
      if r.Ok? {
        OnwardFacts(p, r.value, Innermost(labels).base);
        InwardSeq(r.value, labels, targets, dests, cs[1..], free);
      }
    }
  }

  lemma InwardConstruct(
    p: Pass, labels: seq<Label>, targets: seq<Target>, dests: seq<Dest>, c: Ctl, free: seq<bool>)
    requires Enters(p, labels, targets) && |dests| == |labels| && FreeLabels(labels, targets, free)
    requires HeightAfterOne(c, |p.sim.origin|, labels, |p.sim.stack|).Live? && InwardOne(c, free)
    ensures StableOne(p, labels, targets, dests, c, false)
    decreases c, 1
  {
    hide SimOk, StableBlock, StableLoop, Onward;
    match c
    case Block(params, results, body) =>
      InwardBlock(p, labels, targets, dests, params, Label(|p.sim.stack| - params, results, results), body, free);
    case Loop(params, results, body) =>
      InwardLoop(p, labels, targets, dests, params, Label(|p.sim.stack| - params, params, results), body, free);
    case _ =>
  }

  lemma InwardBlock(
    p: Pass, labels: seq<Label>, targets: seq<Target>, dests: seq<Dest>, params: nat, lab: Label, body: seq<Ctl>,
    free: seq<bool>)
    requires Enters(p, labels, targets) && |dests| == |labels| && FreeLabels(labels, targets, free)
    requires Innermost(labels).base <= lab.base == |p.sim.stack| - params && Inward(body, free + [false])
    requires Closed(HeightAfterSeq(body, |p.sim.origin|, labels + [lab], |p.sim.stack|), lab.base + lab.results).Live?
    ensures StableBlock(p, labels, targets, dests, params, lab, body, false)
    decreases body, 1
  {
    hide SimOk, HeightAfterSeq, EndOf, Onward;
    if MaterializeP(p, labels, params).Ok? {
      var p1 := MaterializeP(p, labels, params).value;
      OpenOk(p1, labels, lab);
      InwardSeq(p1, labels + [lab], targets + [ToLabel(|labels|)],
                dests + [EndOf(p1, labels, targets, lab, ToLabel(|labels|), body)], body, free + [false]);
    }
  }

  lemma InwardLoop(
    p: Pass, labels: seq<Label>, targets: seq<Target>, dests: seq<Dest>, params: nat, lab: Label, body: seq<Ctl>,
    free: seq<bool>)
    requires Enters(p, labels, targets) && |dests| == |labels| && FreeLabels(labels, targets, free)
    requires Innermost(labels).base <= lab.base == |p.sim.stack| - params && Inward(body, free + [true])
    requires Closed(HeightAfterSeq(body, |p.sim.origin|, labels + [lab], |p.sim.stack|), lab.base + lab.results).Live?
    ensures StableLoop(p, labels, targets, dests, params, lab, body, false)
    decreases body, 1
  {
    hide SimOk, HeightAfterSeq, Onward, LoopHead;
    LoopHeadOk(p, labels, params);
    if LoopHead(p, labels, params).Ok? {
      var p1 := LoopHead(p, labels, params).value;
      OpenOk(p1, labels, lab);
      InwardSeq(p1, labels + [lab], targets + [ToIndex(|p1.out| - 1)], dests + [Dest(|p1.out| - 1, p1.sim)], body,
        free + [true]);
    }
  }

  /** A body whose unconditional branches all go inward strands no operand. */
  lemma InwardBodiesAreSafe(cs: seq<Ctl>, locals: nat, results: nat)
    requires BodyValid(cs, locals, results) && BodyPasses(cs, locals, results).Ok? && Inward(cs, [true])
    ensures NoOperandStranded(cs, locals, results)
  {
    hide SimOk, StableSeq, BodyPasses, HeightAfterSeq;
    StartReady(locals, results);
    var p2 := BodyPasses(cs, locals, results).value.1;
    InwardSeq(StartPass(locals), FuncLabels(results), [ToLabel(0)], [Dest(|p2.out|, p2.sim)], cs, [true]);
  }
}
