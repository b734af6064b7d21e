/**
 The register machine on structured code: resolved branches, and runs by instruction index.
 */
module BlockMachine {
  import opened Values
  import opened RegisterLayout
  import opened StackCode
  import opened BlockCode
  import opened RegisterLowering
  import opened LoweredBody
  import opened BlockLowering

  datatype FrameCtl =
    | FDo(op: FrameOp)
    | FGoto(target: nat)
    | FBranch(cond: nat, inputs: seq<nat>, out: nat, target: nat)
    | FMark
    | FStop

  /** `env` gives the instruction each open label's end turned out to be. */
  function ResolveTarget(env: seq<nat>, t: Target): nat {
    match t
    case ToIndex(i) => i
    case ToLabel(k) => if k < |env| then env[k] else 0
  }

  function ResolveCtl(l: RegLayout, env: seq<nat>, op: CtlOp): FrameCtl {
    match op
    case Do(x) => FDo(Resolve(l, x))
    case Goto(t) => FGoto(ResolveTarget(env, t))
    case Branch(cond, inputs, out, t) =>
      FBranch(FrameIndex(l, cond), FrameIndices(l, inputs), out + |l.consts| + l.spills, ResolveTarget(env, t))
    case Mark => FMark
    case Stop => FStop
  }

  /** Where a run is. */
  datatype Point<+W> = At(pc: nat, regs: seq<Value>, world: W) | Halted(world: W)

  predicate BranchInRange(l: RegLayout, b: nat, op: FrameCtl, regs: seq<Value>)
    requires op.FBranch?
  {
    && op.cond < Width(l) && (forall j :: 0 <= j < |op.inputs| ==> op.inputs[j] < Width(l))
    && OperandStart(l) <= op.out && op.out + |op.inputs| <= Width(l) && b + Width(l) <= |regs|
  }

  /** One instruction; an index out of range, which the source turns into a panic, halts. */
  function CtlStep<W>(fx: FileEffects<W>, l: RegLayout, b: nat, code: seq<FrameCtl>, pt: Point<W>): Point<W> {
    if pt.Halted? || |code| <= pt.pc then pt
    else
      match code[pt.pc]
      case FDo(op) =>
        if !InRange(l, b, op, pt.regs) then Halted(pt.world)
        else
          match RegStep(fx, l, b, op, pt.regs, pt.world) {
            case Goes((regs, w)) => At(pt.pc + 1, regs, w)
            case Trapped(w) => Halted(w)
          }
      case FGoto(t) => At(t, pt.regs, pt.world)
      case FBranch(cond, inputs, out, t) =>
        if !BranchInRange(l, b, code[pt.pc], pt.regs) then Halted(pt.world)
        else if IsTrue(pt.regs[b + cond]) then At(t, Overwrite(pt.regs, b + out, Gather(pt.regs, b, inputs)), pt.world)
        else At(pt.pc + 1, pt.regs, pt.world)
      case FMark => At(pt.pc + 1, pt.regs, pt.world)
      case FStop => Halted(pt.world)
  }

  ghost function Steps<W>(fx: FileEffects<W>, l: RegLayout, b: nat, code: seq<FrameCtl>, n: nat,
    pt: Point<W>): Point<W> {
    if n == 0 then pt else Steps(fx, l, b, code, n - 1, CtlStep(fx, l, b, code, pt))
  }

  lemma {:induction false} StepsAdd<W>(fx: FileEffects<W>, l: RegLayout, b: nat, code: seq<FrameCtl>, m: nat, n: nat,
    pt: Point<W>)
    ensures Steps(fx, l, b, code, m + n, pt) == Steps(fx, l, b, code, n, Steps(fx, l, b, code, m, pt))
  {
    if m != 0 {
      StepsAdd(fx, l, b, code, m - 1, n, CtlStep(fx, l, b, code, pt));
    }
  }

  lemma {:induction false} HaltedStays<W>(fx: FileEffects<W>, l: RegLayout, b: nat, code: seq<FrameCtl>, n: nat, w: W)
    ensures Steps(fx, l, b, code, n, Point<W>.Halted(w)) == Halted(w)
  {
    if n != 0 {
      HaltedStays(fx, l, b, code, n - 1, w);
    }
  }

  /** The instructions from `lo` to `hi` are what the pass emitted there, resolved. */
  ghost predicate CodeAt(code: seq<FrameCtl>, l: RegLayout, env: seq<nat>, out: seq<CtlOp>, lo: nat, hi: nat) {
    && hi <= |out| && hi <= |code|
    && forall j :: lo <= j < hi ==> code[j] == ResolveCtl(l, env, out[j])
  }

  /** Straight-line instructions run as they do by themselves. */
  lemma {:induction false} RunsSegment<W>(
    fx: FileEffects<W>, l: RegLayout, b: nat, code: seq<FrameCtl>, at: nat, seg: seq<FrameOp>, regs: seq<Value>, w: W)
    returns (n: nat)
    requires AllInFrame(l, seg) && b + Width(l) <= |regs| && at + |seg| <= |code|
    requires forall j :: 0 <= j < |seg| ==> code[at + j] == FDo(seg[j])
    ensures Steps(fx, l, b, code, n, At(at, regs, w)) ==
      match RegRun(fx, l, b, seg, regs, w)
      case Goes((regs', w')) => At(at + |seg|, regs', w')
      case Trapped(w') => Halted(w')
    decreases |seg|
  {
    hide InFrame, RegStep, RegIntact;
    n := 0;
    if seg != [] {
      assert code[at + 0] == FDo(seg[0]);
      StepKeepsFile(fx, l, b, seg[0], regs, w);
      n := 1;
      match RegStep(fx, l, b, seg[0], regs, w) {
        case Trapped(w') => HaltedStays(fx, l, b, code, 0, w');
        case Goes((regs', w')) =>
          assert forall j :: 0 <= j < |seg| - 1 ==> seg[1..][j] == seg[j + 1] && code[at + 1 + j] == code[at + (j + 1)];
          n := RunsSegment(fx, l, b, code, at + 1, seg[1..], regs', w');
          n := n + 1;
      }
    }
  }
}
