/**
 Which branches can strand an operand: only an unconditional branch past its own block to the
 end of another, with no loop between.  Ahead of every other branch the pass has already
 rescued the borrows, or lowers nothing before the label's end.
 */
module BlockStability {
  import opened Values
  import opened BlockCode
  import opened RegisterLowering
  import opened LoweredBody
  import opened LoweringCorrect
  import opened BlockLowering
  import opened BlockCorrect
  import opened BlockRuns

  /** No operand below `h` is read from its local. */
  ghost predicate AllSpilled(s: Sim, h: nat) {
    && h <= |s.stack|
    && forall j :: 0 <= j < h && s.stack[j].SLocal? ==>
      s.stack[j].entry < |s.arena| && s.arena[s.stack[j].entry].location.Spilled?
  }

  ghost predicate LaterAt(s: Sim, t: Sim, h: nat) {
    Evolves(s, t) && h <= |s.stack| && h <= |t.stack| && t.stack[..h] == s.stack[..h]
  }

  /** The ends of the open blocks come later than `r`. */
  ghost predicate EndsLater(r: Sim, labels: seq<Label>, targets: seq<Target>, dests: seq<Dest>)
    requires |labels| == |targets| == |dests|
  {
    forall k :: 0 <= k < |labels| && targets[k].ToLabel? ==> LaterAt(r, dests[k].sim, labels[k].base)
  }

  /** The operands below the open loops are where the loops' heads look for them, and will stay there. */
  ghost predicate LoopsHeld(s: Sim, labels: seq<Label>, targets: seq<Target>, dests: seq<Dest>)
    requires |labels| == |targets| == |dests|
  {
    forall k :: 0 <= k < |labels| && targets[k].ToIndex? ==>
      StableAt(s, dests[k].sim, labels[k].base) && AllSpilled(dests[k].sim, labels[k].base)
  }

  // ------------------------------------------------------------------ stability of single steps

  /** What has been spilled stays where it is. */
  lemma SpilledStays(s: Sim, t: Sim, h: nat)
    requires LaterAt(s, t, h) && AllSpilled(s, h)
    ensures StableAt(s, t, h)
  {
  }

  lemma LaterTrans(s: Sim, t: Sim, u: Sim, h: nat)
    requires LaterAt(s, t, h) && LaterAt(t, u, h)
    ensures LaterAt(s, u, h)
  {
  }

  lemma LaterBelow(s: Sim, t: Sim, h: nat, h': nat)
    requires LaterAt(s, t, h') && h <= h'
    ensures LaterAt(s, t, h)
  {
    assert s.stack[..h'][..h] == s.stack[..h];
    assert t.stack[..h'][..h] == t.stack[..h];
  }

  lemma StableTrans(s: Sim, t: Sim, u: Sim, h: nat)
    requires StableAt(s, t, h) && StableAt(t, u, h)
    ensures StableAt(s, u, h)
  {
    assert forall j :: 0 <= j < h ==> t.stack[..h][j] == s.stack[..h][j];
  }

  lemma OnwardIsLater(p: Pass, r: Pass, h: nat)
    requires Onward(p, r, h)
    ensures LaterAt(p.sim, r.sim, h)
  {
  }

  /** Once no local is borrowed, every borrow has been spilled. */
  lemma NoOriginsLeft(s: Sim)
    requires SimOk(s) && forall i :: 0 <= i < |s.origin| ==> s.origin[i] == None
    ensures AllSpilled(s, |s.stack|)
  {
    forall j | 0 <= j < |s.stack| && s.stack[j].SLocal?
      ensures s.stack[j].entry < |s.arena| && s.arena[s.stack[j].entry].location.Spilled?
    {
      SourceBounds(s, j);
    }
  }

  /** Operands pushed, popped or moved: nothing changes its place. */
  ghost predicate SamePlaces(s: Sim, t: Sim) {
    |s.arena| <= |t.arena| && forall e :: 0 <= e < |s.arena| ==> t.arena[e].location == s.arena[e].location
  }

  lemma PlacesStable(s: Sim, t: Sim, h: nat)
    requires SimOk(s) && SamePlaces(s, t) && h <= |s.stack| && h <= |t.stack| && t.stack[..h] == s.stack[..h]
    ensures StableAt(s, t, h)
  {
    hide SimOk;
    EntriesExist(s);
  }

  lemma StagedPlaces(s: Sim, n: nat)
    requires SimOk(s) && n <= |s.stack| && (n != 0 ==> Materialize(s, n).Ok?)
    ensures SamePlaces(s, Staged(s, n))
  {
    hide SimOk, PushRegs;
    if n != 0 {
      var s1 := Pops(s, n);
      EntriesExist(s);
      var move := Move(Inputs(s, n), s1.currReg);
      EmitKeepsOk(s1, move);
      PushRegsKeepsOk(Emit(s1, move), n);
    }
  }

  lemma ResetPlaces(s: Sim, lab: Label)
    requires SimOk(s) && lab.base <= |s.stack| && ResetTo(s, lab).Ok?
    ensures SamePlaces(s, ResetTo(s, lab).value)
  {
    hide SimOk, PushRegs;
    PushRegsKeepsOk(Pops(s, |s.stack| - lab.base), lab.results);
  }

  // ------------------------------------------------------------------ along the pass

  lemma EndsLaterBack(p: Pass, r: Pass, labels: seq<Label>, targets: seq<Target>, dests: seq<Dest>)
    requires |labels| == |targets| == |dests| && PassOk(p, labels)
    requires Onward(p, r, Innermost(labels).base) && EndsLater(r.sim, labels, targets, dests)
    ensures EndsLater(p.sim, labels, targets, dests)
  {
    hide SimOk, Onward, LaterAt;
    OnwardIsLater(p, r, Innermost(labels).base);
    forall k | 0 <= k < |labels| && targets[k].ToLabel? ensures LaterAt(p.sim, dests[k].sim, labels[k].base) {
      LaterBelow(p.sim, r.sim, labels[k].base, Innermost(labels).base);
      LaterTrans(p.sim, r.sim, dests[k].sim, labels[k].base);
    }
  }

  lemma LoopsHeldOn(p: Pass, r: Pass, labels: seq<Label>, targets: seq<Target>, dests: seq<Dest>)
    requires |labels| == |targets| == |dests| && PassOk(p, labels)
    requires Onward(p, r, Innermost(labels).base) && LoopsHeld(p.sim, labels, targets, dests)
    ensures LoopsHeld(r.sim, labels, targets, dests)
  {
    hide SimOk, Onward, LaterAt, StableAt, AllSpilled;
    OnwardIsLater(p, r, Innermost(labels).base);
    forall k | 0 <= k < |labels| && targets[k].ToIndex? ensures StableAt(r.sim, dests[k].sim, labels[k].base) {
      var h := labels[k].base;
      LaterBelow(p.sim, r.sim, h, Innermost(labels).base);
      HeldStays(p.sim, r.sim, dests[k].sim, h);
    }
  }

  lemma HeldStays(s: Sim, r: Sim, t: Sim, h: nat)
    requires LaterAt(s, r, h) && StableAt(s, t, h) && AllSpilled(t, h)
    ensures StableAt(r, t, h)
  {
    assert forall j :: 0 <= j < h ==> t.stack[..h][j] == s.stack[..h][j] && r.stack[..h][j] == s.stack[..h][j];
  }

  /** A conditional branch: every borrow was rescued just before it. */
  lemma BrIfStable(p: Pass, labels: seq<Label>, targets: seq<Target>, dests: seq<Dest>, d: nat, r: Pass)
    requires Enters(p, labels, targets) && |dests| == |labels|
    requires 1 <= |p.sim.stack| && BranchValid(labels, d, |p.sim.stack| - 1)
    requires LowerBrIf(p, labels, targets, d) == Lowered<Pass>.Ok(r)
    requires EndsLater(r.sim, labels, targets, dests) && LoopsHeld(p.sim, labels, targets, dests)
    ensures StableBrIf(p, labels, dests, d)
  {
    hide SimOk, LaterAt, StableAt, AllSpilled, Onward;
    BranchFits(labels, d, |p.sim.stack| - 1);
    var p1 := SpillLive(p, labels).value;
    var s := Pops(p1.sim, 1);
    var k := |labels| - 1 - d;
    var h := labels[k].base;
    NoOriginsLeft(p1.sim);
    PoppedSpilled(p1.sim, s, h);
    if targets[k].ToLabel? {
      WidenedLater(s, r.sim, h);
      LaterTrans(s, r.sim, dests[k].sim, h);
      SpilledStays(s, dests[k].sim, h);
    } else {
      OnwardIsLater(p, p1, |p.sim.stack|);
      LaterBelow(p.sim, p1.sim, h, |p.sim.stack|);
      HeldStays(p.sim, p1.sim, dests[k].sim, h);
      PoppedStable(p1.sim, s, h);
      StableTrans(s, p1.sim, dests[k].sim, h);
    }
  }

  lemma PoppedSpilled(s: Sim, t: Sim, h: nat)
    requires SimOk(s) && s.stack != [] && t == Pops(s, 1) && h <= |s.stack| - 1 && AllSpilled(s, |s.stack|)
    ensures AllSpilled(t, h)
  {
    hide SimOk;
  }

  lemma PoppedStable(s: Sim, t: Sim, h: nat)
    requires SimOk(s) && s.stack != [] && t == Pops(s, 1) && h <= |s.stack| - 1
    ensures StableAt(t, s, h)
  {
    hide SimOk;
    EntriesExist(s);
  }

  lemma WidenedLater(s: Sim, t: Sim, h: nat)
    requires t == s.(maxReg := t.maxReg) && h <= |s.stack|
    ensures LaterAt(s, t, h)
  {
  }

  // ------------------------------------------------------------------ the other branches are always stable

  /** Where a loop's head looks for them, operands have been spilled; so they are spilled here. */
  lemma HeldSpilled(s: Sim, t: Sim, h: nat, h': nat)
    requires StableAt(s, t, h') && AllSpilled(t, h') && h <= h'
    ensures AllSpilled(s, h)
  {
    forall j | 0 <= j < h && s.stack[j].SLocal?
      ensures s.stack[j].entry < |s.arena| && s.arena[s.stack[j].entry].location.Spilled?
    {
      assert t.stack[..h'][j] == s.stack[..h'][j];
    }
  }

  /** A branch out of a loop: the loop's head rescued what lies below the branch's label. */
  lemma OutOfLoopStable(
    p: Pass, labels: seq<Label>, targets: seq<Target>, dests: seq<Dest>, d: nat, j: nat)
    requires PassOk(p, labels) && |targets| == |dests| == |labels| && j <= d < |labels|
    requires EndsLater(p.sim, labels, targets, dests) && LoopsHeld(p.sim, labels, targets, dests)
    requires TargetAt(targets, j).ToIndex? && TargetAt(targets, d).ToLabel?
    ensures StableAt(p.sim, DestAt(dests, d).sim, LabelAt(labels, d).base)
  {
    hide SimOk, StableAt, AllSpilled, LaterAt;
    var k, i := |labels| - 1 - d, |labels| - 1 - j;
    assert labels[k].base <= labels[i].base;
    HeldSpilled(p.sim, dests[i].sim, labels[k].base, labels[i].base);
    SpilledStays(p.sim, dests[k].sim, labels[k].base);
  }

  /** An unconditional branch that is not outward: back to a loop, out of one, or to the end of its own block. */
  lemma BrStable(p: Pass, labels: seq<Label>, targets: seq<Target>, dests: seq<Dest>, d: nat, r: Pass)
    requires Enters(p, labels, targets) && |dests| == |labels| && BranchValid(labels, d, |p.sim.stack|)
    requires LowerBr(p, labels, targets, d) == Lowered<Pass>.Ok(r) && !Outward(targets, d)
    requires EndsLater(p.sim, labels, targets, dests) && LoopsHeld(p.sim, labels, targets, dests)
    requires targets[|labels| - 1].ToLabel? ==> StableAt(r.sim, dests[|labels| - 1].sim, Innermost(labels).base)
    ensures StableAt(p.sim, DestAt(dests, d).sim, LabelAt(labels, d).base)
  {
    hide SimOk, StableAt, AllSpilled, Widen, ResetTo, Carried, LabelRegister, EndsLater;
    if d != 0 && TargetAt(targets, d).ToLabel? {
      var j :| 0 <= j <= d && TargetAt(targets, j).ToIndex?;
      OutOfLoopStable(p, labels, targets, dests, d, j);
    } else if d == 0 && targets[|labels| - 1].ToLabel? {
      var lab := Innermost(labels);
      var peak := LabelRegister(p.sim, lab.base) + lab.arity;
      BranchFits(labels, d, |p.sim.stack|);
      WidenOk(p.sim, peak);
      var s1 := Widen(p.sim, peak).value;
      ResetPlaces(s1, lab);
      PlacesStable(p.sim, r.sim, lab.base);
      StableTrans(p.sim, r.sim, dests[|labels| - 1].sim, lab.base);
    }
  }

  lemma {:induction false} PromoteSeq(p: Pass, labels: seq<Label>, targets: seq<Target>, dests: seq<Dest>,
    cs: seq<Ctl>, r: Pass)
    requires Enters(p, labels, targets) && |dests| == |labels|
    requires !HeightAfterSeq(cs, |p.sim.origin|, labels, |p.sim.stack|).Invalid?
    requires LowerSeq(p, labels, targets, cs) == Lowered<Pass>.Ok(r)
    requires EndsLater(r.sim, labels, targets, dests) && LoopsHeld(p.sim, labels, targets, dests)
    requires targets[|labels| - 1].ToLabel? ==> StableAt(r.sim, dests[|labels| - 1].sim, Innermost(labels).base)
    requires StableSeq(p, labels, targets, dests, cs, false)
    ensures StableSeq(p, labels, targets, dests, cs, true)
    decreases cs, 0
  {
    hide SimOk, StableAt, EndsLater, LoopsHeld, Onward, LowerOne, StableOne, HeightAfterOne, LowerBr;
    if cs == [] || cs[0].Unreachable? {
    } else if cs[0].Br? {
      if !Outward(targets, cs[0].depth) {
        LowerBrOk(p, labels, targets, cs[0].depth);
        EndsLaterBack(p, r, labels, targets, dests);
        BrStable(p, labels, targets, dests, cs[0].depth, r);
      }
    } else {
      var p1 := LowerOne(p, labels, targets, cs[0]).value;
      EndsLaterBack(p1, r, labels, targets, dests);
      PromoteOne(p, labels, targets, dests, cs[0], p1);
      LoopsHeldOn(p, p1, labels, targets, dests);
      OnwardFacts(p, p1, Innermost(labels).base);
      PromoteSeq(p1, labels, targets, dests, cs[1..], r);
    }
  }

  lemma PromoteOne(p: Pass, labels: seq<Label>, targets: seq<Target>, dests: seq<Dest>, c: Ctl, r: Pass)
    requires Enters(p, labels, targets) && |dests| == |labels|
    requires HeightAfterOne(c, |p.sim.origin|, labels, |p.sim.stack|).Live?
    requires LowerOne(p, labels, targets, c) == Lowered<Pass>.Ok(r)
    requires EndsLater(r.sim, labels, targets, dests) && LoopsHeld(p.sim, labels, targets, dests)
    requires StableOne(p, labels, targets, dests, c, false)
    ensures StableOne(p, labels, targets, dests, c, true)
    decreases c, 4
  {
    hide SimOk, StableAt, EndsLater, LoopsHeld, Onward, LowerBlock, LowerLoop, StableBlock, StableLoop, LowerBrIf,
         StableBrIf,
         LowerPlain;
    match c
    case Plain(_) =>
    case BrIf(d) => BrIfStable(p, labels, targets, dests, d, r);
    case Block(params, results, body) =>
      PromoteBlock(p, labels, targets, dests, params, Label(|p.sim.stack| - params, results, results), body, r);
    case Loop(params, results, body) =>
      PromoteLoop(p, labels, targets, dests, params, Label(|p.sim.stack| - params, params, results), body, r);
    case _ =>
  }

  lemma PromoteBlock(
    p: Pass, labels: seq<Label>, targets: seq<Target>, dests: seq<Dest>, params: nat, lab: Label, body: seq<Ctl>,
    r: Pass)
    requires Enters(p, labels, targets) && |dests| == |labels|
      && Innermost(labels).base <= lab.base == |p.sim.stack| - params
    requires Closed(HeightAfterSeq(body, |p.sim.origin|, labels + [lab], |p.sim.stack|), lab.base + lab.results).Live?
    requires LowerBlock(p, labels, targets, params, lab, body) == Lowered<Pass>.Ok(r)
    requires EndsLater(r.sim, labels, targets, dests) && LoopsHeld(p.sim, labels, targets, dests)
    requires StableBlock(p, labels, targets, dests, params, lab, body, false)
    ensures StableBlock(p, labels, targets, dests, params, lab, body, true)
    decreases body, 3
  {
    hide SimOk, StableAt, EndsLater, LoopsHeld, LowerInside, HeightAfterSeq, EndOf, StableInside, Onward;
    var p1 := MaterializeP(p, labels, params).value;
    OnwardBelow(p, p1, Innermost(labels).base, |p.sim.stack| - params);
    LoopsHeldOn(p, p1, labels, targets, dests);
    PromoteInside(p1, labels, targets, dests, lab, ToLabel(|labels|), body,
                  EndOf(p1, labels, targets, lab, ToLabel(|labels|), body), r);
  }

  lemma PromoteLoop(
    p: Pass, labels: seq<Label>, targets: seq<Target>, dests: seq<Dest>, params: nat, lab: Label, body: seq<Ctl>,
    r: Pass)
    requires Enters(p, labels, targets) && |dests| == |labels|
      && Innermost(labels).base <= lab.base == |p.sim.stack| - params
    requires Closed(HeightAfterSeq(body, |p.sim.origin|, labels + [lab], |p.sim.stack|), lab.base + lab.results).Live?
    requires LowerLoop(p, labels, targets, params, lab, body) == Lowered<Pass>.Ok(r)
    requires EndsLater(r.sim, labels, targets, dests) && LoopsHeld(p.sim, labels, targets, dests)
    requires StableLoop(p, labels, targets, dests, params, lab, body, false)
    ensures StableLoop(p, labels, targets, dests, params, lab, body, true)
    decreases body, 3
  {
    hide SimOk, StableAt, EndsLater, LoopsHeld, LowerInside, HeightAfterSeq, StableInside, Onward, LoopHead, AllSpilled;
    LoopHeadOk(p, labels, params);
    var p1 := LoopHead(p, labels, params).value;
    OnwardBelow(p, p1, Innermost(labels).base, |p.sim.stack| - params);
    LoopsHeldOn(p, p1, labels, targets, dests);
    HeadSettled(p, labels, params, p1);
    PromoteInside(p1, labels, targets, dests, lab, ToIndex(|p1.out| - 1), body, Dest(|p1.out| - 1, p1.sim), r);
  }

  /** At a loop's head every borrow below it has been spilled. */
  lemma HeadSettled(p: Pass, labels: seq<Label>, params: nat, p1: Pass)
    requires PassOk(p, labels) && Innermost(labels).base + params <= |p.sim.stack|
    requires LoopHead(p, labels, params) == Lowered<Pass>.Ok(p1)
    ensures AllSpilled(p1.sim, |p.sim.stack| - params) && StableAt(p1.sim, p1.sim, |p.sim.stack| - params)
  {
    hide SimOk, Onward, SpillLive, MaterializeP;
    var p0, q := HeadShape(p, labels, params, p1);
    NoOriginsLeft(p0.sim);
    StagedPlaces(p0.sim, params);
    SpilledThenPlaced(p0.sim, p1.sim, |p.sim.stack| - params);
  }

  lemma SpilledThenPlaced(s: Sim, t: Sim, h: nat)
    requires SimOk(s) && AllSpilled(s, |s.stack|) && SamePlaces(s, t) && h <= |s.stack| && h <= |t.stack|
    requires t.stack[..h] == s.stack[..h]
    ensures AllSpilled(t, h) && StableAt(t, t, h)
  {
    hide SimOk;
    assert forall j :: 0 <= j < h ==> t.stack[..h][j] == s.stack[..h][j];
  }

  lemma PromoteInside(
    p: Pass, labels: seq<Label>, targets: seq<Target>, dests: seq<Dest>, lab: Label, target: Target, body: seq<Ctl>,
    dest: Dest,
    r: Pass)
    requires Inside(p, labels, targets, lab, target, body) && |dests| == |labels|
    requires LowerInside(p, labels, targets, lab, target, body) == Lowered<Pass>.Ok(r)
    requires target.ToLabel? ==> dest == EndOf(p, labels, targets, lab, target, body)
    requires target.ToIndex? ==> StableAt(p.sim, dest.sim, lab.base) && AllSpilled(dest.sim, lab.base)
    requires EndsLater(r.sim, labels, targets, dests) && LoopsHeld(p.sim, labels, targets, dests)
    requires StableInside(p, labels, targets, dests, lab, target, body, dest, false)
    ensures StableInside(p, labels, targets, dests, lab, target, body, dest, true)
    decreases body, 1
  {
    hide SimOk, StableAt, LowerInside, HeightAfterSeq, EndOf, Onward, AllSpilled, StableSeq, LowerSeq, MaterializeP,
         LaterAt, PassOk;
    var q1, q2 := InsideShape(p, labels, targets, lab, target, body);
    EndStable(q1, q2, labels + [lab], lab);
    BasesBelow(p, labels, lab.base);
    EndsLaterInside(q1, q2, r, labels, targets, dests, lab, target, dest);
    LoopsHeldInside(p, labels, targets, dests, lab, target, dest);
    PromoteSeq(p, labels + [lab], targets + [target], dests + [dest], body, q1);
  }

  lemma BasesBelow(p: Pass, labels: seq<Label>, h: nat)
    requires PassOk(p, labels) && Innermost(labels).base <= h
    ensures forall k :: 0 <= k < |labels| ==> labels[k].base <= h
  {
  }

  lemma EndStable(q1: Pass, q2: Pass, labels: seq<Label>, lab: Label)
    requires PassOk(q1, labels) && Innermost(labels) == lab && |q1.sim.stack| == lab.base + lab.results
    requires MaterializeP(q1, labels, lab.results) == Lowered<Pass>.Ok(q2)
    ensures StableAt(q1.sim, q2.sim, lab.base) && LaterAt(q1.sim, q2.sim, lab.base)
  {
    hide SimOk;
    StagedPlaces(q1.sim, lab.results);
    PlacesStable(q1.sim, q2.sim, lab.base);
  }

  lemma EndsLaterInside(
    q1: Pass, q2: Pass, r: Pass, labels: seq<Label>, targets: seq<Target>, dests: seq<Dest>, lab: Label,
    target: Target, dest: Dest)
    requires |labels| == |targets| == |dests| && EndsLater(r.sim, labels, targets, dests) && r.sim == q2.sim
    requires LaterAt(q1.sim, q2.sim, lab.base) && (target.ToLabel? ==> dest.sim == q2.sim)
    requires forall k :: 0 <= k < |labels| ==> labels[k].base <= lab.base
    ensures EndsLater(q1.sim, labels + [lab], targets + [target], dests + [dest])
  {
    hide LaterAt;
    forall k | 0 <= k < |labels| + 1 && (targets + [target])[k].ToLabel?
      ensures LaterAt(q1.sim, (dests + [dest])[k].sim, (labels + [lab])[k].base)
    {
      if k < |labels| {
        LaterBelow(q1.sim, q2.sim, labels[k].base, lab.base);
        LaterTrans(q1.sim, q2.sim, dests[k].sim, labels[k].base);
      }
    }
  }

  lemma LoopsHeldInside(
    p: Pass, labels: seq<Label>, targets: seq<Target>, dests: seq<Dest>, lab: Label, target: Target, dest: Dest)
    requires |labels| == |targets| == |dests| && LoopsHeld(p.sim, labels, targets, dests)
    requires target.ToIndex? ==> StableAt(p.sim, dest.sim, lab.base) && AllSpilled(dest.sim, lab.base)
    ensures LoopsHeld(p.sim, labels + [lab], targets + [target], dests + [dest])
  {
    hide StableAt, AllSpilled;
  }
}
