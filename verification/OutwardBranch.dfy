/**
 The condition of `BlockBody` is needed: where it fails at a branch, the branch is wrong for
 some values, and there is a short body on which the lowered code answers with a slot nothing
 wrote.
 */
module OutwardBranch {
  import opened Values
  import opened RegisterLayout
  import opened StackCode
  import opened BlockCode
  import opened RegisterLowering
  import opened LoweredBody
  import opened LoweringCorrect
  import opened BlockLowering
  import opened BlockMachine
  import opened BlockCorrect
  import opened BlockRuns
  import opened BlockBody

  // ------------------------------------------------------------------ at one branch

  /** The file after a branch's move. */
  function AfterMove(s: Sim, lab: Label, l: RegLayout, b: nat, out: nat, regs: seq<Value>): seq<Value>
    requires lab.arity <= |s.stack| && forall j :: 0 <= j < |s.stack| && s.stack[j].SLocal? ==>
      s.stack[j].entry < |s.arena|
  {
    var inputs := FrameIndices(l, Inputs(s, lab.arity));
    if (forall j :: 0 <= j < |inputs| ==> b + inputs[j] < |regs|) && b + out + |inputs| <= |regs| then
      Overwrite(regs, b + out, Gather(regs, b, inputs))
    else regs
  }

  /** The branch leaves every frame as its destination describes it. */
  ghost predicate BranchRight(s: Sim, t: Sim, lab: Label, l: RegLayout)
    requires SimOk(s) && lab.base + lab.arity <= |s.stack|
  {
    EntriesExist(s);
    var out := LabelRegister(s, lab.base) + |l.consts| + l.spills;
    forall b, locals, stack, regs :: Rel(s, l, b, locals, stack, regs) ==>
      Rel(t, l, b, locals, stack[..lab.base] + stack[|stack| - lab.arity..], AfterMove(s, lab, l, b, out, regs))
  }

  /**
   A branch is right for all values if and only if every operand below its label is read from
   the same place before the branch and at its destination.
   */
  lemma BranchRightIffStable(s: Sim, t: Sim, lab: Label, l: RegLayout)
    requires SimOk(s) && Fits(s, l) && lab.base + lab.arity <= |s.stack|
    requires DestOk(Dest(0, t), lab, l) && Evolves(s, t) && t.stack[..lab.base] == s.stack[..lab.base]
    requires LabelRegister(s, lab.base) + lab.arity <= l.registers
    ensures BranchRight(s, t, lab, l) <==> StableAt(s, t, lab.base)
  {
    hide SimOk, Rel, Evolves;
    EntriesExist(s);
    if StableAt(s, t, lab.base) {
      StableIsRight(s, t, lab, l);
    } else {
      EntriesExist(t);
      var j :| 0 <= j < lab.base && s.stack[j].SLocal? &&
        t.arena[s.stack[j].entry].location != s.arena[s.stack[j].entry].location;
      MovedIsWrong(s, t, lab, l, j);
    }
  }

  lemma StableIsRight(s: Sim, t: Sim, lab: Label, l: RegLayout)
    requires SimOk(s) && Fits(s, l) && lab.base + lab.arity <= |s.stack|
    requires DestOk(Dest(0, t), lab, l) && StableAt(s, t, lab.base)
    requires LabelRegister(s, lab.base) + lab.arity <= l.registers
    ensures BranchRight(s, t, lab, l)
  {
    hide SimOk, Rel, StableAt, DestOk, AfterMove, LabelRegister, Inputs, Fits;
    EntriesExist(s);
    var out := LabelRegister(s, lab.base) + |l.consts| + l.spills;
    forall b, locals, stack, regs | Rel(s, l, b, locals, stack, regs) ensures |stack| == |s.stack| {
      FromRel(s, l, b, locals, stack, regs);
    }
    forall b, locals, stack, regs | Rel(s, l, b, locals, stack, regs)
      ensures Rel(t, l, b, locals, stack[..lab.base] + stack[|stack| - lab.arity..], AfterMove(s, lab, l, b, out, regs))
    {
      StableMove(s, t, lab, l, b, locals, stack, regs);
    }
  }

  lemma StableMove(
    s: Sim, t: Sim, lab: Label, l: RegLayout, b: nat, locals: seq<Value>, stack: seq<Value>, regs: seq<Value>)
    requires Rel(s, l, b, locals, stack, regs) && SimOk(s) && lab.base + lab.arity <= |s.stack| == |stack|
    requires DestOk(Dest(0, t), lab, l) && StableAt(s, t, lab.base)
    requires LabelRegister(s, lab.base) + lab.arity <= l.registers
    ensures forall j :: 0 <= j < |s.stack| && s.stack[j].SLocal? ==> s.stack[j].entry < |s.arena|
    ensures Rel(t, l, b, locals, stack[..lab.base] + stack[|stack| - lab.arity..],
                AfterMove(s, lab, l, b, LabelRegister(s, lab.base) + |l.consts| + l.spills, regs))
  {
    hide SimOk, Rel, StableAt, DestOk, Inputs;
    CarriedRel(s, lab, Dest(0, t), l, b, State(locals, stack, 0), regs);
  }

  /** A frame of zeros, with its constants in place and one more slot set. */
  function MarkedFrame(l: RegLayout, at: nat): (regs: seq<Value>)
    ensures |regs| == Width(l) && forall i :: 0 <= i < |regs| ==> regs[i] == MarkedSlot(l, at, i)
  {
    seq(Width(l), i requires 0 <= i < Width(l) => MarkedSlot(l, at, i))
  }

  function MarkedSlot(l: RegLayout, at: nat, i: nat): Value {
    if l.localsCount <= i < l.localsCount + |l.consts| then Untag(l.consts[i - l.localsCount])
    else if i == at then 1
    else 0
  }

  lemma MarkedIntact(l: RegLayout, at: nat)
    requires l.localsCount <= l.registers
    ensures RegIntact(l, 0, MarkedFrame(l, at))
  {
    var regs := MarkedFrame(l, at);
    assert regs[l.localsCount..l.localsCount + |l.consts|] == UntagAll(l.consts);
  }

  /** The operands a frame at 0 holds, as `s` describes them. */
  ghost function Held(s: Sim, l: RegLayout, regs: seq<Value>): (stack: seq<Value>)
    requires SimOk(s) && Fits(s, l) && |regs| == Width(l)
    ensures |stack| == |s.stack|
    ensures forall j :: 0 <= j < |s.stack| && (s.stack[j].SLocal? ==> s.stack[j].entry < |s.arena|) ==>
      Addr(s, l, j) < |regs| && stack[j] == regs[Addr(s, l, j)]
  {
    EntriesExist(s);
    AddrsBelow(s, l);
    seq(|s.stack|, j requires 0 <= j < |s.stack| => regs[Addr(s, l, j)])
  }

  lemma AddrsBelow(s: Sim, l: RegLayout)
    requires SimOk(s) && Fits(s, l)
    ensures forall j :: 0 <= j < |s.stack| && (s.stack[j].SLocal? ==> s.stack[j].entry < |s.arena|) ==>
      Addr(s, l, j) < Width(l)
  {
    hide SimOk;
    forall j | 0 <= j < |s.stack| && (s.stack[j].SLocal? ==> s.stack[j].entry < |s.arena|)
      ensures Addr(s, l, j) < Width(l)
    {
      AddrBelow(s, l, j);
    }
  }

  lemma MarkedRel(s: Sim, l: RegLayout, at: nat)
    requires SimOk(s) && Fits(s, l) && l.localsCount <= at
    ensures Rel(s, l, 0, seq(l.localsCount, _ => 0), Held(s, l, MarkedFrame(l, at)), MarkedFrame(l, at))
  {
    hide RegIntact, SpillsOk, OriginsOk, Count, Regs;
    MarkedIntact(l, at);
    EntriesExist(s);
  }

  /** An operand whose place changes can be told apart. */
  lemma MovedIsWrong(s: Sim, t: Sim, lab: Label, l: RegLayout, j: nat)
    requires SimOk(s) && Fits(s, l) && lab.base + lab.arity <= |s.stack|
    requires DestOk(Dest(0, t), lab, l) && Evolves(s, t) && t.stack[..lab.base] == s.stack[..lab.base]
    requires LabelRegister(s, lab.base) + lab.arity <= l.registers
    requires j < lab.base && s.stack[j].SLocal? && s.stack[j].entry < |s.arena|
    requires t.arena[s.stack[j].entry].location != s.arena[s.stack[j].entry].location
    ensures !BranchRight(s, t, lab, l)
  {
    hide SimOk, Rel, Inputs, DestOk, Fits, Held, AfterMove, MarkedFrame;
    EntriesExist(s);
    PlacesDiffer(s, t, lab, l, j);
    var at := Addr(t, l, j);
    var regs := MarkedFrame(l, at);
    MarkedRel(s, l, at);
    var locals: seq<Value> := seq(l.localsCount, _ => 0);
    var stack := Held(s, l, regs);
    var out := LabelRegister(s, lab.base) + |l.consts| + l.spills;
    var regs' := AfterMove(s, lab, l, 0, out, regs);
    var kept := stack[..lab.base] + stack[|stack| - lab.arity..];
    AfterMoveBelow(s, lab, l, 0, out, regs, at);
    assert regs[Addr(s, l, j)] == 0 && regs[at] == 1;
    assert kept[j] == stack[j] == 0;
    NotHeld(t, l, locals, kept, regs', j);
    assert Rel(s, l, 0, locals, stack, regs) && !Rel(t, l, 0, locals, kept, regs');
  }

  /** An operand read from its local before the branch and from a spill slot after it. */
  lemma PlacesDiffer(s: Sim, t: Sim, lab: Label, l: RegLayout, j: nat)
    requires SimOk(s) && Fits(s, l) && lab.base + lab.arity <= |s.stack|
    requires DestOk(Dest(0, t), lab, l) && Evolves(s, t) && t.stack[..lab.base] == s.stack[..lab.base]
    requires j < lab.base && s.stack[j].SLocal? && s.stack[j].entry < |s.arena|
    requires t.arena[s.stack[j].entry].location != s.arena[s.stack[j].entry].location
    ensures j < |t.stack| && t.stack[j] == s.stack[j] && s.stack[j].entry < |t.arena|
    ensures Addr(s, l, j) < l.localsCount
    ensures l.localsCount + |l.consts| <= Addr(t, l, j) < LabelRegister(s, lab.base) + |l.consts| + l.spills
    ensures Addr(t, l, j) < Width(l)
  {
    hide SimOk;
    assert t.stack[..lab.base][j] == s.stack[..lab.base][j];
    SourceBounds(s, j);
    SourceBounds(t, j);
    AddrBelow(t, l, j);
    LabelRegisterBound(s, lab.base);
  }

  /** A branch's move changes nothing below the label's registers. */
  lemma AfterMoveBelow(s: Sim, lab: Label, l: RegLayout, b: nat, out: nat, regs: seq<Value>, i: nat)
    requires lab.arity <= |s.stack| && forall j :: 0 <= j < |s.stack| && s.stack[j].SLocal? ==>
      s.stack[j].entry < |s.arena|
    requires i < b + out && i < |regs|
    ensures var r := AfterMove(s, lab, l, b, out, regs);
      |r| == |regs| && r[i] == regs[i]
  {
    hide Inputs;
  }

  lemma NotHeld(t: Sim, l: RegLayout, locals: seq<Value>, stack: seq<Value>, regs: seq<Value>, j: nat)
    requires j < |stack| && j < |t.stack| && (t.stack[j].SLocal? ==> t.stack[j].entry < |t.arena|)
    requires Addr(t, l, j) < |regs| && regs[Addr(t, l, j)] != stack[j]
    ensures !Rel(t, l, 0, locals, stack, regs)
  {
  }

  // ------------------------------------------------------------------ a body it goes wrong on

  /**
   Pushes local 0, leaves two blocks at once, and, after the inner block's end, where nothing
   ever arrives, overwrites local 0.  The body's result is the value pushed.
   */
  const STRANDING: seq<Ctl> := [
    Plain(LocalGet(0)),
    Block(0, 0, [Block(0, 0, [Br(1)]), Plain(Const(ValI32(5))), Plain(LocalSet(0))])
  ]

  const INNER: seq<Ctl> := [Block(0, 0, [Br(1)]), Plain(Const(ValI32(5))), Plain(LocalSet(0))]

  /** The pass after `local.get`: the operand is read from the local itself. */
  const BORROWED: Sim := Sim([SLocal(0)], 1, 1, [Entry(Original(0), 1)], [Some(0)], 0, [], [], [])

  /** The pass after the dead write: the operand is read from spill slot 0. */
  const REDIRECTED: Sim := Sim([SLocal(0)], 1, 1, [Entry(Spilled(0), 1)], [None], 1, [], [ValI32(5)], [])

  lemma StackMachineReturnsArgument<W>(fx: Effects<W>, v: Value, w: W, fuel: nat)
    ensures RunSeq(fx, fuel, STRANDING, State([v], [], w)) == Flow<W>.Fall(State([v], [v], w))
  {
    var st := State([v], [v], w);
    RunsAway(fx, fuel, Br(1), st);
    assert RunSeq(fx, fuel, [Br(1)], st) == Flow<W>.Jump(1, st);
    assert RunOne(fx, fuel, Block(0, 0, [Br(1)]), st) == Flow<W>.Jump(0, st);
    assert RunSeq(fx, fuel, INNER, st) == Flow<W>.Jump(0, st);
    assert Unwind(st, 1, 0) == st;
    assert RunOne(fx, fuel, Block(0, 0, INNER), st) == Flow<W>.Fall(st);
    assert RunSeq(fx, fuel, [Block(0, 0, INNER)], st) == RunSeq(fx, fuel, [], st);
    var st0 := State([v], [], w);
    assert st0.stack + [st0.locals[0]] == [v];
    assert StackStep(fx, LocalGet(0), st0) == Outcome<State<W>, W>.Goes(st);
    assert RunOne(fx, fuel, Plain(LocalGet(0)), st0) == Flow<W>.Fall(st);
    assert STRANDING[0] == Plain(LocalGet(0)) && STRANDING[1..] == [Block(0, 0, INNER)];
  }

  const FUNC: seq<Label> := [Label(0, 1, 1)]
  const OUTER: seq<Label> := [Label(0, 1, 1), Label(1, 0, 0)]
  const DEEP: seq<Label> := [Label(0, 1, 1), Label(1, 0, 0), Label(1, 0, 0)]

  lemma InnerValid()
    ensures HeightAfterSeq([Br(1)], 1, DEEP, 1) == Dead
    ensures HeightAfterSeq(INNER, 1, OUTER, 1) == Live(1)
    ensures HeightAfterSeq(INNER[1..], 1, OUTER, 1) == Live(1)
  {
    assert OUTER + [Label(1, 0, 0)] == DEEP;
    assert HeightAfterOne(Block(0, 0, [Br(1)]), 1, OUTER, 1) == Live(1);
    var rest := INNER[1..];
    assert rest == [Plain(Const(ValI32(5))), Plain(LocalSet(0))] && rest[1..] == [Plain(LocalSet(0))]
      && rest[1..][1..] == [];
    assert HeightAfterSeq(rest[1..], 1, OUTER, 2) == HeightAfterSeq([], 1, OUTER, 1);
    assert HeightAfterSeq(rest, 1, OUTER, 1) == HeightAfterSeq(rest[1..], 1, OUTER, 2);
    assert HeightAfterSeq(INNER, 1, OUTER, 1) == HeightAfterSeq(rest, 1, OUTER, 1);
  }

  lemma BlockOfInner()
    ensures HeightAfterOne(Block(0, 0, INNER), 1, FUNC, 1) == Live(1)
  {
    hide HeightAfterSeq;
    InnerValid();
    assert FUNC + [Label(1, 0, 0)] == OUTER;
  }

  lemma StrandingValid()
    ensures BodyValid(STRANDING, 1, 1)
    ensures HeightAfterSeq([Br(1)], 1, DEEP, 1) == Dead
    ensures HeightAfterSeq(INNER, 1, OUTER, 1) == Live(1)
    ensures HeightAfterSeq(INNER[1..], 1, OUTER, 1) == Live(1)
    ensures HeightAfterSeq(STRANDING[1..], 1, FUNC, 1) == Live(1)
  {
    InnerValid();
    BlockOfInner();
    assert STRANDING[1..] == [Block(0, 0, INNER)] && STRANDING[1..][1..] == [];
    assert HeightAfterSeq(STRANDING[1..], 1, FUNC, 1) == HeightAfterSeq([], 1, FUNC, 1);
    assert HeightAfterSeq(STRANDING, 1, FUNC, 0) == HeightAfterSeq(STRANDING[1..], 1, FUNC, 1);
  }

  lemma BorrowedIs()
    ensures SimOk(Start(1)) && PushLocal(Start(1), 0) == BORROWED
  {
    hide SimOk;
    StartOk(1);
    assert [None][0 := Some(0)] == [Some(0)];
    assert Start(1).origin == [None];
  }

  lemma BorrowedOk()
    ensures SimOk(BORROWED) && SimOk(Start(1)) && PushLocal(Start(1), 0) == BORROWED
    ensures Pops(BORROWED, 0) == BORROWED
  {
    hide SimOk, PushLocal;
    BorrowedIs();
    PushLocalKeepsOk(Start(1), 0);
  }

  const TO_OUTER: seq<Target> := [ToLabel(0), ToLabel(1)]
  const TO_DEEP: seq<Target> := [ToLabel(0), ToLabel(1), ToLabel(2)]

  lemma BranchLowered()
    ensures var p := Pass(BORROWED, []);
      && Enters(p, DEEP, TO_DEEP) && BranchValid(DEEP, 1, 1)
      && LowerBr(p, DEEP, TO_DEEP, 1) == Lowered<Pass>.Ok(Pass(BORROWED, [Goto(ToLabel(1))]))
  {
    BorrowedOk();
    hide SimOk;
    var lab := Label(1, 0, 0);
    EntriesExist(BORROWED);
    assert Inputs(BORROWED, 0) == [];
    assert Wrapped([]) == [];
    assert Carried(BORROWED, lab, ToLabel(1)) == [Goto(ToLabel(1))];
    assert LabelRegister(BORROWED, 1) == 1;
    assert PushRegs(BORROWED, 0) == Lowered<Sim>.Ok(BORROWED);
    assert ResetTo(BORROWED, lab) == Lowered<Sim>.Ok(BORROWED);
    assert LabelAt(DEEP, 1) == lab && Innermost(DEEP) == lab && TargetAt(TO_DEEP, 1) == ToLabel(1);
    assert [] + [Goto(ToLabel(1))] == [Goto(ToLabel(1))];
  }

  const P1: Pass := Pass(BORROWED, [Goto(ToLabel(1))])
  const P2: Pass := Pass(BORROWED, [Goto(ToLabel(1)), Mark])

  lemma InnerEnd()
    ensures PassOk(P1, DEEP) && Close(P1, DEEP) == Lowered<Pass>.Ok(P2)
  {
    BranchLowered();
    hide SimOk, LowerBr;
    assert PatchAll(P1.out, 2, 1) == P1.out && P1.out + [Mark] == P2.out;
    assert MaterializeP(P1, DEEP, 0) == Lowered<Pass>.Ok(P1);
  }

  lemma InnerBody()
    ensures Enters(Pass(BORROWED, []), DEEP, TO_DEEP) && HeightAfterSeq([Br(1)], 1, DEEP, 1) == Dead
    ensures LowerSeq(Pass(BORROWED, []), DEEP, TO_DEEP, [Br(1)]) == Lowered<Pass>.Ok(P1)
  {
    StrandingValid();
    BranchLowered();
    hide SimOk, LowerBr;
  }

  /** The inner block: its branch, and its end, which nothing reaches. */
  lemma InnerBlockLowered()
    ensures Enters(Pass(BORROWED, []), OUTER, TO_OUTER) && HeightAfterOne(Block(0, 0, [Br(1)]), 1, OUTER, 1).Live?
    ensures LowerOne(Pass(BORROWED, []), OUTER, TO_OUTER, Block(0, 0, [Br(1)])) == Lowered<Pass>.Ok(P2)
  {
    hide Enters, PassOk, LowerSeq, Close, HeightAfterSeq, LowerOne, HeightAfterOne, SimOk;
    BorrowedInOuter();
    InnerBody();
    InnerEnd();
    assert OUTER + [Label(1, 0, 0)] == DEEP && TO_OUTER + [ToLabel(2)] == TO_DEEP;
    BlockIs(Pass(BORROWED, []), OUTER, TO_OUTER, Label(1, 0, 0), [Br(1)], DEEP, TO_DEEP, P1, P2);
  }

  lemma BorrowedInOuter()
    ensures Enters(Pass(BORROWED, []), OUTER, TO_OUTER)
  {
    BorrowedOk();
    hide SimOk;
  }

  /** A block without parameters, from its body and its end. */
  lemma BlockIs(
    p: Pass, labels: seq<Label>, targets: seq<Target>, lab: Label, body: seq<Ctl>,
    inner: seq<Label>, innerTargets: seq<Target>, p1: Pass, p2: Pass)
    requires Enters(p, labels, targets) && Innermost(labels).base <= lab.base == |p.sim.stack|
      && lab.arity == lab.results
    requires inner == labels + [lab] && innerTargets == targets + [ToLabel(|labels|)] && Enters(p, inner, innerTargets)
    requires Closed(HeightAfterSeq(body, |p.sim.origin|, inner, |p.sim.stack|), lab.base + lab.results).Live?
    requires LowerSeq(p, inner, innerTargets, body) == Lowered<Pass>.Ok(p1)
    requires PassOk(p1, inner) && |p1.sim.stack| == lab.base + lab.results
    requires Close(p1, inner) == Lowered<Pass>.Ok(p2)
    ensures HeightAfterOne(Block(0, lab.results, body), |p.sim.origin|, labels, |p.sim.stack|).Live?
    ensures LowerOne(p, labels, targets, Block(0, lab.results, body)) == Lowered<Pass>.Ok(p2)
  {
    LowerInsideIs(p, labels, targets, lab, body, inner, innerTargets, p1, p2);
    hide PassOk, LowerInside, HeightAfterSeq, LowerSeq, Close, LowerOne, HeightAfterOne, LowerBlock;
    BlockHeight(p, labels, lab, body);
    LowerBlockIs(p, labels, targets, lab, body, p2);
  }

  lemma BlockHeight(p: Pass, labels: seq<Label>, lab: Label, body: seq<Ctl>)
    requires labels != [] && Innermost(labels).base <= lab.base == |p.sim.stack| && lab.arity == lab.results
    requires Closed(HeightAfterSeq(body, |p.sim.origin|, labels + [lab], |p.sim.stack|), lab.base + lab.results).Live?
    ensures HeightAfterOne(Block(0, lab.results, body), |p.sim.origin|, labels, |p.sim.stack|).Live?
  {
    hide HeightAfterSeq;
    assert lab == Label(|p.sim.stack| - 0, lab.results, lab.results);
  }

  lemma LowerBlockIs(p: Pass, labels: seq<Label>, targets: seq<Target>, lab: Label, body: seq<Ctl>, p2: Pass)
    requires Enters(p, labels, targets) && Innermost(labels).base <= lab.base == |p.sim.stack|
      && lab.arity == lab.results
    requires Closed(HeightAfterSeq(body, |p.sim.origin|, labels + [lab], |p.sim.stack|), lab.base + lab.results).Live?
    requires LowerInside(p, labels, targets, lab, ToLabel(|labels|), body) == Lowered<Pass>.Ok(p2)
    requires HeightAfterOne(Block(0, lab.results, body), |p.sim.origin|, labels, |p.sim.stack|).Live?
    ensures LowerOne(p, labels, targets, Block(0, lab.results, body)) == Lowered<Pass>.Ok(p2)
  {
    hide PassOk, LowerInside, HeightAfterSeq, HeightAfterOne, LowerOne, StableOne, StableBlock;
    OneIsBlock(p, labels, targets, seq(|labels|, _ => Dest(0, p.sim)), 0, lab, body, true);
    NothingToMaterialize(p, labels);
  }

  lemma NothingToMaterialize(p: Pass, labels: seq<Label>)
    requires PassOk(p, labels)
    ensures MaterializeP(p, labels, 0) == Lowered<Pass>.Ok(p)
  {
  }

  lemma LowerInsideIs(
    p: Pass, labels: seq<Label>, targets: seq<Target>, lab: Label, body: seq<Ctl>,
    inner: seq<Label>, innerTargets: seq<Target>, p1: Pass, p2: Pass)
    requires Enters(p, labels, targets) && Innermost(labels).base <= lab.base <= |p.sim.stack|
    requires inner == labels + [lab] && innerTargets == targets + [ToLabel(|labels|)] && Enters(p, inner, innerTargets)
    requires Closed(HeightAfterSeq(body, |p.sim.origin|, inner, |p.sim.stack|), lab.base + lab.results).Live?
    requires LowerSeq(p, inner, innerTargets, body) == Lowered<Pass>.Ok(p1)
    requires PassOk(p1, inner) && |p1.sim.stack| == lab.base + lab.results
    requires Close(p1, inner) == Lowered<Pass>.Ok(p2)
    ensures LowerInside(p, labels, targets, lab, ToLabel(|labels|), body) == Lowered<Pass>.Ok(p2)
  {
    hide SimOk, LowerSeq, Close, HeightAfterSeq;
  }

  const WITH_CONST: Sim := Sim([SLocal(0), SConst(0)], 1, 1, [Entry(Original(0), 1)], [Some(0)], 0, [], [ValI32(5)], [])
  const RESCUED: Sim :=
    Sim([SLocal(0), SConst(0)], 1, 1, [Entry(Spilled(0), 1)], [None], 1, [], [ValI32(5)], [RegOp.Spill(0, 0)])

  lemma ConstLowered()
    ensures SimOk(BORROWED) && LowerOp(BORROWED, Const(ValI32(5))) == Lowered<Sim>.Ok(WITH_CONST) && SimOk(WITH_CONST)
  {
    BorrowedOk();
    hide Count, Regs, SpillsOk, OriginsOk;
    PushConstKeepsOk(BORROWED, ValI32(5));
    assert [] + [ValI32(5)] == [ValI32(5)] && [SLocal(0)] + [SConst(0)] == [SLocal(0), SConst(0)];
    assert PushConst(BORROWED, ValI32(5)) == Lowered<Sim>.Ok(WITH_CONST);
  }

  lemma RescueLowered()
    ensures SimOk(WITH_CONST) && Rescue(WITH_CONST, 0) == Lowered<Sim>.Ok(RESCUED) && SimOk(RESCUED)
  {
    ConstLowered();
    hide Count, Regs, SpillsOk, StackOk;
    RescueKeepsOk(WITH_CONST, 0);
    assert [] + [RegOp.Spill(0, 0)] == [RegOp.Spill(0, 0)];
    assert WITH_CONST.arena[0 := Entry(Spilled(0), 1)] == RESCUED.arena
      && WITH_CONST.origin[0 := None] == RESCUED.origin;
    assert Rescue(WITH_CONST, 0) == Lowered<Sim>.Ok(RESCUED);
  }

  /** The dead write: the borrow is rescued by a copy nothing will make. */
  lemma DeadWriteLowered()
    ensures SimOk(WITH_CONST) && Valid(LocalSet(0), 1, 2)
    ensures LowerOp(WITH_CONST, LocalSet(0)) ==
            Lowered<Sim>.Ok(REDIRECTED.(code := [RegOp.Spill(0, 0), RegOp.SetLocal(0, FromConst(0))]))
  {
    RescueLowered();
    hide SimOk, Rescue;
    EntriesExist(WITH_CONST);
    EntriesExist(RESCUED);
    PopKeepsOk(RESCUED);
    assert Inputs(RESCUED, 1) == [FromConst(0)];
    assert RESCUED.stack[..1] == [SLocal(0)];
    assert PopSlot(RESCUED) == REDIRECTED.(code := [RegOp.Spill(0, 0)]);
    assert Pops(RESCUED, 1) == Pops(PopSlot(RESCUED), 0);
    assert [RegOp.Spill(0, 0)] + [RegOp.SetLocal(0, FromConst(0))]
      == [RegOp.Spill(0, 0), RegOp.SetLocal(0, FromConst(0))];
  }

  lemma LowerSeqIs(p: Pass, labels: seq<Label>, targets: seq<Target>, c: Ctl, rest: seq<Ctl>, p1: Pass, r: Pass)
    requires Enters(p, labels, targets) && HeightAfterOne(c, |p.sim.origin|, labels, |p.sim.stack|).Live?
    requires !c.Br? && !c.Unreachable? && LowerOne(p, labels, targets, c) == Lowered<Pass>.Ok(p1)
    requires Enters(p1, labels, targets) && !HeightAfterSeq(rest, |p1.sim.origin|, labels, |p1.sim.stack|).Invalid?
    requires |p1.sim.origin| == |p.sim.origin|
    requires LowerSeq(p1, labels, targets, rest) == Lowered<Pass>.Ok(r)
    ensures HeightAfterSeq([c] + rest, |p.sim.origin|, labels, |p.sim.stack|) ==
            HeightAfterSeq(rest, |p1.sim.origin|, labels, |p1.sim.stack|)
    ensures LowerSeq(p, labels, targets, [c] + rest) == Lowered<Pass>.Ok(r)
  {
    hide SimOk, LowerOne, HeightAfterOne;
    assert ([c] + rest)[0] == c && ([c] + rest)[1..] == rest;
  }

  lemma LowerPlainIs(p: Pass, labels: seq<Label>, targets: seq<Target>, op: Op, s: Sim, r: Pass)
    requires Enters(p, labels, targets) && HeightAfterOne(Plain(op), |p.sim.origin|, labels, |p.sim.stack|).Live?
    requires Valid(op, |p.sim.origin|, |p.sim.stack|) && LowerOp(p.sim, op) == Lowered<Sim>.Ok(s)
    requires r.out == p.out + Wrapped(s.code) && r.sim == s.(code := [])
    ensures LowerOne(p, labels, targets, Plain(op)) == Lowered<Pass>.Ok(r) && Enters(r, labels, targets)
  {
    hide SimOk, LowerOp;
    assert LowerPlain(p, labels, op) == Lowered<Pass>.Ok(r);
  }

  lemma CloseIs(p: Pass, labels: seq<Label>, r: Pass)
    requires PassOk(p, labels) && 2 <= |labels| && Innermost(labels).results == 0
      && |p.sim.stack| == Innermost(labels).base
    requires r.sim == p.sim && r.out == PatchAll(p.out, |labels| - 1, |p.out|) + [Mark]
    ensures Close(p, labels) == Lowered<Pass>.Ok(r) && PassOk(r, labels[..|labels| - 1])
  {
    hide SimOk;
    assert MaterializeP(p, labels, 0) == Lowered<Pass>.Ok(p);
  }

  const P3: Pass := Pass(REDIRECTED,
    [Goto(ToLabel(1)), Mark, Do(RegOp.Spill(0, 0)), Do(RegOp.SetLocal(0, FromConst(0)))])

  lemma ConstInOuter()
    ensures Enters(P2, OUTER, TO_OUTER) && Enters(Pass(WITH_CONST, P2.out), OUTER, TO_OUTER)
    ensures HeightAfterOne(Plain(Const(ValI32(5))), 1, OUTER, 1).Live?
    ensures LowerOne(P2, OUTER, TO_OUTER, Plain(Const(ValI32(5)))) == Lowered<Pass>.Ok(Pass(WITH_CONST, P2.out))
  {
    ConstLowered();
    hide SimOk, LowerOp;
    assert P2.out + Wrapped([]) == P2.out;
    assert LowerPlain(P2, OUTER, Const(ValI32(5))) == Lowered<Pass>.Ok(Pass(WITH_CONST, P2.out));
  }

  lemma WriteInOuter()
    ensures Enters(Pass(WITH_CONST, P2.out), OUTER, TO_OUTER) && HeightAfterOne(Plain(LocalSet(0)), 1, OUTER, 2).Live?
    ensures LowerOne(Pass(WITH_CONST, P2.out), OUTER, TO_OUTER, Plain(LocalSet(0))) == Lowered<Pass>.Ok(P3)
    ensures Enters(P3, OUTER, TO_OUTER)
  {
    ConstLowered();
    DeadWriteLowered();
    hide SimOk, LowerOp, LowerOne;
    ConstInOuter();
    var s := REDIRECTED.(code := [RegOp.Spill(0, 0), RegOp.SetLocal(0, FromConst(0))]);
    assert P2.out + Wrapped(s.code) == P3.out;
    LowerPlainIs(Pass(WITH_CONST, P2.out), OUTER, TO_OUTER, LocalSet(0), s, P3);
  }

  lemma InnerLowered()
    ensures Enters(Pass(BORROWED, []), OUTER, TO_OUTER) && HeightAfterSeq(INNER, 1, OUTER, 1) == Live(1)
    ensures LowerSeq(Pass(BORROWED, []), OUTER, TO_OUTER, INNER) == Lowered<Pass>.Ok(P3) && PassOk(P3, OUTER)
  {
    InnerBlockLowered();
    ConstInOuter();
    WriteInOuter();
    hide SimOk, LowerOne, HeightAfterOne;
    var write, const5 := Plain(LocalSet(0)), Plain(Const(ValI32(5)));
    assert LowerSeq(P3, OUTER, TO_OUTER, []) == Lowered<Pass>.Ok(P3);
    LowerSeqIs(Pass(WITH_CONST, P2.out), OUTER, TO_OUTER, write, [], P3, P3);
    assert [write] + [] == [write];
    LowerSeqIs(P2, OUTER, TO_OUTER, const5, [write], Pass(WITH_CONST, P2.out), P3);
    assert [const5] + [write] == [const5, write];
    LowerSeqIs(Pass(BORROWED, []), OUTER, TO_OUTER, Block(0, 0, [Br(1)]), [const5, write], P2, P3);
    assert [Block(0, 0, [Br(1)])] + [const5, write] == INNER;
  }

  const P4: Pass := Pass(REDIRECTED,
    [Goto(ToIndex(4)), Mark, Do(RegOp.Spill(0, 0)), Do(RegOp.SetLocal(0, FromConst(0))), Mark])
  const TO_FUNC: seq<Target> := [ToLabel(0)]

  lemma OuterBlockLowered()
    ensures Enters(Pass(BORROWED, []), FUNC, TO_FUNC) && HeightAfterOne(Block(0, 0, INNER), 1, FUNC, 1).Live?
    ensures LowerOne(Pass(BORROWED, []), FUNC, TO_FUNC, Block(0, 0, INNER)) == Lowered<Pass>.Ok(P4)
    ensures Enters(P4, FUNC, TO_FUNC)
  {
    hide Enters, PassOk, LowerSeq, HeightAfterSeq, LowerOne, Close, HeightAfterOne, SimOk, Onward, LowerInside;
    InnerLowered();
    GetInFunc();
    OuterEnd();
    assert FUNC + [Label(1, 0, 0)] == OUTER && TO_FUNC + [ToLabel(1)] == TO_OUTER;
    BlockIs(Pass(BORROWED, []), FUNC, TO_FUNC, Label(1, 0, 0), INNER, OUTER, TO_OUTER, P3, P4);
  }

  lemma OuterEnd()
    ensures PassOk(P3, OUTER) && Close(P3, OUTER) == Lowered<Pass>.Ok(P4)
    ensures Enters(P4, FUNC, TO_FUNC)
  {
    InnerLowered();
    hide PassOk, LowerSeq;
    var r := PatchAll(P3.out, 1, 4) + [Mark];
    assert r[0] == Goto(ToIndex(4)) && r[1] == Mark && r[2] == P3.out[2] && r[3] == P3.out[3] && r[4] == Mark;
    assert r == P4.out;
    CloseIs(P3, OUTER, P4);
    assert OUTER[..1] == FUNC;
  }

  lemma StrandingBody()
    ensures Enters(StartPass(1), FUNC, TO_FUNC) && HeightAfterSeq(STRANDING, 1, FUNC, 0) == Live(1)
    ensures LowerSeq(StartPass(1), FUNC, TO_FUNC, STRANDING) == Lowered<Pass>.Ok(P4) && PassOk(P4, FUNC)
  {
    OuterBlockLowered();
    GetInFunc();
    hide SimOk, PassOk, LowerOne, HeightAfterOne;
    assert LowerSeq(P4, FUNC, TO_FUNC, []) == Lowered<Pass>.Ok(P4);
    LowerSeqIs(Pass(BORROWED, []), FUNC, TO_FUNC, Block(0, 0, INNER), [], P4, P4);
    assert [Block(0, 0, INNER)] + [] == [Block(0, 0, INNER)];
    LowerSeqIs(StartPass(1), FUNC, TO_FUNC, Plain(LocalGet(0)), [Block(0, 0, INNER)], Pass(BORROWED, []), P4);
    assert [Plain(LocalGet(0))] + [Block(0, 0, INNER)] == STRANDING;
  }

  lemma GetInFunc()
    ensures Enters(StartPass(1), FUNC, TO_FUNC) && HeightAfterOne(Plain(LocalGet(0)), 1, FUNC, 0).Live?
    ensures |Start(1).origin| == 1 && Enters(Pass(BORROWED, []), FUNC, TO_FUNC)
    ensures LowerOne(StartPass(1), FUNC, TO_FUNC, Plain(LocalGet(0))) == Lowered<Pass>.Ok(Pass(BORROWED, []))
  {
    StartReady(1, 1);
    GetLowered();
    hide PassOk, LowerOne, LowerOp;
    assert [] + Wrapped([]) == [];
    LowerPlainIs(StartPass(1), FUNC, TO_FUNC, LocalGet(0), BORROWED, Pass(BORROWED, []));
  }

  lemma GetLowered()
    ensures SimOk(Start(1)) && |Start(1).origin| == 1 && Start(1).stack == []
    ensures LowerOp(Start(1), LocalGet(0)) == Lowered<Sim>.Ok(BORROWED)
  {
    BorrowedOk();
    hide SimOk, PushLocal;
  }

  const FINISHED: Sim :=
    Sim([SReg(1)], 2, 2, [Entry(Spilled(0), 0)], [None], 1, [0], [ValI32(5)], [Move([FromSpill(0)], 1)])
  const P5: Pass := Pass(FINISHED.(code := []),
    [Goto(ToIndex(4)), Mark, Do(RegOp.Spill(0, 0)), Do(RegOp.SetLocal(0, FromConst(0))), Mark,
      Do(Move([FromSpill(0)], 1))])

  /** The pass with its last operand consumed. */
  const EMPTIED: Sim := Sim([], 1, 1, [Entry(Spilled(0), 0)], [None], 1, [0], [ValI32(5)], [])

  lemma ResultPopped()
    ensures SimOk(REDIRECTED) && Pops(REDIRECTED, 1) == EMPTIED && Inputs(REDIRECTED, 1) == [FromSpill(0)]
    ensures forall j :: 0 <= j < |REDIRECTED.stack| && REDIRECTED.stack[j].SLocal? ==>
      REDIRECTED.stack[j].entry < |REDIRECTED.arena|
  {
    StrandingBody();
    hide SimOk, LowerSeq;
    PopKeepsOk(REDIRECTED);
    EntriesExist(REDIRECTED);
    assert REDIRECTED.arena[0 := Entry(Spilled(0), 0)] == EMPTIED.arena && [] + [0] == [0];
    assert PopSlot(REDIRECTED) == EMPTIED;
    assert Pops(REDIRECTED, 1) == Pops(EMPTIED, 0);
  }

  lemma ResultMoved()
    ensures SimOk(REDIRECTED) && Materialize(REDIRECTED, 1) == Lowered<Sim>.Ok(FINISHED)
  {
    ResultPopped();
    hide SimOk, Pops, Inputs;
    var s2 := EMPTIED.(code := [Move([FromSpill(0)], 1)]);
    assert EMPTIED.code + [Move([FromSpill(0)], 1)] == s2.code && EMPTIED.stack + [SReg(1)] == [SReg(1)];
    assert PushReg(s2) == Lowered<Sim>.Ok(FINISHED);
    assert PushRegs(s2, 1) == PushRegs(FINISHED, 0);
  }

  const LAYOUT: RegLayout := RegLayout(2, 1, 1, [ValI32(5)])
  const CODE: seq<FrameCtl> :=
    [FGoto(4), FMark, FDo(FSpill(0, 0)), FDo(FSetLocal(0, 1)), FMark, FDo(FMove([2], 3)), FMark]

  /** The body as lowered: control goes from the first instruction past the copy to the move that reads it. */
  lemma StrandingLowered()
    ensures BodyValid(STRANDING, 1, 1) && BodyPasses(STRANDING, 1, 1).Ok?
    ensures LowerStructured(STRANDING, 1, 1) == Lowered<LoweredBlocks>.Ok(LoweredBlocks(CODE, LAYOUT))
  {
    StrandingValid();
    StrandingBody();
    ResultMoved();
    hide SimOk, LowerSeq, Materialize, HeightAfterSeq;
    assert P4.out + Wrapped(FINISHED.code) == P5.out;
    assert Staged(REDIRECTED, 1) == FINISHED && Absorb(P4.out, FINISHED) == P5;
    assert MaterializeP(P4, FUNC, 1) == Lowered<Pass>.Ok(P5);
    assert FuncLabels(1) == FUNC;
    assert BodyPasses(STRANDING, 1, 1) == Lowered<(Pass, Pass)>.Ok((P4, P5));
    assert LayoutOf(P5.sim) == LAYOUT;
    ResolvedStranding();
  }

  lemma ResolvedStranding()
    ensures ResolveBody(LAYOUT, PatchAll(P5.out, 0, |P5.out|) + [Mark]) == CODE
  {
    var out := PatchAll(P5.out, 0, |P5.out|) + [Mark];
    assert FrameIndices(LAYOUT, [FromSpill(0)]) == [2];
    assert ResolveCtl(LAYOUT, [], out[0]) == CODE[0] && ResolveCtl(LAYOUT, [], out[1]) == CODE[1];
    assert ResolveCtl(LAYOUT, [], out[2]) == CODE[2] && ResolveCtl(LAYOUT, [], out[3]) == CODE[3];
    assert ResolveCtl(LAYOUT, [], out[4]) == CODE[4] && ResolveCtl(LAYOUT, [], out[5]) == CODE[5];
    assert ResolveCtl(LAYOUT, [], out[6]) == CODE[6];
  }

  lemma StrandingEntered(v: Value)
    ensures EnterRegs([v], 1, [I32], 0, LAYOUT) == [v, 5, 0, 0]
  {
    var g := Grown([v], 4);
    assert g == [v, 0, 0, 0];
    assert Zeros([I32][1..]) == [];
    assert Overwrite(g, 1, []) == g;
    assert UntagAll(LAYOUT.consts) == [5];
    assert Overwrite(g, 1, [5]) == [v, 5, 0, 0];
  }

  lemma StrandingSteps<W>(fx: FileEffects<W>, v: Value, w: W, n: nat)
    ensures Steps(fx, LAYOUT, 0, CODE, n, At(0, [v, 5, 0, 0], w)) ==
            At(if n == 0 then 0 else if n < 4 then n + 3 else 7, [v, 5, 0, 0], w)
  {
    var regs: seq<Value> := [v, 5, 0, 0];
    var move := FMove([2], 3);
    assert InFrame(LAYOUT, move) && Gather(regs, 0, [2]) == [0] && Overwrite(regs, 3, [0]) == regs;
    if n != 0 {
      assert CtlStep(fx, LAYOUT, 0, CODE, At(0, regs, w)) == At(4, regs, w);
      StrandingRest(fx, regs, w, 4, n - 1);
    }
  }

  lemma {:induction false} StrandingRest<W>(fx: FileEffects<W>, regs: seq<Value>, w: W, pc: nat, n: nat)
    requires 4 <= pc <= 7 && |regs| == 4
    requires RegStep(fx, LAYOUT, 0, FMove([2], 3), regs, w) == Outcome<(seq<Value>, W), W>.Goes((regs, w))
    ensures Steps(fx, LAYOUT, 0, CODE, n, At(pc, regs, w)) == At(if pc + n < 7 then pc + n else 7, regs, w)
    decreases n
  {
    if n != 0 {
      var pt := CtlStep(fx, LAYOUT, 0, CODE, At(pc, regs, w));
      assert pt == At(if pc < 7 then pc + 1 else 7, regs, w);
      StrandingRest(fx, regs, w, pt.pc, n - 1);
    }
  }

  /**
   The body goes wrong: the stack machine returns the argument, and the lowered code, on the
   same file, finishes with zero, the content of the spill slot that was never written.
   */
  lemma OperandLost<W>(fx: FileEffects<W>, v: Value, w: W, fuel: nat)
    ensures BodyValid(STRANDING, 1, 1)
    ensures RunSeq(fx.effects, fuel, STRANDING, State([v], [], w)) == Flow<W>.Fall(State([v], [v], w))
    ensures LowerStructured(STRANDING, 1, 1) == Lowered<LoweredBlocks>.Ok(LoweredBlocks(CODE, LAYOUT))
    ensures var pt := Steps(fx, LAYOUT, 0, CODE, 4, At(0, EnterRegs([v], 1, [I32], 0, LAYOUT), w));
      pt.At? && pt.pc == |CODE| && |pt.regs| == 4 && ExitRegs(pt.regs, 1, 0, LAYOUT)[..1] == [0]
  {
    hide LowerStructured, BodyValid, EnterRegs, RunSeq, Steps, BodyPasses;
    StrandingLowered();
    StackMachineReturnsArgument(fx.effects, v, w, fuel);
    StrandingEntered(v);
    StrandingSteps(fx, v, w, 4);
    assert ExitRegs([v, 5, 0, 0], 1, 0, LAYOUT)[0] == 0;
  }

  /** The condition of the theorem fails on it. */
  lemma OperandStranded()
    ensures BodyValid(STRANDING, 1, 1) && BodyPasses(STRANDING, 1, 1).Ok? && !NoOperandStranded(STRANDING, 1, 1)
  {
    hide LowerStructured, BodyValid, EnterRegs, RunSeq, Steps, BodyPasses, ExitRegs, NoOperandStranded;
    StrandingLowered();
    var apply := (i: int, args: seq<Value>, w: int) => (None, w);
    var call := (g: nat, args: seq<Value>, w: int) => (None, w);
    var fx := FileEffects(Effects(apply, call), (g: nat, b: nat, regs: seq<Value>, w: int) => []);
    if NoOperandStranded(STRANDING, 1, 1) {
      OperandDelivered(fx);
      OperandNotDelivered(fx);
    }
  }

  ghost predicate OperandDelivers(fx: FileEffects<int>, n: nat) {
    Delivers(State([1], [1], 0), 1, LAYOUT, 0, [1], 7, Steps(fx, LAYOUT, 0, CODE, n, At(0, [1, 5, 0, 0], 0)))
  }

  lemma OperandDelivered(fx: FileEffects<int>)
    requires BodyValid(STRANDING, 1, 1) && BodyPasses(STRANDING, 1, 1).Ok? && NoOperandStranded(STRANDING, 1, 1)
    ensures exists n: nat :: OperandDelivers(fx, n)
  {
    hide LowerStructured, BodyValid, EnterRegs, RunSeq, Steps, BodyPasses, ExitRegs, NoOperandStranded, Delivers;
    StrandingLowered();
    StackMachineReturnsArgument(fx.effects, 1, 0, 0);
    StrandingEntered(1);
    StructuredBodyCorrect(fx, STRANDING, 1, [I32], 1, LoweredBlocks(CODE, LAYOUT), 0, [1], 0, 0);
    assert [1][0..1] + Zeros([I32][1..]) == [1];
    var n: nat :| Answers(Flow<int>.Fall(State([1], [1], 0)), 1, LAYOUT, 0, [1], |CODE|, 0, n,
                          Steps(fx, LAYOUT, 0, CODE, n, At(0, [1, 5, 0, 0], 0)));
    assert OperandDelivers(fx, n);
  }

  lemma OperandNotDelivered(fx: FileEffects<int>)
    ensures !exists n: nat :: OperandDelivers(fx, n)
  {
    forall n: nat ensures !OperandDelivers(fx, n) {
      StrandingSteps(fx, 1, 0, n);
      hide Steps;
      var left := ExitRegs([1, 5, 0, 0], 1, 0, LAYOUT);
      assert left[0..1][0] == 0 && [1][1 - 1..][0] == 1;
    }
  }
}
