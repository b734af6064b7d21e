/**
 The check on the source is tight.  Wherever an unconditional branch that is not inward can
 stand, in whatever nest of blocks and loops, there is a body that has it there and that the
 pass lowers wrongly.
 */
module OutwardNests {
  import opened Values
  import opened RegisterLayout
  import opened StackCode
  import opened BlockCode
  import opened RegisterLowering
  import opened LoweredBody
  import opened LoweringCorrect
  import opened BlockLowering
  import opened BlockMachine
  import opened BlockCorrect
  import opened BlockRuns
  import opened BlockBody
  import opened OutwardBranch

  // ------------------------------------------------------------------ the bodies

  /** `d` blocks around a branch past all of them. */
  function Deep(j: nat, d: nat): seq<Ctl> {
    if j == 0 then [Br(d)] else [Block(0, 0, Deep(j - 1, d))]
  }

  const FIVE: Ctl := Plain(Const(ValI32(5)))
  const WRITE: Ctl := Plain(LocalSet(0))

  /**
   The block the branch goes to the end of: after the inner blocks' end, which nothing reaches,
   local 0 is overwritten.
   */
  function TargetBody(d: nat): seq<Ctl> {
    Deep(d, d) + [FIVE, WRITE]
  }

  /** Pushes local 0 ahead of that block, and keeps it in local 1 after it. */
  function Core(d: nat): seq<Ctl> {
    [Plain(LocalGet(0)), Block(0, 0, TargetBody(d)), Plain(LocalSet(1))]
  }

  /** The constructs around the block, outermost first; `true` stands for a loop. */
  function Nest(outer: seq<bool>, d: nat): seq<Ctl> {
    if outer == [] then Core(d)
    else if outer[0] then [Loop(0, 0, Nest(outer[1..], d))]
    else [Block(0, 0, Nest(outer[1..], d))]
  }

  /** A function of one parameter and one more local that returns its argument. */
  function NestBody(outer: seq<bool>, d: nat): seq<Ctl> {
    Nest(outer, d) + [Plain(LocalGet(1))]
  }

  // ------------------------------------------------------------------ the stack machine

  lemma {:induction false} DeepJumps<W>(fx: Effects<W>, fuel: nat, j: nat, d: nat, st: State<W>)
    requires j <= d
    ensures RunSeq(fx, fuel, Deep(j, d), st) == Flow<W>.Jump(d - j, st)
  {
    if j == 0 {
      RunsAway(fx, fuel, Br(d), st);
    } else {
      DeepJumps(fx, fuel, j - 1, d, st);
      assert RunOne(fx, fuel, Block(0, 0, Deep(j - 1, d)), st) == Flow<W>.Jump(d - j, st);
    }
  }

  lemma CoreKeeps<W>(fx: Effects<W>, fuel: nat, d: nat, v: Value, w: W)
    requires 0 < d
    ensures RunSeq(fx, fuel, Core(d), State([v, 0], [], w)) == Flow<W>.Fall(State([v, v], [], w))
  {
    var st := State([v, 0], [v], w);
    DeepJumps(fx, fuel, d, d, st);
    JumpSkips(fx, fuel, Deep(d, d), [FIVE, WRITE], 0, st, st);
    assert Unwind(st, 1, 0) == st;
    assert RunOne(fx, fuel, Block(0, 0, TargetBody(d)), st) == Flow<W>.Fall(st);
    var rest := Core(d)[1..];
    assert rest == [Block(0, 0, TargetBody(d)), Plain(LocalSet(1))] && rest[1..] == [Plain(LocalSet(1))]
      && rest[1..][1..] == [];
    var st' := State([v, v], [], w);
    assert [v, 0][1 := v] == [v, v] && [v][..0] == [];
    assert StackStep(fx, LocalSet(1), st) == Outcome<State<W>, W>.Goes(st');
    assert RunOne(fx, fuel, Plain(LocalSet(1)), st) == Flow<W>.Fall(st');
    assert RunSeq(fx, fuel, rest[1..], st) == RunSeq(fx, fuel, [], st');
    var st0 := State([v, 0], [], w);
    assert [] + [st0.locals[0]] == [v];
    assert RunOne(fx, fuel, Plain(LocalGet(0)), st0) == Flow<W>.Fall(st);
  }

  /** What follows a branch is not run. */
  lemma JumpSkips<W>(fx: Effects<W>, fuel: nat, cs: seq<Ctl>, rest: seq<Ctl>, d: nat, st: State<W>, st': State<W>)
    requires |cs| == 1 && RunSeq(fx, fuel, cs, st) == Flow<W>.Jump(d, st')
    ensures RunSeq(fx, fuel, cs + rest, st) == Flow<W>.Jump(d, st')
  {
    assert cs[1..] == [] && (cs + rest)[0] == cs[0];
  }

  lemma {:induction false} NestKeeps<W>(fx: Effects<W>, fuel: nat, outer: seq<bool>, d: nat, v: Value, w: W)
    requires 0 < d
    ensures RunSeq(fx, fuel, Nest(outer, d), State([v, 0], [], w)) == Flow<W>.Fall(State([v, v], [], w))
  {
    if outer == [] {
      CoreKeeps(fx, fuel, d, v, w);
    } else {
      NestKeeps(fx, fuel, outer[1..], d, v, w);
      var inner, st := Nest(outer[1..], d), State([v, 0], [], w);
      assert RunLoop(fx, fuel, inner, 0, 0, st) == Flow<W>.Fall(State([v, v], [], w));
      assert Nest(outer, d)[1..] == [];
    }
  }

  lemma {:induction false} SeqThen<W>(fx: Effects<W>, fuel: nat, cs: seq<Ctl>, rest: seq<Ctl>, st: State<W>,
    st': State<W>)
    requires RunSeq(fx, fuel, cs, st) == Flow<W>.Fall(st')
    ensures RunSeq(fx, fuel, cs + rest, st) == RunSeq(fx, fuel, rest, st')
  {
    if cs == [] {
      assert cs + rest == rest;
    } else {
      assert (cs + rest)[0] == cs[0] && (cs + rest)[1..] == cs[1..] + rest;
      SeqThen(fx, fuel, cs[1..], rest, RunOne(fx, fuel, cs[0], st).state, st');
    }
  }

  lemma StackMachineKeepsArgument<W>(fx: Effects<W>, fuel: nat, outer: seq<bool>, d: nat, v: Value, w: W)
    requires 0 < d
    ensures RunSeq(fx, fuel, NestBody(outer, d), State([v, 0], [], w)) == Flow<W>.Fall(State([v, v], [v], w))
  {
    NestKeeps(fx, fuel, outer, d, v, w);
    SeqThen(fx, fuel, Nest(outer, d), [Plain(LocalGet(1))], State([v, 0], [], w), State([v, v], [], w));
    assert [] + [[v, v][1]] == [v];
    assert StackStep(fx, LocalGet(1), State([v, v], [], w)) == Outcome<State<W>, W>.Goes(State([v, v], [v], w));
  }

  // ------------------------------------------------------------------ the pass, operator by operator

  /** At the start; with the operand borrowed; with 5 on top of it; after the dead write; after the operand is kept. */
  const AT_START: Sim := Sim([], 2, 2, [], [None, None], 0, [], [], [])
  const LENT: Sim := Sim([SLocal(0)], 2, 2, [Entry(Original(0), 1)], [Some(0), None], 0, [], [], [])
  const LENT_FIVE: Sim :=
    Sim([SLocal(0), SConst(0)], 2, 2, [Entry(Original(0), 1)], [Some(0), None], 0, [], [ValI32(5)], [])
  const STRANDED: Sim := Sim([SLocal(0)], 2, 2, [Entry(Spilled(0), 1)], [None, None], 1, [], [ValI32(5)], [])
  const KEPT: Sim := Sim([], 2, 2, [Entry(Spilled(0), 0)], [None, None], 1, [0], [ValI32(5)], [])
  const RESULT: Sim :=
    Sim([SLocal(1)], 2, 2, [Entry(Spilled(0), 0), Entry(Original(1), 1)], [None, Some(1)], 1, [0], [ValI32(5)], [])
  const RETURNED: Sim :=
    Sim([SReg(2)], 3, 3, [Entry(Spilled(0), 0), Entry(Original(1), 0)], [None, None], 1, [0], [ValI32(5)], [])

  const DEAD_WRITE: seq<RegOp> := [RegOp.Spill(0, 0), RegOp.SetLocal(0, FromConst(0))]
  const KEEP: seq<RegOp> := [RegOp.SetLocal(1, FromSpill(0))]

  lemma StartIs()
    ensures SimOk(AT_START) && Start(2) == AT_START
  {
    StartOk(2);
    assert Start(2).origin == [None, None];
  }

  lemma Lends()
    ensures SimOk(AT_START) && LowerOp(AT_START, LocalGet(0)) == Lowered<Sim>.Ok(LENT) && SimOk(LENT)
  {
    hide SimOk;
    StartIs();
    PushLocalKeepsOk(AT_START, 0);
    assert [None, None][0 := Some(0)] == [Some(0), None];
    assert PushLocal(AT_START, 0) == LENT;
  }

  lemma PushesFive()
    ensures SimOk(LENT) && LowerOp(LENT, Const(ValI32(5))) == Lowered<Sim>.Ok(LENT_FIVE) && SimOk(LENT_FIVE)
  {
    hide SimOk;
    Lends();
    assert [] + [ValI32(5)] == [ValI32(5)] && [SLocal(0)] + [SConst(0)] == [SLocal(0), SConst(0)];
    assert PushConst(LENT, ValI32(5)) == Lowered<Sim>.Ok(LENT_FIVE);
    PushConstKeepsOk(LENT, ValI32(5));
  }

  const MOVED: Sim :=
    Sim([SLocal(0), SConst(0)], 2, 2, [Entry(Spilled(0), 1)], [None, None], 1, [], [ValI32(5)], [RegOp.Spill(0, 0)])

  lemma MovesBorrow()
    ensures SimOk(LENT_FIVE) && Rescue(LENT_FIVE, 0) == Lowered<Sim>.Ok(MOVED) && SimOk(MOVED)
  {
    hide SimOk;
    PushesFive();
    assert [] + [RegOp.Spill(0, 0)] == [RegOp.Spill(0, 0)];
    assert LENT_FIVE.arena[0 := Entry(Spilled(0), 1)] == MOVED.arena && LENT_FIVE.origin[0 := None] == MOVED.origin;
    assert Rescue(LENT_FIVE, 0) == Lowered<Sim>.Ok(MOVED);
    RescueKeepsOk(LENT_FIVE, 0);
  }

  /** The dead write redirects the operand to a copy that is never made. */
  lemma Strands()
    ensures SimOk(LENT_FIVE) && Valid(LocalSet(0), 2, 2)
    ensures LowerOp(LENT_FIVE, LocalSet(0)) == Lowered<Sim>.Ok(STRANDED.(code := DEAD_WRITE)) && SimOk(STRANDED)
  {
    hide SimOk, Rescue;
    MovesBorrow();
    EntriesExist(LENT_FIVE);
    EntriesExist(MOVED);
    PopKeepsOk(MOVED);
    assert Inputs(MOVED, 1) == [FromConst(0)];
    assert MOVED.stack[..1] == [SLocal(0)];
    assert PopSlot(MOVED) == STRANDED.(code := [RegOp.Spill(0, 0)]);
    assert Pops(MOVED, 1) == Pops(PopSlot(MOVED), 0);
    assert [RegOp.Spill(0, 0)] + [RegOp.SetLocal(0, FromConst(0))] == DEAD_WRITE;
    Recoded(PopSlot(MOVED), []);
  }

  /** What has been emitted is no part of the bookkeeping. */
  lemma Recoded(s: Sim, code: seq<RegOp>)
    requires SimOk(s)
    ensures SimOk(s.(code := code))
  {
    hide Count, Regs;
    var r := s.(code := code);
    assert SpillsOk(r) && OriginsOk(r) && StackOk(r);
  }

  lemma Keeps()
    ensures SimOk(STRANDED) && Valid(LocalSet(1), 2, 1)
    ensures LowerOp(STRANDED, LocalSet(1)) == Lowered<Sim>.Ok(KEPT.(code := KEEP)) && SimOk(KEPT)
  {
    hide SimOk;
    Strands();
    EntriesExist(STRANDED);
    PopKeepsOk(STRANDED);
    assert Inputs(STRANDED, 1) == [FromSpill(0)];
    assert STRANDED.arena[0 := Entry(Spilled(0), 0)] == KEPT.arena && [] + [0] == [0] && [SLocal(0)][..0] == [];
    assert PopSlot(STRANDED) == KEPT;
    assert Pops(STRANDED, 1) == Pops(KEPT, 0);
    assert Rescue(STRANDED, 1) == Lowered<Sim>.Ok(STRANDED);
    assert [] + KEEP == KEEP;
  }

  lemma Reads()
    ensures SimOk(KEPT) && LowerOp(KEPT, LocalGet(1)) == Lowered<Sim>.Ok(RESULT) && SimOk(RESULT)
  {
    hide SimOk;
    Keeps();
    PushLocalKeepsOk(KEPT, 1);
    assert [None, None][1 := Some(1)] == [None, Some(1)];
    assert KEPT.arena + [Entry(Original(1), 1)] == RESULT.arena;
    assert PushLocal(KEPT, 1) == RESULT;
  }

  /** The result moved to the first operand register. */
  lemma Returns()
    ensures SimOk(RESULT) && Materialize(RESULT, 1) == Lowered<Sim>.Ok(RETURNED.(code := [Move([FromLocal(1)], 2)]))
  {
    hide SimOk;
    Reads();
    EntriesExist(RESULT);
    PopKeepsOk(RESULT);
    var s := RETURNED.(stack := [], currReg := 2, maxReg := 2);
    assert RESULT.arena[1 := Entry(Original(1), 0)] == s.arena && [None, Some(1)][1 := None] == [None, None];
    assert PopSlot(RESULT) == s && Pops(RESULT, 1) == Pops(s, 0);
    assert Inputs(RESULT, 1) == [FromLocal(1)];
    var s2 := s.(code := [Move([FromLocal(1)], 2)]);
    assert [] + [Move([FromLocal(1)], 2)] == s2.code && s.stack + [SReg(2)] == [SReg(2)];
    var r := RETURNED.(code := [Move([FromLocal(1)], 2)]);
    assert PushReg(s2) == Lowered<Sim>.Ok(r);
    assert PushRegs(s2, 1) == PushRegs(r, 0);
  }

  // ------------------------------------------------------------------ the pass, in any context

  /** Labels and targets of constructs open around code at operand height `h`. */
  ghost predicate Around(labels: seq<Label>, targets: seq<Target>, h: nat) {
    && LabelsOk(labels, h) && Innermost(labels).base == h && TargetsOk(labels, targets)
  }

  /** Every branch emitted so far has its destination. */
  ghost predicate Settled(out: seq<CtlOp>) {
    forall j :: 0 <= j < |out| ==> Names(out[j], 0)
  }

  lemma Enterable(s: Sim, out: seq<CtlOp>, labels: seq<Label>, targets: seq<Target>)
    requires labels != [] && SimOk(s) && s.code == [] && Around(labels, targets, Innermost(labels).base)
    requires Innermost(labels).base <= |s.stack| && forall j :: 0 <= j < |out| ==> Names(out[j], |labels|)
    ensures Enters(Pass(s, out), labels, targets)
  {
    hide SimOk;
  }

  lemma Deeper(labels: seq<Label>, targets: seq<Target>, h: nat, lab: Label, target: Target)
    requires Around(labels, targets, h) && h <= lab.base && (target.ToLabel? ==> target.level == |labels|)
    ensures Around(labels + [lab], targets + [target], lab.base)
  {
  }

  const AT_ONE: Label := Label(1, 0, 0)

  lemma NamesMore(out: seq<CtlOp>, n: nat, m: nat)
    requires n <= m && forall j :: 0 <= j < |out| ==> Names(out[j], n)
    ensures forall j :: 0 <= j < |out| ==> Names(out[j], m)
  {
    forall j | 0 <= j < |out| ensures Names(out[j], m) {
      assert Names(out[j], n);
    }
  }

  function Marks(n: nat): (r: seq<CtlOp>)
    ensures |r| == n && forall j :: 0 <= j < n ==> r[j] == Mark
  {
    seq(n, _ => Mark)
  }

  /** What the branch, inside `j` blocks, has emitted by their ends. */
  function Branched(out: seq<CtlOp>, level: nat, j: nat): (r: seq<CtlOp>)
    ensures |r| == |out| + 1 + j
  {
    out + [Goto(ToLabel(level))] + Marks(j)
  }

  lemma BranchedNames(out: seq<CtlOp>, level: nat, j: nat)
    requires Settled(out)
    ensures forall i :: 0 <= i < |out| + 1 + j ==> Names(Branched(out, level, j)[i], level + 1)
  {
    NamesMore(out, 0, level + 1);
  }

  /** Ends of blocks inside the target leave the branch to it alone. */
  lemma BranchedMore(out: seq<CtlOp>, level: nat, j: nat, inner: nat, index: nat)
    requires Settled(out) && level < inner
    ensures PatchAll(Branched(out, level, j), inner, index) + [Mark] == Branched(out, level, j + 1)
  {
    var was, r := Branched(out, level, j), PatchAll(Branched(out, level, j), inner, index);
    BranchedNames(out, level, j);
    forall i | 0 <= i < |was| ensures r[i] == was[i] {
      assert Names(was[i], level + 1);
    }
    assert Marks(j) + [Mark] == Marks(j + 1);
  }

  /** The branch itself: nothing to move, nothing lowered after it. */
  lemma BranchEmits(out: seq<CtlOp>, labels: seq<Label>, targets: seq<Target>, d: nat, level: nat)
    requires Settled(out) && Around(labels, targets, 1) && level + d + 1 == |labels| && targets[level] == ToLabel(level)
    requires labels[level] == AT_ONE && Innermost(labels) == AT_ONE
    ensures Enters(Pass(LENT, out), labels, targets) && HeightAfterSeq([Br(d)], 2, labels, 1) == Dead
    ensures LowerSeq(Pass(LENT, out), labels, targets, [Br(d)]) == Lowered<Pass>.Ok(Pass(LENT, Branched(out, level, 0)))
  {
    hide SimOk, LowerBr;
    Lends();
    NamesMore(out, 0, |labels|);
    Enterable(LENT, out, labels, targets);
    assert LabelAt(labels, d) == AT_ONE && TargetAt(targets, d) == ToLabel(level);
    JustJumps(out, labels, targets, d, level);
    assert Branched(out, level, 0) == out + [Goto(ToLabel(level))];
  }

  lemma JustJumps(out: seq<CtlOp>, labels: seq<Label>, targets: seq<Target>, d: nat, level: nat)
    requires Enters(Pass(LENT, out), labels, targets) && BranchValid(labels, d, 1)
    requires LabelAt(labels, d) == AT_ONE && Innermost(labels) == AT_ONE && TargetAt(targets, d) == ToLabel(level)
    ensures LowerBr(Pass(LENT, out), labels, targets, d) == Lowered<Pass>.Ok(Pass(LENT, out + [Goto(ToLabel(level))]))
  {
    hide SimOk;
    EntriesExist(LENT);
    assert Inputs(LENT, 0) == [] && Wrapped([]) == [];
    assert Carried(LENT, AT_ONE, ToLabel(level)) == [Goto(ToLabel(level))];
    assert Pops(LENT, 0) == LENT && LabelRegister(LENT, 1) == 2;
    assert PushRegs(LENT, 0) == Lowered<Sim>.Ok(LENT);
    assert ResetTo(LENT, AT_ONE) == Lowered<Sim>.Ok(LENT);
  }

  /** One of the blocks between the branch and its target. */
  lemma {:induction false} DeepEmits(out: seq<CtlOp>, labels: seq<Label>, targets: seq<Target>, d: nat, level: nat,
    j: nat)
    requires Settled(out) && Around(labels, targets, 1) && level + d + 1 == |labels| + j && 1 <= |labels| - level
    requires targets[level] == ToLabel(level) && labels[level] == AT_ONE && Innermost(labels) == AT_ONE
    ensures Enters(Pass(LENT, out), labels, targets)
    ensures HeightAfterSeq(Deep(j, d), 2, labels, 1) == if j == 0 then Dead else Live(1)
    ensures LowerSeq(Pass(LENT, out), labels, targets, Deep(j, d))
      == Lowered<Pass>.Ok(Pass(LENT, Branched(out, level, j)))
    ensures j != 0 ==>
      && HeightAfterOne(Deep(j, d)[0], 2, labels, 1) == Live(1)
      && LowerOne(Pass(LENT, out), labels, targets, Deep(j, d)[0])
         == Lowered<Pass>.Ok(Pass(LENT, Branched(out, level, j)))
      && Enters(Pass(LENT, Branched(out, level, j)), labels, targets)
    decreases j
  {
    hide SimOk, LowerSeq, HeightAfterSeq, LowerOne, HeightAfterOne, Enters, Around, Branched, Close, PassOk;
    if j == 0 {
      BranchEmits(out, labels, targets, d, level);
    } else {
      DeeperEmits(out, labels, targets, d, level, j);
      var inner, innerTargets := labels + [AT_ONE], targets + [ToLabel(|labels|)];
      DeepEmits(out, inner, innerTargets, d, level, j - 1);
      BlockOfDeep(out, labels, targets, d, level, j, Deep(j - 1, d));
    }
  }

  /** The context one block further in. */
  lemma DeeperEmits(out: seq<CtlOp>, labels: seq<Label>, targets: seq<Target>, d: nat, level: nat, j: nat)
    requires Settled(out) && Around(labels, targets, 1) && 1 <= |labels| - level
    requires targets[level] == ToLabel(level) && labels[level] == AT_ONE && Innermost(labels) == AT_ONE
    ensures Enters(Pass(LENT, out), labels, targets)
    ensures var inner, innerTargets := labels + [AT_ONE], targets + [ToLabel(|labels|)];
      && Around(inner, innerTargets, 1) && innerTargets[level] == ToLabel(level) && inner[level] == AT_ONE
      && Innermost(inner) == AT_ONE
  {
    hide SimOk;
    Lends();
    NamesMore(out, 0, |labels|);
    Enterable(LENT, out, labels, targets);
    Deeper(labels, targets, 1, AT_ONE, ToLabel(|labels|));
  }

  /** A block around code that ends in the branch. */
  lemma BlockOfDeep(
    out: seq<CtlOp>, labels: seq<Label>, targets: seq<Target>, d: nat, level: nat, j: nat, body: seq<Ctl>)
    requires Settled(out) && Around(labels, targets, 1) && 1 <= |labels| - level && 0 < j && Innermost(labels) == AT_ONE
    requires Enters(Pass(LENT, out), labels, targets)
    requires var inner, innerTargets := labels + [AT_ONE], targets + [ToLabel(|labels|)];
      && Around(inner, innerTargets, 1) && Enters(Pass(LENT, out), inner, innerTargets)
      && Closed(HeightAfterSeq(body, 2, inner, 1), 1).Live?
      && LowerSeq(Pass(LENT, out), inner, innerTargets, body)
         == Lowered<Pass>.Ok(Pass(LENT, Branched(out, level, j - 1)))
    ensures HeightAfterOne(Block(0, 0, body), 2, labels, 1) == Live(1)
      && HeightAfterSeq([Block(0, 0, body)], 2, labels, 1) == Live(1)
    ensures var r := Pass(LENT, Branched(out, level, j));
      && LowerOne(Pass(LENT, out), labels, targets, Block(0, 0, body)) == Lowered<Pass>.Ok(r)
      && LowerSeq(Pass(LENT, out), labels, targets, [Block(0, 0, body)]) == Lowered<Pass>.Ok(r)
      && Enters(r, labels, targets)
  {
    hide PassOk, Enters, Around, LowerOne, LowerSeq, Branched, Close, HeightAfterSeq, HeightAfterOne;
    var p, p1, r := Pass(LENT, out), Pass(LENT, Branched(out, level, j - 1)), Pass(LENT, Branched(out, level, j));
    var inner, innerTargets := labels + [AT_ONE], targets + [ToLabel(|labels|)];
    EndOfDeep(out, labels, targets, level, j);
    BlockIs(p, labels, targets, AT_ONE, body, inner, innerTargets, p1, r);
    BlockLeaves(body, 2, labels, inner, AT_ONE);
    AloneIs(p, labels, targets, Block(0, 0, body), r);
  }

  /** A block without parameters or results leaves the height as it found it. */
  lemma BlockLeaves(body: seq<Ctl>, locals: nat, labels: seq<Label>, inner: seq<Label>, lab: Label)
    requires labels != [] && Innermost(labels).base <= lab.base && inner == labels + [lab]
      && lab.arity == lab.results == 0
    requires Closed(HeightAfterSeq(body, locals, inner, lab.base), lab.base).Live?
    ensures HeightAfterOne(Block(0, 0, body), locals, labels, lab.base) == Live(lab.base)
  {
    hide HeightAfterSeq;
    assert lab == Label(lab.base - 0, 0, 0);
  }

  /** The end of a block around the branch. */
  lemma EndOfDeep(out: seq<CtlOp>, labels: seq<Label>, targets: seq<Target>, level: nat, j: nat)
    requires Settled(out) && Around(labels, targets, 1) && level < |labels| && 0 < j
    ensures var inner := labels + [AT_ONE];
      var p1, r := Pass(LENT, Branched(out, level, j - 1)), Pass(LENT, Branched(out, level, j));
      && PassOk(p1, inner) && Close(p1, inner) == Lowered<Pass>.Ok(r) && Enters(r, labels, targets)
  {
    hide SimOk, Branched, Close;
    Lends();
    var inner, innerTargets := labels + [AT_ONE], targets + [ToLabel(|labels|)];
    var p1, r := Pass(LENT, Branched(out, level, j - 1)), Pass(LENT, Branched(out, level, j));
    Deeper(labels, targets, 1, AT_ONE, ToLabel(|labels|));
    BranchedNames(out, level, j - 1);
    NamesMore(p1.out, level + 1, |inner|);
    Enterable(LENT, p1.out, inner, innerTargets);
    BranchedMore(out, level, j - 1, |labels|, |p1.out|);
    CloseIs(p1, inner, r);
    BranchedNames(out, level, j);
    NamesMore(r.out, level + 1, |labels|);
    Enterable(LENT, r.out, labels, targets);
  }

  /** A sequence of one construct. */
  lemma AloneIs(p: Pass, labels: seq<Label>, targets: seq<Target>, c: Ctl, r: Pass)
    requires Enters(p, labels, targets) && HeightAfterOne(c, |p.sim.origin|, labels, |p.sim.stack|).Live?
    requires !c.Br? && !c.Unreachable? && LowerOne(p, labels, targets, c) == Lowered<Pass>.Ok(r)
    requires Enters(r, labels, targets) && |r.sim.origin| == |p.sim.origin|
    ensures HeightAfterSeq([c], |p.sim.origin|, labels, |p.sim.stack|) == Live(|r.sim.stack|)
    ensures LowerSeq(p, labels, targets, [c]) == Lowered<Pass>.Ok(r)
  {
    hide SimOk, LowerOne, HeightAfterOne;
    assert [c] + [] == [c];
    LowerSeqIs(p, labels, targets, c, [], r, r);
  }

  // ------------------------------------------------------------------ the whole body

  /** One operator, in any context. */
  lemma PlainEmits(
    s: Sim, op: Op, s1: Sim, code: seq<RegOp>, out: seq<CtlOp>, labels: seq<Label>, targets: seq<Target>, h: nat)
    requires SimOk(s) && s.code == [] && Around(labels, targets, h) && h <= |s.stack|
    requires Valid(op, |s.origin|, |s.stack| - h) && Valid(op, |s.origin|, |s.stack|)
    requires LowerOp(s, op) == Lowered<Sim>.Ok(s1.(code := code)) && SimOk(s1) && s1.code == [] && h <= |s1.stack|
    requires HeightAfter(op, |s.origin|, |s.stack|) == |s1.stack|
    requires forall j :: 0 <= j < |out| ==> Names(out[j], |labels|)
    ensures Enters(Pass(s, out), labels, targets) && Enters(Pass(s1, out + Wrapped(code)), labels, targets)
    ensures HeightAfterOne(Plain(op), |s.origin|, labels, |s.stack|) == Live(|s1.stack|)
    ensures LowerOne(Pass(s, out), labels, targets, Plain(op)) == Lowered<Pass>.Ok(Pass(s1, out + Wrapped(code)))
  {
    hide SimOk, LowerOp, Valid, HeightAfter;
    Enterable(s, out, labels, targets);
    Enterable(s1, out + Wrapped(code), labels, targets);
    LowerPlainIs(Pass(s, out), labels, targets, op, s1.(code := code), Pass(s1, out + Wrapped(code)));
  }

  /** What the target block has emitted by its end, from index `k` on. */
  function Tail(d: nat, k: nat): (r: seq<CtlOp>)
    ensures |r| == d + 4
  {
    [Goto(ToIndex(k + d + 3))] + Marks(d) + Wrapped(DEAD_WRITE) + [Mark]
  }

  lemma TailSettled(d: nat, k: nat)
    ensures Settled(Tail(d, k))
  {
  }

  lemma TailIs(out: seq<CtlOp>, level: nat, d: nat)
    requires Settled(out)
    ensures var was := Branched(out, level, d) + Wrapped(DEAD_WRITE);
      PatchAll(was, level, |was|) + [Mark] == out + Tail(d, |out|)
  {
    var was := Branched(out, level, d) + Wrapped(DEAD_WRITE);
    var r := PatchAll(was, level, |was|) + [Mark];
    forall i | 0 <= i < |out| ensures r[i] == out[i] {
      assert Names(out[i], 0) && was[i] == out[i] && r[i] == Patch(was[i], level, |was|);
    }
    assert r[|out|] == Goto(ToIndex(|out| + d + 3));
    assert r == out + Tail(d, |out|);
  }

  /** The inner blocks, and then the write that nothing reaches. */
  lemma TargetBodyEmits(out: seq<CtlOp>, labels: seq<Label>, targets: seq<Target>, d: nat, level: nat)
    requires 0 < d && Settled(out) && Around(labels, targets, 1) && |labels| == level + 1
    requires targets[level] == ToLabel(level) && Innermost(labels) == AT_ONE
    ensures Enters(Pass(LENT, out), labels, targets) && HeightAfterSeq(TargetBody(d), 2, labels, 1) == Live(1)
    ensures var r := Pass(STRANDED, Branched(out, level, d) + Wrapped(DEAD_WRITE));
      LowerSeq(Pass(LENT, out), labels, targets, TargetBody(d)) == Lowered<Pass>.Ok(r) && Enters(r, labels, targets)
  {
    hide SimOk, LowerOp, LowerOne, LowerSeq, HeightAfterOne, HeightAfterSeq, Enters, Around, Branched;
    PushesFive();
    Strands();
    DeepEmits(out, labels, targets, d, level, d);
    BranchedNames(out, level, d);
    var mid := Branched(out, level, d);
    PlainEmits(LENT, Const(ValI32(5)), LENT_FIVE, [], mid, labels, targets, 1);
    assert mid + Wrapped([]) == mid;
    PlainEmits(LENT_FIVE, LocalSet(0), STRANDED, DEAD_WRITE, mid, labels, targets, 1);
    var r := Pass(STRANDED, mid + Wrapped(DEAD_WRITE));
    AloneIs(Pass(LENT_FIVE, mid), labels, targets, WRITE, r);
    LowerSeqIs(Pass(LENT, mid), labels, targets, FIVE, [WRITE], Pass(LENT_FIVE, mid), r);
    assert [FIVE] + [WRITE] == [FIVE, WRITE];
    LowerSeqIs(Pass(LENT, out), labels, targets, Deep(d, d)[0], [FIVE, WRITE], Pass(LENT, mid), r);
    assert [Deep(d, d)[0]] == Deep(d, d);
  }

  lemma TargetEmits(out: seq<CtlOp>, labels: seq<Label>, targets: seq<Target>, d: nat)
    requires 0 < d && Settled(out) && Around(labels, targets, 0)
    ensures Enters(Pass(LENT, out), labels, targets) && HeightAfterOne(Block(0, 0, TargetBody(d)), 2, labels, 1)
      == Live(1)
    ensures var r := Pass(STRANDED, out + Tail(d, |out|));
      && LowerOne(Pass(LENT, out), labels, targets, Block(0, 0, TargetBody(d))) == Lowered<Pass>.Ok(r)
      && Enters(r, labels, targets)
  {
    hide PassOk, Enters, Around, LowerOne, LowerSeq, HeightAfterOne, HeightAfterSeq, Branched, Close, Tail, TargetBody;
    var level := |labels|;
    var inner, innerTargets := labels + [AT_ONE], targets + [ToLabel(level)];
    InTarget(labels, targets);
    TargetBodyEmits(out, inner, innerTargets, d, level);
    EndOfTarget(out, labels, targets, d);
    BlockLeaves(TargetBody(d), 2, labels, inner, AT_ONE);
    var p1, r := Pass(STRANDED, Branched(out, level, d) + Wrapped(DEAD_WRITE)), Pass(STRANDED, out + Tail(d, |out|));
    OpenEnd(p1, inner, innerTargets);
    BlockIs(Pass(LENT, out), labels, targets, AT_ONE, TargetBody(d), inner, innerTargets, p1, r);
  }

  lemma OpenEnd(p: Pass, labels: seq<Label>, targets: seq<Target>)
    requires Enters(p, labels, targets)
    ensures PassOk(p, labels)
  {
  }

  lemma InTarget(labels: seq<Label>, targets: seq<Target>)
    requires Around(labels, targets, 0)
    ensures |targets| == |labels| && labels != [] && Innermost(labels).base == 0
    ensures Around(labels + [AT_ONE], targets + [ToLabel(|labels|)], 1) && Innermost(labels + [AT_ONE]) == AT_ONE
  {
    Deeper(labels, targets, 0, AT_ONE, ToLabel(|labels|));
  }

  /** The target block's end. */
  lemma EndOfTarget(out: seq<CtlOp>, labels: seq<Label>, targets: seq<Target>, d: nat)
    requires 0 < d && Settled(out) && Around(labels, targets, 0)
    requires var r := Pass(STRANDED, Branched(out, |labels|, d) + Wrapped(DEAD_WRITE));
      Enters(r, labels + [AT_ONE], targets + [ToLabel(|labels|)])
    ensures Enters(Pass(LENT, out), labels, targets)
    ensures var p1, r := Pass(STRANDED, Branched(out, |labels|, d) + Wrapped(DEAD_WRITE)),
      Pass(STRANDED, out + Tail(d, |out|));
      Close(p1, labels + [AT_ONE]) == Lowered<Pass>.Ok(r) && Enters(r, labels, targets)
  {
    hide SimOk, Branched, Tail, Close, Around, Settled;
    var p1, r := Pass(STRANDED, Branched(out, |labels|, d) + Wrapped(DEAD_WRITE)), Pass(STRANDED, out + Tail(d, |out|));
    InTarget(labels, targets);
    TailIs(out, |labels|, d);
    CloseIs(p1, labels + [AT_ONE], r);
    EntersAround(out, labels, targets, d);
  }

  lemma EntersAround(out: seq<CtlOp>, labels: seq<Label>, targets: seq<Target>, d: nat)
    requires Settled(out) && Around(labels, targets, 0)
    ensures Enters(Pass(LENT, out), labels, targets) && Enters(Pass(STRANDED, out + Tail(d, |out|)), labels, targets)
  {
    hide SimOk, Tail;
    Lends();
    Strands();
    NamesMore(out, 0, |labels|);
    Enterable(LENT, out, labels, targets);
    TailSettled(d, |out|);
    NamesMore(out + Tail(d, |out|), 0, |labels|);
    Enterable(STRANDED, out + Tail(d, |out|), labels, targets);
  }

  /** What the code around the target block has emitted, from index `k` on. */
  function CoreOut(d: nat, k: nat): (r: seq<CtlOp>)
    ensures |r| == d + 5
  {
    Tail(d, k) + Wrapped(KEEP)
  }

  lemma CoreEmits(out: seq<CtlOp>, labels: seq<Label>, targets: seq<Target>, d: nat)
    requires 0 < d && Settled(out) && Around(labels, targets, 0)
    ensures Enters(Pass(AT_START, out), labels, targets) && HeightAfterSeq(Core(d), 2, labels, 0) == Live(0)
    ensures var r := Pass(KEPT, out + CoreOut(d, |out|));
      LowerSeq(Pass(AT_START, out), labels, targets, Core(d)) == Lowered<Pass>.Ok(r) && Enters(r, labels, targets)
  {
    hide SimOk, LowerOp, LowerOne, LowerSeq, HeightAfterOne, HeightAfterSeq, Enters, Around, Tail, TargetBody;
    Lends();
    Keeps();
    var block, keep := Block(0, 0, TargetBody(d)), Plain(LocalSet(1));
    NamesMore(out, 0, |labels|);
    PlainEmits(AT_START, LocalGet(0), LENT, [], out, labels, targets, 0);
    assert out + Wrapped([]) == out;
    TargetEmits(out, labels, targets, d);
    var after := out + Tail(d, |out|);
    TailSettled(d, |out|);
    NamesMore(after, 0, |labels|);
    PlainEmits(STRANDED, LocalSet(1), KEPT, KEEP, after, labels, targets, 0);
    var r := Pass(KEPT, out + CoreOut(d, |out|));
    assert after + Wrapped(KEEP) == r.out;
    AloneIs(Pass(STRANDED, after), labels, targets, keep, r);
    LowerSeqIs(Pass(LENT, out), labels, targets, block, [keep], Pass(STRANDED, after), r);
    assert [block] + [keep] == [block, keep];
    LowerSeqIs(Pass(AT_START, out), labels, targets, Plain(LocalGet(0)), [block, keep], Pass(LENT, out), r);
    assert [Plain(LocalGet(0))] + [block, keep] == Core(d);
  }

  // ------------------------------------------------------------------ the nest

  const AT_ZERO: Label := Label(0, 0, 0)

  /** What the nest has emitted, from index `k` on: a mark at the head of each loop, and one at each end. */
  function NestOut(outer: seq<bool>, d: nat, k: nat): seq<CtlOp> {
    if outer == [] then CoreOut(d, k)
    else if outer[0] then [Mark] + NestOut(outer[1..], d, k + 1) + [Mark]
    else NestOut(outer[1..], d, k) + [Mark]
  }

  lemma {:induction false} NestSettled(outer: seq<bool>, d: nat, k: nat)
    ensures Settled(NestOut(outer, d, k))
  {
    if outer == [] {
      TailSettled(d, k);
    } else if outer[0] {
      NestSettled(outer[1..], d, k + 1);
    } else {
      NestSettled(outer[1..], d, k);
    }
  }

  /** A label nothing branches to ends with its mark. */
  lemma UnnamedEnd(s: Sim, out: seq<CtlOp>, labels: seq<Label>, targets: seq<Target>)
    requires SimOk(s) && s.code == [] && s.stack == [] && Settled(out) && Around(labels, targets, 0)
    ensures var inner := labels + [AT_ZERO];
      && PassOk(Pass(s, out), inner) && Close(Pass(s, out), inner) == Lowered<Pass>.Ok(Pass(s, out + [Mark]))
      && Enters(Pass(s, out + [Mark]), labels, targets)
  {
    hide SimOk, Close;
    var inner := labels + [AT_ZERO];
    Deeper(labels, targets, 0, AT_ZERO, ToLabel(|labels|));
    NamesMore(out, 0, |inner|);
    Enterable(s, out, inner, targets + [ToLabel(|labels|)]);
    SettledPatched(out, |labels|);
    CloseIs(Pass(s, out), inner, Pass(s, out + [Mark]));
    NamesMore(out + [Mark], 0, |labels|);
    Enterable(s, out + [Mark], labels, targets);
  }

  lemma SettledPatched(out: seq<CtlOp>, level: nat)
    requires Settled(out)
    ensures PatchAll(out, level, |out|) == out
  {
    forall j | 0 <= j < |out| ensures PatchAll(out, level, |out|)[j] == out[j] {
      assert Names(out[j], 0);
    }
  }

  /** Ahead of a loop nothing is borrowed: its head is its mark alone. */
  lemma BareHead(out: seq<CtlOp>, labels: seq<Label>, targets: seq<Target>)
    requires Settled(out) && Around(labels, targets, 0) && Enters(Pass(AT_START, out), labels, targets)
    ensures LoopHead(Pass(AT_START, out), labels, 0) == Lowered<Pass>.Ok(Pass(AT_START, out + [Mark]))
  {
    hide SimOk;
    StartIs();
    var p := Pass(AT_START, out);
    NothingSpilled(0);
    assert out + Wrapped([]) == out;
    assert SpillLive(p, labels) == Lowered<Pass>.Ok(p);
    assert MaterializeP(p, labels, 0) == Lowered<Pass>.Ok(p);
  }

  lemma {:induction false} NothingSpilled(i: nat)
    requires i <= 2
    ensures SimOk(AT_START) && SpillFrom(AT_START, i) == Lowered<Sim>.Ok(AT_START)
    decreases 2 - i
  {
    hide SimOk;
    StartIs();
    if i != 2 {
      assert Rescue(AT_START, i) == Lowered<Sim>.Ok(AT_START);
      NothingSpilled(i + 1);
    }
  }

  /** A loop without parameters, from its head, its body and its end. */
  lemma LoopIs(
    p: Pass, labels: seq<Label>, targets: seq<Target>, lab: Label, body: seq<Ctl>, head: Pass,
    inner: seq<Label>, innerTargets: seq<Target>, p1: Pass, p2: Pass)
    requires labels != [] && Enters(p, labels, targets) && Innermost(labels).base <= lab.base == |p.sim.stack|
      && lab.arity == lab.results == 0
    requires LoopHead(p, labels, 0) == Lowered<Pass>.Ok(head)
    requires inner == labels + [lab] && innerTargets == targets + [ToIndex(|head.out| - 1)]
      && Enters(head, inner, innerTargets)
    requires head.out != [] && |head.sim.origin| == |p.sim.origin| && |head.sim.stack| == |p.sim.stack|
    requires Enters(head, labels, targets)
    requires Closed(HeightAfterSeq(body, |p.sim.origin|, inner, |p.sim.stack|), lab.base).Live?
    requires LowerSeq(head, inner, innerTargets, body) == Lowered<Pass>.Ok(p1)
    requires PassOk(p1, inner) && |p1.sim.stack| == lab.base
    requires Close(p1, inner) == Lowered<Pass>.Ok(p2)
    ensures HeightAfterOne(Loop(0, 0, body), |p.sim.origin|, labels, |p.sim.stack|) == Live(lab.base)
    ensures LowerOne(p, labels, targets, Loop(0, 0, body)) == Lowered<Pass>.Ok(p2)
  {
    hide PassOk, LoopHead, HeightAfterSeq, LowerSeq, Close, Enters, LowerOne, HeightAfterOne, LowerInside;
    LoopInsideIs(head, labels, targets, lab, body, inner, innerTargets, p1, p2);
    LoopHeight(p, labels, lab, body, inner);
    OneLoopIs(p, labels, targets, lab, body, head, p2);
  }

  lemma LoopHeight(p: Pass, labels: seq<Label>, lab: Label, body: seq<Ctl>, inner: seq<Label>)
    requires labels != [] && Innermost(labels).base <= lab.base == |p.sim.stack| && lab.arity == lab.results == 0
    requires inner == labels + [lab]
    requires Closed(HeightAfterSeq(body, |p.sim.origin|, inner, |p.sim.stack|), lab.base).Live?
    ensures HeightAfterOne(Loop(0, 0, body), |p.sim.origin|, labels, |p.sim.stack|) == Live(lab.base)
  {
    hide HeightAfterSeq;
    assert lab == Label(|p.sim.stack| - 0, 0, 0);
  }

  lemma LoopInsideIs(
    head: Pass, labels: seq<Label>, targets: seq<Target>, lab: Label, body: seq<Ctl>,
    inner: seq<Label>, innerTargets: seq<Target>, p1: Pass, p2: Pass)
    requires Enters(head, labels, targets) && Innermost(labels).base <= lab.base <= |head.sim.stack| && head.out != []
    requires inner == labels + [lab] && innerTargets == targets + [ToIndex(|head.out| - 1)]
      && Enters(head, inner, innerTargets)
    requires Closed(HeightAfterSeq(body, |head.sim.origin|, inner, |head.sim.stack|), lab.base + lab.results).Live?
    requires LowerSeq(head, inner, innerTargets, body) == Lowered<Pass>.Ok(p1)
    requires PassOk(p1, inner) && |p1.sim.stack| == lab.base + lab.results && Close(p1, inner) == Lowered<Pass>.Ok(p2)
    ensures LowerInside(head, labels, targets, lab, ToIndex(|head.out| - 1), body) == Lowered<Pass>.Ok(p2)
  {
    hide SimOk, LowerSeq, Close, HeightAfterSeq;
  }

  lemma OneLoopIs(p: Pass, labels: seq<Label>, targets: seq<Target>, lab: Label, body: seq<Ctl>, head: Pass, p2: Pass)
    requires Enters(p, labels, targets) && Innermost(labels).base <= lab.base == |p.sim.stack|
      && lab.arity == lab.results == 0
    requires LoopHead(p, labels, 0) == Lowered<Pass>.Ok(head) && head.out != [] && Enters(head, labels, targets)
    requires |head.sim.origin| == |p.sim.origin| && |head.sim.stack| == |p.sim.stack|
    requires Closed(HeightAfterSeq(body, |p.sim.origin|, labels + [lab], |p.sim.stack|), lab.base + lab.results).Live?
    requires LowerInside(head, labels, targets, lab, ToIndex(|head.out| - 1), body) == Lowered<Pass>.Ok(p2)
    requires HeightAfterOne(Loop(0, 0, body), |p.sim.origin|, labels, |p.sim.stack|).Live?
    ensures LowerOne(p, labels, targets, Loop(0, 0, body)) == Lowered<Pass>.Ok(p2)
  {
    hide PassOk, LowerInside, HeightAfterSeq, HeightAfterOne, LowerOne, LoopHead, StableOne, StableLoop;
    OneIsLoop(p, labels, targets, seq(|labels|, _ => Dest(0, p.sim)), lab, body, true);
  }

  /** The nest, in any context. */
  lemma {:induction false} NestEmits(outer: seq<bool>, d: nat, out: seq<CtlOp>, labels: seq<Label>,
    targets: seq<Target>)
    requires 0 < d && Settled(out) && Around(labels, targets, 0)
    ensures Enters(Pass(AT_START, out), labels, targets) && HeightAfterSeq(Nest(outer, d), 2, labels, 0) == Live(0)
    ensures var r := Pass(KEPT, out + NestOut(outer, d, |out|));
      LowerSeq(Pass(AT_START, out), labels, targets, Nest(outer, d)) == Lowered<Pass>.Ok(r)
        && Enters(r, labels, targets)
    decreases |outer|, 0
  {
    hide SimOk, LowerSeq, HeightAfterSeq, Enters, Around, Settled, CoreOut;
    if outer == [] {
      CoreEmits(out, labels, targets, d);
    } else if outer[0] {
      LoopOfNest(outer[1..], d, out, labels, targets);
    } else {
      BlockOfNest(outer[1..], d, out, labels, targets);
    }
  }

  lemma StartEnters(out: seq<CtlOp>, labels: seq<Label>, targets: seq<Target>)
    requires Settled(out) && Around(labels, targets, 0)
    ensures labels != [] && Innermost(labels).base == 0 && Enters(Pass(AT_START, out), labels, targets)
  {
    hide SimOk;
    StartIs();
    NamesMore(out, 0, |labels|);
    Enterable(AT_START, out, labels, targets);
  }

  lemma {:induction false} BlockOfNest(outer: seq<bool>, d: nat, out: seq<CtlOp>, labels: seq<Label>,
    targets: seq<Target>)
    requires 0 < d && Settled(out) && Around(labels, targets, 0)
    ensures var cs := [Block(0, 0, Nest(outer, d))];
      && Enters(Pass(AT_START, out), labels, targets) && HeightAfterSeq(cs, 2, labels, 0) == Live(0)
      && var r := Pass(KEPT, out + (NestOut(outer, d, |out|) + [Mark]));
        LowerSeq(Pass(AT_START, out), labels, targets, cs) == Lowered<Pass>.Ok(r) && Enters(r, labels, targets)
    decreases |outer|, 1
  {
    hide SimOk, LowerSeq, LowerOne, HeightAfterSeq, HeightAfterOne, Enters, Around, Settled, NestOut, Close, PassOk,
         Nest;
    var inner, innerTargets := labels + [AT_ZERO], targets + [ToLabel(|labels|)];
    var body, added := Nest(outer, d), NestOut(outer, d, |out|);
    StartEnters(out, labels, targets);
    Deeper(labels, targets, 0, AT_ZERO, ToLabel(|labels|));
    NestEmits(outer, d, out, inner, innerTargets);
    EndOfNest(outer, d, out, labels, targets);
    var r := Pass(KEPT, out + added + [Mark]);
    BlockIs(Pass(AT_START, out), labels, targets, AT_ZERO, body, inner, innerTargets, Pass(KEPT, out + added), r);
    BlockLeaves(body, 2, labels, inner, AT_ZERO);
    AloneIs(Pass(AT_START, out), labels, targets, Block(0, 0, body), r);
    assert out + added + [Mark] == out + (added + [Mark]);
  }

  /** The end of a construct around the nest. */
  lemma EndOfNest(outer: seq<bool>, d: nat, out: seq<CtlOp>, labels: seq<Label>, targets: seq<Target>)
    requires Settled(out) && Around(labels, targets, 0)
    ensures var p1, r := Pass(KEPT, out + NestOut(outer, d, |out|)),
      Pass(KEPT, out + NestOut(outer, d, |out|) + [Mark]);
      && PassOk(p1, labels + [AT_ZERO]) && Close(p1, labels + [AT_ZERO]) == Lowered<Pass>.Ok(r)
         && Enters(r, labels, targets)
  {
    hide SimOk, Around, Settled, NestOut, Close, PassOk, Enters;
    NestSettled(outer, d, |out|);
    BothSettled(out, NestOut(outer, d, |out|));
    Keeps();
    UnnamedEnd(KEPT, out + NestOut(outer, d, |out|), labels, targets);
  }

  lemma BothSettled(a: seq<CtlOp>, b: seq<CtlOp>)
    requires Settled(a) && Settled(b)
    ensures Settled(a + b)
  {
  }

  lemma {:induction false} LoopOfNest(outer: seq<bool>, d: nat, out: seq<CtlOp>, labels: seq<Label>,
    targets: seq<Target>)
    requires 0 < d && Settled(out) && Around(labels, targets, 0)
    ensures var cs := [Loop(0, 0, Nest(outer, d))];
      && Enters(Pass(AT_START, out), labels, targets) && HeightAfterSeq(cs, 2, labels, 0) == Live(0)
      && var r := Pass(KEPT, out + ([Mark] + NestOut(outer, d, |out| + 1) + [Mark]));
        LowerSeq(Pass(AT_START, out), labels, targets, cs) == Lowered<Pass>.Ok(r) && Enters(r, labels, targets)
    decreases |outer|, 1
  {
    hide SimOk, LowerSeq, LowerOne, HeightAfterSeq, HeightAfterOne, Enters, Around, Settled, NestOut, Close, PassOk,
         Nest, LoopHead;
    var headed := out + [Mark];
    var inner, innerTargets := labels + [AT_ZERO], targets + [ToIndex(|out|)];
    var body, added := Nest(outer, d), NestOut(outer, d, |out| + 1);
    Regrouped(out, added);
    HeadOfNest(out, headed, labels, targets);
    NestEmits(outer, d, headed, inner, innerTargets);
    EndOfNest(outer, d, headed, labels, targets);
    var r := Pass(KEPT, out + ([Mark] + added + [Mark]));
    LoopIs(Pass(AT_START, out), labels, targets, AT_ZERO, body, Pass(AT_START, headed), inner, innerTargets,
           Pass(KEPT, headed + added), r);
    AloneIs(Pass(AT_START, out), labels, targets, Loop(0, 0, body), r);
  }

  lemma Regrouped(out: seq<CtlOp>, added: seq<CtlOp>)
    ensures out + [Mark] + added + [Mark] == out + ([Mark] + added + [Mark])
  {
  }

  /** A loop's head, with nothing borrowed. */
  lemma HeadOfNest(out: seq<CtlOp>, headed: seq<CtlOp>, labels: seq<Label>, targets: seq<Target>)
    requires Settled(out) && Around(labels, targets, 0) && headed == out + [Mark]
    ensures labels != [] && Innermost(labels).base == 0 && Settled(headed)
    ensures Enters(Pass(AT_START, out), labels, targets) && Enters(Pass(AT_START, headed), labels, targets)
    ensures LoopHead(Pass(AT_START, out), labels, 0) == Lowered<Pass>.Ok(Pass(AT_START, headed))
    ensures Around(labels + [AT_ZERO], targets + [ToIndex(|out|)], 0)
  {
    hide SimOk, Enters, Around, Settled, PassOk, LoopHead;
    StartEnters(out, labels, targets);
    MarkSettled();
    BothSettled(out, [Mark]);
    StartEnters(headed, labels, targets);
    BareHead(out, labels, targets);
    Deeper(labels, targets, 0, AT_ZERO, ToIndex(|out|));
  }

  lemma MarkSettled()
    ensures Settled([Mark])
  {
  }

  // ------------------------------------------------------------------ the function

  lemma {:induction false} SeqThenLowered(
    p: Pass, labels: seq<Label>, targets: seq<Target>, cs: seq<Ctl>, rest: seq<Ctl>, p1: Pass, r: Pass)
    requires Enters(p, labels, targets) && HeightAfterSeq(cs, |p.sim.origin|, labels, |p.sim.stack|).Live?
    requires LowerSeq(p, labels, targets, cs) == Lowered<Pass>.Ok(p1)
    requires Enters(p1, labels, targets) && |p1.sim.origin| == |p.sim.origin|
    requires !HeightAfterSeq(rest, |p1.sim.origin|, labels, |p1.sim.stack|).Invalid?
    requires LowerSeq(p1, labels, targets, rest) == Lowered<Pass>.Ok(r)
    ensures HeightAfterSeq(cs + rest, |p.sim.origin|, labels, |p.sim.stack|) ==
            HeightAfterSeq(rest, |p1.sim.origin|, labels, |p1.sim.stack|)
    ensures LowerSeq(p, labels, targets, cs + rest) == Lowered<Pass>.Ok(r)
    decreases cs
  {
    hide SimOk, LowerOne, HeightAfterOne, Evolves;
    if cs == [] {
      assert cs + rest == rest;
    } else {
      assert (cs + rest)[0] == cs[0] && (cs + rest)[1..] == cs[1..] + rest;
      var q := LowerOne(p, labels, targets, cs[0]).value;
      SeqThenLowered(q, labels, targets, cs[1..], rest, p1, r);
    }
  }

  const FUNC_TARGETS: seq<Target> := [ToLabel(0)]
  const RETURN_MOVE: RegOp := Move([FromLocal(1)], 2)
  const NEST_LAYOUT: RegLayout := RegLayout(3, 1, 2, [ValI32(5)])

  lemma NestBodyEmits(outer: seq<bool>, d: nat)
    requires 0 < d
    ensures SimOk(Start(2)) && Enters(StartPass(2), FuncLabels(1), FUNC_TARGETS)
    ensures HeightAfterSeq(NestBody(outer, d), 2, FuncLabels(1), 0) == Live(1)
    ensures var r := Pass(RESULT, NestOut(outer, d, 0));
      && LowerSeq(StartPass(2), FuncLabels(1), FUNC_TARGETS, NestBody(outer, d)) == Lowered<Pass>.Ok(r)
      && Enters(r, FuncLabels(1), FUNC_TARGETS)
  {
    hide SimOk, LowerSeq, LowerOne, LowerOp, HeightAfterSeq, HeightAfterOne, Enters, Around, Settled, NestOut, Nest;
    var labels := FuncLabels(1);
    StartIs();
    InFunction();
    NestEmits(outer, d, [], labels, FUNC_TARGETS);
    var out := NestOut(outer, d, 0);
    assert [] + out == out && out + Wrapped([]) == out;
    Reads();
    NestSettled(outer, d, 0);
    SettledNames(out, 1);
    PlainEmits(KEPT, LocalGet(1), RESULT, [], out, labels, FUNC_TARGETS, 0);
    AloneIs(Pass(KEPT, out), labels, FUNC_TARGETS, Plain(LocalGet(1)), Pass(RESULT, out));
    SeqThenLowered(StartPass(2), labels, FUNC_TARGETS, Nest(outer, d), [Plain(LocalGet(1))], Pass(KEPT, out),
      Pass(RESULT, out));
  }

  lemma SettledNames(out: seq<CtlOp>, n: nat)
    requires Settled(out)
    ensures forall j :: 0 <= j < |out| ==> Names(out[j], n)
  {
    NamesMore(out, 0, n);
  }

  lemma InFunction()
    ensures Around(FuncLabels(1), FUNC_TARGETS, 0) && Settled([])
  {
  }

  /** The nest's code, and the move and the mark that end the function. */
  function NestCode(outer: seq<bool>, d: nat): seq<FrameCtl> {
    ResolveBody(NEST_LAYOUT, NestOut(outer, d, 0) + [Do(RETURN_MOVE), Mark])
  }

  lemma NestLowered(outer: seq<bool>, d: nat)
    requires 0 < d
    ensures BodyValid(NestBody(outer, d), 2, 1)
    ensures LowerStructured(NestBody(outer, d), 2, 1) ==
            Lowered<LoweredBlocks>.Ok(LoweredBlocks(NestCode(outer, d), NEST_LAYOUT))
  {
    hide SimOk, LowerSeq, HeightAfterSeq, Enters, NestOut, ResolveBody, MaterializeP, NestBody;
    var out := NestOut(outer, d, 0);
    NestBodyEmits(outer, d);
    ResultMoves(out);
    NestSettled(outer, d, 0);
    var out2 := out + [Do(RETURN_MOVE)];
    assert Names(Do(RETURN_MOVE), 0);
    SettledPatched(out2, 0);
    assert out2 + [Mark] == out + [Do(RETURN_MOVE), Mark];
    assert LayoutOf(RETURNED) == NEST_LAYOUT;
  }

  lemma ResultMoves(out: seq<CtlOp>)
    requires Enters(Pass(RESULT, out), FuncLabels(1), FUNC_TARGETS)
    ensures PassOk(Pass(RESULT, out), FuncLabels(1))
    ensures MaterializeP(Pass(RESULT, out), FuncLabels(1), 1) ==
            Lowered<Pass>.Ok(Pass(RETURNED, out + [Do(RETURN_MOVE)]))
  {
    hide SimOk, Materialize;
    Returns();
    var r := RETURNED.(code := [RETURN_MOVE]);
    assert Wrapped([RETURN_MOVE]) == [Do(RETURN_MOVE)];
    assert Absorb(out, r) == Pass(RETURNED, out + [Do(RETURN_MOVE)]);
  }

  // ------------------------------------------------------------------ its run

  /** The file throughout: the argument, local 1, the constant, the spill slot nothing writes, the result's register. */
  function File(v: Value): seq<Value> {
    [v, 0, 5, 0, 0]
  }

  lemma NestEntered(v: Value)
    ensures EnterRegs([v], 1, [I32, I32], 0, NEST_LAYOUT) == File(v)
  {
    var g := Grown([v], 5);
    assert g == [v, 0, 0, 0, 0];
    assert Zeros([I32, I32][1..]) == [0];
    assert Overwrite(g, 1, [0]) == g;
    assert UntagAll(NEST_LAYOUT.consts) == [5];
    assert Overwrite(g, 2, [5]) == File(v);
  }

  /** `code` has `ops`, resolved, from index `k` on. */
  ghost predicate HasAt(code: seq<FrameCtl>, k: nat, ops: seq<CtlOp>) {
    k + |ops| <= |code| && forall j :: 0 <= j < |ops| ==> code[k + j] == ResolveCtl(NEST_LAYOUT, [], ops[j])
  }

  lemma HasParts(code: seq<FrameCtl>, k: nat, a: seq<CtlOp>, b: seq<CtlOp>)
    requires HasAt(code, k, a + b)
    ensures HasAt(code, k, a) && HasAt(code, k + |a|, b)
  {
    forall j | 0 <= j < |b| ensures code[k + |a| + j] == ResolveCtl(NEST_LAYOUT, [], b[j]) {
      assert (a + b)[|a| + j] == b[j];
    }
    forall j | 0 <= j < |a| ensures code[k + j] == ResolveCtl(NEST_LAYOUT, [], a[j]) {
      assert (a + b)[j] == a[j];
    }
  }

  lemma OneStep<W>(fx: FileEffects<W>, code: seq<FrameCtl>, pt: Point<W>)
    ensures Steps(fx, NEST_LAYOUT, 0, code, 1, pt) == CtlStep(fx, NEST_LAYOUT, 0, code, pt)
  {
    assert Steps(fx, NEST_LAYOUT, 0, code, 0, CtlStep(fx, NEST_LAYOUT, 0, code, pt))
      == CtlStep(fx, NEST_LAYOUT, 0, code, pt);
  }

  /** The branch, its target's end, and the copy of a slot that nothing wrote. */
  lemma CoreRuns<W>(fx: FileEffects<W>, code: seq<FrameCtl>, d: nat, k: nat, v: Value, w: W)
    requires HasAt(code, k, CoreOut(d, k))
    ensures Steps(fx, NEST_LAYOUT, 0, code, 3, At(k, File(v), w)) == At(k + d + 5, File(v), w)
  {
    var ops := CoreOut(d, k);
    assert ops[0] == Goto(ToIndex(k + d + 3)) && ops[d + 3] == Mark
      && ops[d + 4] == Do(RegOp.SetLocal(1, FromSpill(0)));
    assert code[k + 0] == FGoto(k + d + 3) && code[k + (d + 3)] == FMark && code[k + (d + 4)] == FDo(FSetLocal(1, 3));
    assert File(v)[1 := File(v)[3]] == File(v);
    OneStep(fx, code, At(k, File(v), w));
    OneStep(fx, code, At(k + d + 3, File(v), w));
    OneStep(fx, code, At(k + d + 4, File(v), w));
    StepsAdd(fx, NEST_LAYOUT, 0, code, 1, 1, At(k, File(v), w));
    StepsAdd(fx, NEST_LAYOUT, 0, code, 2, 1, At(k, File(v), w));
  }

  lemma {:induction false} NestRuns<W>(
    fx: FileEffects<W>, code: seq<FrameCtl>, outer: seq<bool>, d: nat, k: nat, v: Value, w: W)
    returns (n: nat)
    requires HasAt(code, k, NestOut(outer, d, k))
    ensures Steps(fx, NEST_LAYOUT, 0, code, n, At(k, File(v), w)) == At(k + |NestOut(outer, d, k)|, File(v), w)
    decreases |outer|
  {
    hide Steps, HasAt, CoreOut, File, CtlStep;
    if outer == [] {
      CoreRuns(fx, code, d, k, v, w);
      n := 3;
    } else {
      var start := At(k, File(v), w);
      var k1 := if outer[0] then k + 1 else k;
      var inside := NestOut(outer[1..], d, k1);
      n := 0;
      if outer[0] {
        assert NestOut(outer, d, k) == [Mark] + (inside + [Mark]);
        HasParts(code, k, [Mark], inside + [Mark]);
        PassesMark(fx, code, k, v, w);
        n := 1;
      } else {
        NoSteps(fx, code, start);
      }
      HasParts(code, k1, inside, [Mark]);
      var m := NestRuns(fx, code, outer[1..], d, k1, v, w);
      StepsAdd(fx, NEST_LAYOUT, 0, code, n, m, start);
      PassesMark(fx, code, k1 + |inside|, v, w);
      StepsAdd(fx, NEST_LAYOUT, 0, code, n + m, 1, start);
      n := n + m + 1;
    }
  }

  lemma NoSteps<W>(fx: FileEffects<W>, code: seq<FrameCtl>, pt: Point<W>)
    ensures Steps(fx, NEST_LAYOUT, 0, code, 0, pt) == pt
  {
  }

  lemma PassesMark<W>(fx: FileEffects<W>, code: seq<FrameCtl>, k: nat, v: Value, w: W)
    requires HasAt(code, k, [Mark])
    ensures Steps(fx, NEST_LAYOUT, 0, code, 1, At(k, File(v), w)) == At(k + 1, File(v), w)
  {
    assert [Mark][0] == Mark && code[k + 0] == FMark;
    OneStep(fx, code, At(k, File(v), w));
  }

  /** The function's end: the result's register gets what local 1 holds. */
  lemma ReturnRuns<W>(fx: FileEffects<W>, code: seq<FrameCtl>, k: nat, v: Value, w: W)
    requires HasAt(code, k, [Do(RETURN_MOVE), Mark])
    ensures Steps(fx, NEST_LAYOUT, 0, code, 2, At(k, File(v), w)) == At(k + 2, File(v), w)
  {
    var ops := [Do(RETURN_MOVE), Mark];
    assert FrameIndices(NEST_LAYOUT, [FromLocal(1)]) == [1];
    assert ops[0] == Do(RETURN_MOVE) && ops[1] == Mark;
    assert code[k + 0] == FDo(FMove([1], 4)) && code[k + 1] == FMark;
    assert Gather(File(v), 0, [1]) == [0] && Overwrite(File(v), 4, [0]) == File(v);
    OneStep(fx, code, At(k, File(v), w));
    OneStep(fx, code, At(k + 1, File(v), w));
    StepsAdd(fx, NEST_LAYOUT, 0, code, 1, 1, At(k, File(v), w));
  }

  lemma NestCodeRuns<W>(fx: FileEffects<W>, outer: seq<bool>, d: nat, v: Value, w: W)
    returns (n: nat)
    ensures Steps(fx, NEST_LAYOUT, 0, NestCode(outer, d), n, At(0, File(v), w)) == At(|NestCode(outer, d)|, File(v), w)
  {
    hide Steps, File, NestOut;
    var code, out := NestCode(outer, d), NestOut(outer, d, 0);
    CodeHasAll(outer, d);
    HasParts(code, 0, out, [Do(RETURN_MOVE), Mark]);
    n := NestRuns(fx, code, outer, d, 0, v, w);
    ReturnRuns(fx, code, |out|, v, w);
    StepsAdd(fx, NEST_LAYOUT, 0, code, n, 2, At(0, File(v), w));
    n := n + 2;
  }

  lemma CodeHasAll(outer: seq<bool>, d: nat)
    ensures HasAt(NestCode(outer, d), 0, NestOut(outer, d, 0) + [Do(RETURN_MOVE), Mark])
    ensures |NestCode(outer, d)| == |NestOut(outer, d, 0)| + 2
  {
    hide NestOut;
  }

  /** The branch is not inward: it goes to the end of a block, with no loop between. */
  lemma {:induction false} DeepNotInward(j: nat, d: nat, free: seq<bool>)
    requires j <= d && d - j < |free| && forall k :: |free| - 1 - (d - j) <= k < |free| ==> !free[k]
    requires 0 < d
    ensures !Inward(Deep(j, d), free)
  {
    if j != 0 {
      DeepNotInward(j - 1, d, free + [false]);
    }
  }

  lemma {:induction false} NestNotInward(outer: seq<bool>, d: nat, free: seq<bool>)
    requires 0 < d
    ensures !Inward(Nest(outer, d), free)
    decreases |outer|
  {
    if outer == [] {
      DeepNotInward(d, d, free + [false]);
      HeadDecides(Deep(d, d), [FIVE, WRITE], free + [false]);
      var rest := Core(d)[1..];
      assert rest[0] == Block(0, 0, TargetBody(d)) && Core(d)[0] == Plain(LocalGet(0));
      assert !InwardOne(rest[0], free) && !Inward(rest, free);
    } else {
      NestNotInward(outer[1..], d, free + [outer[0]]);
    }
  }

  lemma HeadDecides(cs: seq<Ctl>, rest: seq<Ctl>, free: seq<bool>)
    requires |cs| == 1 && !Inward(cs, free)
    ensures !Inward(cs + rest, free)
  {
    assert cs[1..] == [] && (cs + rest)[0] == cs[0];
  }

  lemma {:induction false} PrefixDecides(cs: seq<Ctl>, rest: seq<Ctl>, free: seq<bool>)
    requires !Inward(cs, free)
    ensures !Inward(cs + rest, free)
    decreases cs
  {
    assert (cs + rest)[0] == cs[0] && (cs + rest)[1..] == cs[1..] + rest;
    if InwardOne(cs[0], free) {
      PrefixDecides(cs[1..], rest, free);
    }
  }

  /**
   The source-level check refuses no place for a branch without reason.  Take any nest of blocks
   and loops, a block in it, and a branch to that block's end from any number of blocks further
   in: there is a valid body with the branch in that place that the pass accepts and lowers
   wrongly.  The stack machine returns the argument, and the lowered code ends with zero.
   */
  lemma OutwardPlacesGoWrong<W>(fx: FileEffects<W>, outer: seq<bool>, d: nat, v: Value, w: W, fuel: nat)
    returns (n: nat)
    requires 0 < d
    ensures BodyValid(NestBody(outer, d), 2, 1) && !Inward(NestBody(outer, d), [true])
    ensures RunSeq(fx.effects, fuel, NestBody(outer, d), State([v, 0], [], w)) == Flow<W>.Fall(State([v, v], [v], w))
    ensures LowerStructured(NestBody(outer, d), 2, 1) ==
            Lowered<LoweredBlocks>.Ok(LoweredBlocks(NestCode(outer, d), NEST_LAYOUT))
    ensures var code := NestCode(outer, d);
      var pt := Steps(fx, NEST_LAYOUT, 0, code, n, At(0, EnterRegs([v], 1, [I32, I32], 0, NEST_LAYOUT), w));
      pt.At? && pt.pc == |code| && |pt.regs| == 5 && ExitRegs(pt.regs, 1, 0, NEST_LAYOUT)[..1] == [0]
  {
    hide Steps, EnterRegs, RunSeq, LowerStructured, BodyValid, NestCode, Nest;
    NestLowered(outer, d);
    StackMachineKeepsArgument(fx.effects, fuel, outer, d, v, w);
    NestNotInward(outer, d, [true]);
    PrefixDecides(Nest(outer, d), [Plain(LocalGet(1))], [true]);
    NestEntered(v);
    n := NestCodeRuns(fx, outer, d, v, w);
    assert ExitRegs(File(v), 1, 0, NEST_LAYOUT)[0] == 0;
  }
}
