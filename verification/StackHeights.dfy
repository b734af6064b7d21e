/**
 The stack machine's `execute` on lowered code, and why the heights the pass computes are those
 the operand stack has: at every instruction control reaches, at every depth of calls.
 */
module StackExecution {
  import opened Values
  import opened Drivers
  import opened OperandStack
  import opened StackCode
  import opened BlockCode
  import opened LoweredPrograms
  import opened StackLowering

  /**
   `Instruction::execute` for the stack machine, in the frame at `b`.  An `end` asserts the height
   it was lowered for.
   */
  function ExecuteStack<W>(i: StackInstr, rt: Runtime<W>, b: StackBase, s: StackStore<W>)
    : Exec<StackBase, StackStore<W>>
  {
    var n := |s.slots|;
    match i
    case IOp(op) => ExecuteStackOp(op, rt, b, s)
    case IBlock => Exec.Ok(Next, s)
    case ILoop => Exec.Ok(Next, s)
    case IBr(target, arity, height) => Leap(target, arity, b.operandBase + height, s)
    case IBrIf(target, arity, height) =>
      if n == 0 then Exec.Trap(PANIC, s)
      else
        var rest := s.(slots := s.slots[..n - 1]);
        if IsTrue(s.slots[n - 1]) then Leap(target, arity, b.operandBase + height, rest) else Exec.Ok(Next, rest)
    case IUnreachable => Exec.Trap(Fault(2), s)
    case IEnd(arity, height) =>
      if n == b.operandBase + height + arity then Exec.Ok(Next, s) else Exec.Trap(PANIC, s)
  }

  /** A taken branch: unwinds to `height`, keeping the top `arity` values. */
  function Leap<W>(target: nat, arity: nat, height: int, s: StackStore<W>): Exec<StackBase, StackStore<W>> {
    var n := |s.slots|;
    if 0 <= height && height + arity <= n then
      Exec.Ok(JumpTo(target), s.(slots := s.slots[..height] + s.slots[n - arity..]))
    else Exec.Trap(PANIC, s)
  }

  function ExecuteStackOp<W>(op: Op, rt: Runtime<W>, b: StackBase, s: StackStore<W>): Exec<StackBase, StackStore<W>> {
    var n := |s.slots|;
    match op
    case Const(c) => Exec.Ok(Next, s.(slots := s.slots + [Untag(c)]))
    case LocalGet(i) =>
      if b.baseHeight + i < n then Exec.Ok(Next, s.(slots := s.slots + [s.slots[b.baseHeight + i]]))
      else Exec.Trap(PANIC, s)
    case LocalSet(i) =>
      if b.baseHeight + i < n - 1 then
        Exec.Ok(Next, s.(slots := s.slots[..n - 1][b.baseHeight + i := s.slots[n - 1]]))
      else Exec.Trap(PANIC, s)
    case LocalTee(i) =>
      if b.baseHeight + i < n then Exec.Ok(Next, s.(slots := s.slots[b.baseHeight + i := s.slots[n - 1]]))
      else Exec.Trap(PANIC, s)
    case Drop => if 0 < n then Exec.Ok(Next, s.(slots := s.slots[..n - 1])) else Exec.Trap(PANIC, s)
    case Apply(code, ins, outs) =>
      if ins <= n then Replaced(rt.apply(code, s.slots[n - ins..], s.rest), ins, outs, s) else Exec.Trap(PANIC, s)
    case Invoke(callee, params, results) =>
      if n < params then Exec.Trap(PANIC, s)
      else if callee < rt.imports then Replaced(rt.host(callee, s.slots[n - params..], s.rest), params, results, s)
      else Exec.Ok(Step.Call(callee, StackBase(n - params, UNSET), None), s)
  }

  /** The top `ins` values give way to what an operator or the host answered. */
  function Replaced<W>(answer: (Option<seq<Value>>, W), ins: nat, outs: nat, s: StackStore<W>)
    : Exec<StackBase, StackStore<W>>
    requires ins <= |s.slots|
  {
    match Answer(answer, outs)
    case Goes((rs, w)) => Exec.Ok(Next, StackStore(s.slots[..|s.slots| - ins] + rs, w))
    case Trapped(w) => Exec.Trap(Fault(0), s.(rest := w))
  }
}

/** The heights, and the check that every instruction respects them. */
module StackHeights {
  import opened Values
  import opened StackCode
  import opened BlockCode
  import opened StackLowering

  /** The height of the operands at each instruction, where control can be. */
  function Heights(cs: seq<Ctl>, t: Track): (hs: seq<Option<int>>)
    ensures |hs| == Size(cs)
    decreases cs
  {
    if cs == [] then [] else HeightsOne(cs[0], t) + Heights(cs[1..], TrackOne(cs[0], t))
  }

  function HeightsOne(c: Ctl, t: Track): (hs: seq<Option<int>>)
    ensures |hs| == SizeOne(c)
    decreases c
  {
    if t.dead then seq(SizeOne(c), _ => None)
    else
      match c
      case Block(params, results, body) => [Some(t.height)] + Heights(body, t) + [Some(t.height - params + results)]
      case Loop(params, results, body) => [Some(t.height)] + Heights(body, t) + [Some(t.height - params + results)]
      case _ => [Some(t.height)]
  }

  function BodyHeights(cs: seq<Ctl>, results: nat): (hs: seq<Option<int>>)
    ensures |hs| == Size(cs) + 1
  {
    Heights(cs, Track(0, false)) + [Some(results)]
  }

  predicate HeightIs(hs: seq<Option<int>>, pc: nat, h: int) {
    pc < |hs| && hs[pc] == Some(h)
  }

  /** From height `h` at `pc`, control goes on only to instructions at the height it brings. */
  predicate Respects(code: seq<StackInstr>, hs: seq<Option<int>>, locals: nat, results: nat, pc: nat, h: int)
    requires pc < |code| == |hs|
  {
    && 0 <= h
    && match code[pc]
       case IOp(op) => Valid(op, locals, h) && HeightIs(hs, pc + 1, HeightAfter(op, locals, h))
       case IBlock => HeightIs(hs, pc + 1, h)
       case ILoop => HeightIs(hs, pc + 1, h)
       case IBr(target, arity, height) => 0 <= height && height + arity <= h && HeightIs(hs, target, height + arity)
       case IBrIf(target, arity, height) =>
         && 0 <= height && height + arity <= h - 1 && HeightIs(hs, target, height + arity)
         && HeightIs(hs, pc + 1, h - 1)
       case IUnreachable => true
       case IEnd(arity, height) =>
         && 0 <= height && h == height + arity
         && if pc + 1 == |code| then arity == results && height == 0 else HeightIs(hs, pc + 1, h)
  }

  predicate Certified(code: seq<StackInstr>, hs: seq<Option<int>>, locals: nat, results: nat, pc: nat) {
    && pc < |code| == |hs|
    && (hs[pc].Some? ==> Respects(code, hs, locals, results, pc, hs[pc].value))
  }

  // ------------------------------------------------------------------ emitted code respects the heights

  /** What branches to the open labels are given, and the heights at their targets. */
  ghost predicate ExitsMatch(labels: seq<Label>, exits: seq<Exit>, hs: seq<Option<int>>) {
    && labels != [] && |exits| == |labels|
    && forall k :: 0 <= k < |labels| ==>
      && exits[k].height == labels[k].base && exits[k].arity == labels[k].arity
      && labels[k].base <= Innermost(labels).base
      && HeightIs(hs, exits[k].target, labels[k].base + labels[k].arity)
  }

  /** The code and the heights from `at` on are those of `cs`. */
  ghost predicate EmittedAt(
    code: seq<StackInstr>, hs: seq<Option<int>>, cs: seq<Ctl>, at: nat, exits: seq<Exit>, t: Track)
    requires DepthsOk(cs, |exits|)
  {
    && at + Size(cs) < |code| == |hs|
    && code[at..at + Size(cs)] == Emit(cs, at, exits, t)
    && hs[at..at + Size(cs)] == Heights(cs, t)
  }

  ghost predicate EmittedOneAt(
    code: seq<StackInstr>, hs: seq<Option<int>>, c: Ctl, at: nat, exits: seq<Exit>, t: Track)
    requires DepthsOkOne(c, |exits|)
  {
    && at + SizeOne(c) < |code| == |hs|
    && code[at..at + SizeOne(c)] == EmitOne(c, at, exits, t)
    && hs[at..at + SizeOne(c)] == HeightsOne(c, t)
  }

  lemma SplitSlice<T>(s: seq<T>, at: nat, xs: seq<T>, ys: seq<T>)
    requires at + |xs| + |ys| <= |s| && s[at..at + |xs| + |ys|] == xs + ys
    ensures s[at..at + |xs|] == xs && s[at + |xs|..at + |xs| + |ys|] == ys
  {
    assert s[at..at + |xs|] == (xs + ys)[..|xs|];
    assert s[at + |xs|..at + |xs| + |ys|] == (xs + ys)[|xs|..];
  }

  lemma EmitIs(cs: seq<Ctl>, at: nat, exits: seq<Exit>, t: Track)
    requires cs != [] && DepthsOk(cs, |exits|)
    ensures Size(cs) == SizeOne(cs[0]) + Size(cs[1..]) && 0 < SizeOne(cs[0])
    ensures Emit(cs, at, exits, t)
         == EmitOne(cs[0], at, exits, t) + Emit(cs[1..], at + SizeOne(cs[0]), exits, TrackOne(cs[0], t))
    ensures Heights(cs, t) == HeightsOne(cs[0], t) + Heights(cs[1..], TrackOne(cs[0], t))
  {
  }

  lemma EmittedInTurn(
    code: seq<StackInstr>, hs: seq<Option<int>>, cs: seq<Ctl>, at: nat, exits: seq<Exit>, t: Track)
    requires cs != [] && DepthsOk(cs, |exits|) && EmittedAt(code, hs, cs, at, exits, t)
    ensures EmittedOneAt(code, hs, cs[0], at, exits, t)
    ensures EmittedAt(code, hs, cs[1..], at + SizeOne(cs[0]), exits, TrackOne(cs[0], t))
  {
    hide Emit, EmitOne, Heights, HeightsOne, Size, SizeOne, TrackOne, DepthsOkOne;
    var at1, t1 := at + SizeOne(cs[0]), TrackOne(cs[0], t);
    EmitIs(cs, at, exits, t);
    SplitSlice(code, at, EmitOne(cs[0], at, exits, t), Emit(cs[1..], at1, exits, t1));
    SplitSlice(hs, at, HeightsOne(cs[0], t), Heights(cs[1..], t1));
  }

  lemma HeightsHead(cs: seq<Ctl>, t: Track)
    requires cs != [] && !t.dead
    ensures Heights(cs, t)[0] == Some(t.height)
  {
  }

  lemma {:induction false} NoHeights(cs: seq<Ctl>, t: Track, j: nat)
    requires t.dead && j < Size(cs)
    ensures Heights(cs, t)[j] == None
    decreases |cs|
  {
    if SizeOne(cs[0]) <= j {
      NoHeights(cs[1..], t, j - SizeOne(cs[0]));
    }
  }

  lemma TrackIsHeight(c: Ctl, locals: nat, labels: seq<Label>, t: Track)
    requires labels != [] && !t.dead && 0 <= t.height && HeightAfterOne(c, locals, labels, t.height).Live?
    ensures TrackOne(c, t) == Track(HeightAfterOne(c, locals, labels, t.height).height, false)
  {
    hide HeightAfterSeq;
  }

  /** Every instruction of a validated sequence respects the heights, if what follows it does. */
  lemma {:induction false} SeqCertified(
    code: seq<StackInstr>, hs: seq<Option<int>>, cs: seq<Ctl>, at: nat, labels: seq<Label>, exits: seq<Exit>,
    height: nat, locals: nat, results: nat, pc: nat)
    requires labels != [] && DepthsOk(cs, |exits|) && EmittedAt(code, hs, cs, at, exits, Track(height, false))
    requires ExitsMatch(labels, exits, hs) && HeightAfterSeq(cs, locals, labels, height) != Invalid
    requires HeightAfterSeq(cs, locals, labels, height).Live? ==>
      HeightIs(hs, at + Size(cs), HeightAfterSeq(cs, locals, labels, height).height)
    requires at <= pc < at + Size(cs)
    ensures Certified(code, hs, locals, results, pc)
    decreases cs, 0
  {
    hide Respects, Emit, EmitOne, Heights, HeightsOne, ExitsMatch, EmittedAt, EmittedOneAt, HeightAfterOne, Size;
    NoInstructions(cs);
    var t := Track(height, false);
    EmittedInTurn(code, hs, cs, at, exits, t);
    EmitIs(cs, at, exits, t);
    var c, at1, t1 := cs[0], at + SizeOne(cs[0]), TrackOne(cs[0], t);
    if c.Br? || c.Unreachable? {
      if pc == at {
        StopCertified(code, hs, c, at, labels, exits, height, locals, results);
      } else {
        DeadCertified(code, hs, cs[1..], at1, exits, t1, locals, results, pc);
      }
    } else {
      var h1 := HeightAfterOne(c, locals, labels, height).height;
      TrackIsHeight(c, locals, labels, t);
      HeightAfterFirst(code, hs, cs, at, labels, exits, height, locals);
      if pc < at1 {
        OneCertified(code, hs, c, at, labels, exits, height, locals, results, pc);
      } else {
        SeqCertified(code, hs, cs[1..], at1, labels, exits, h1, locals, results, pc);
      }
    }
  }

  lemma NoInstructions(cs: seq<Ctl>)
    ensures cs == [] ==> Size(cs) == 0
  {
  }

  lemma DeadCertified(
    code: seq<StackInstr>, hs: seq<Option<int>>, cs: seq<Ctl>, at: nat, exits: seq<Exit>, t: Track, locals: nat,
    results: nat, pc: nat)
    requires DepthsOk(cs, |exits|) && EmittedAt(code, hs, cs, at, exits, t) && t.dead
    requires at <= pc < at + Size(cs)
    ensures Certified(code, hs, locals, results, pc)
  {
    hide Heights, Emit, Size;
    NoHeights(cs, t, pc - at);
    assert hs[at..at + Size(cs)][pc - at] == hs[pc];
  }

  /** The height the rest of a sequence begins at, be it that the rest is empty. */
  lemma HeightAfterFirst(
    code: seq<StackInstr>, hs: seq<Option<int>>, cs: seq<Ctl>, at: nat, labels: seq<Label>, exits: seq<Exit>,
    height: nat, locals: nat)
    requires cs != [] && labels != [] && DepthsOk(cs[1..], |exits|)
    requires HeightAfterOne(cs[0], locals, labels, height).Live? && !cs[0].Br? && !cs[0].Unreachable?
    requires var h1 := HeightAfterOne(cs[0], locals, labels, height).height;
      && EmittedAt(code, hs, cs[1..], at + SizeOne(cs[0]), exits, Track(h1, false))
      && at + Size(cs) == at + SizeOne(cs[0]) + Size(cs[1..])
    requires HeightAfterSeq(cs, locals, labels, height).Live? ==>
      HeightIs(hs, at + Size(cs), HeightAfterSeq(cs, locals, labels, height).height)
    ensures HeightIs(hs, at + SizeOne(cs[0]), HeightAfterOne(cs[0], locals, labels, height).height)
  {
    hide HeightAfterOne, Emit, Heights;
    var h1, at1 := HeightAfterOne(cs[0], locals, labels, height).height, at + SizeOne(cs[0]);
    EmptyBody(cs[1..], locals, labels, h1);
    if Size(cs[1..]) != 0 {
      HeightsHead(cs[1..], Track(h1, false));
      assert hs[at1..at1 + Size(cs[1..])][0] == hs[at1];
    }
  }

  lemma StopCertified(
    code: seq<StackInstr>, hs: seq<Option<int>>, c: Ctl, at: nat, labels: seq<Label>, exits: seq<Exit>,
    height: nat, locals: nat, results: nat)
    requires DepthsOkOne(c, |exits|) && EmittedOneAt(code, hs, c, at, exits, Track(height, false))
    requires ExitsMatch(labels, exits, hs)
    requires c.Unreachable? || (c.Br? && BranchValid(labels, c.depth, height))
    ensures Certified(code, hs, locals, results, at)
  {
    assert code[at] == code[at..at + 1][0] && hs[at] == hs[at..at + 1][0];
  }

  lemma {:induction false} OneCertified(
    code: seq<StackInstr>, hs: seq<Option<int>>, c: Ctl, at: nat, labels: seq<Label>, exits: seq<Exit>,
    height: nat, locals: nat, results: nat, pc: nat)
    requires DepthsOkOne(c, |exits|) && EmittedOneAt(code, hs, c, at, exits, Track(height, false))
    requires ExitsMatch(labels, exits, hs) && HeightAfterOne(c, locals, labels, height).Live?
    requires HeightIs(hs, at + SizeOne(c), HeightAfterOne(c, locals, labels, height).height)
    requires at <= pc < at + SizeOne(c)
    ensures Certified(code, hs, locals, results, pc)
    decreases c, 0
  {
    hide Emit, Heights, HeightAfterSeq;
    match c
    case Plain(_) => assert code[at] == code[at..at + 1][0] && hs[at] == hs[at..at + 1][0];
    case BrIf(_) => assert code[at] == code[at..at + 1][0] && hs[at] == hs[at..at + 1][0];
    case Block(params, r, body) =>
      InsideCertified(code, hs, c, at, labels, exits, height, locals, results, pc,
                      Label(height - params, r, r), Exit(at + 1 + Size(body), r, height - params));
    case Loop(params, r, body) =>
      InsideCertified(code, hs, c, at, labels, exits, height, locals, results, pc,
                      Label(height - params, params, r), Exit(at, params, height - params));
  }

  /** A construct: its head, its body with its own label open, and its end. */
  lemma {:induction false} InsideCertified(
    code: seq<StackInstr>, hs: seq<Option<int>>, c: Ctl, at: nat, labels: seq<Label>, exits: seq<Exit>,
    height: nat, locals: nat, results: nat, pc: nat, lab: Label, x: Exit)
    requires (c.Block? || c.Loop?) && DepthsOkOne(c, |exits|) && c.params <= height
    requires EmittedOneAt(code, hs, c, at, exits, Track(height, false)) && ExitsMatch(labels, exits, hs)
    requires lab == Label(height - c.params, if c.Block? then c.results else c.params, c.results)
    requires x == Exit(if c.Block? then at + 1 + Size(c.body) else at, lab.arity, height - c.params)
    requires HeightAfterOne(c, locals, labels, height) == Live(height - c.params + c.results)
    requires HeightIs(hs, at + SizeOne(c), height - c.params + c.results) && at <= pc < at + SizeOne(c)
    ensures Certified(code, hs, locals, results, pc)
    decreases c.body, 1
  {
    hide Emit, Heights, HeightAfterSeq, EmitOne, HeightsOne, EmittedOneAt, EmittedAt, Size, SizeOne;
    var t, end := Track(height, false), at + 1 + Size(c.body);
    ConstructAt(code, hs, c, at, exits, t, x);
    ExitsMatchInside(labels, exits, hs, lab, x);
    if at < pc < end {
      SeqCertified(code, hs, c.body, at + 1, labels + [lab], exits + [x], height, locals, results, pc);
    } else if pc == at {
      EmptyBody(c.body, locals, labels + [lab], height);
      HeadHeight(code, hs, c.body, at + 1, exits + [x], t, height - c.params + c.results);
    }
  }

  lemma EmptyBody(cs: seq<Ctl>, locals: nat, labels: seq<Label>, height: nat)
    requires labels != []
    ensures Size(cs) == 0 ==> HeightAfterSeq(cs, locals, labels, height) == Live(height)
  {
    if cs != [] {
      assert 0 < SizeOne(cs[0]);
    }
  }

  lemma HeadHeight(
    code: seq<StackInstr>, hs: seq<Option<int>>, body: seq<Ctl>, at: nat, exits: seq<Exit>, t: Track, after: int)
    requires !t.dead && DepthsOk(body, |exits|) && EmittedAt(code, hs, body, at, exits, t)
    requires Size(body) == 0 ==> after == t.height
    requires hs[at + Size(body)] == Some(after)
    ensures HeightIs(hs, at, t.height)
  {
    if Size(body) != 0 {
      HeightsHead(body, t);
      assert hs[at..at + Size(body)][0] == hs[at];
    }
  }

  /** Where the pieces of a construct are. */
  lemma ConstructAt(
    code: seq<StackInstr>, hs: seq<Option<int>>, c: Ctl, at: nat, exits: seq<Exit>, t: Track, x: Exit)
    requires (c.Block? || c.Loop?) && DepthsOkOne(c, |exits|) && !t.dead && EmittedOneAt(code, hs, c, at, exits, t)
    requires x == Exit(if c.Block? then at + 1 + Size(c.body) else at, if c.Block? then c.results else c.params,
                       t.height - c.params)
    ensures var end := at + 1 + Size(c.body);
      && end + 1 < |code| == |hs| && end + 1 == at + SizeOne(c)
      && DepthsOk(c.body, |exits + [x]|) && EmittedAt(code, hs, c.body, at + 1, exits + [x], t)
      && code[at] == (if c.Block? then IBlock else ILoop) && hs[at] == Some(t.height)
      && code[end] == IEnd(c.results, t.height - c.params) && hs[end] == Some(t.height - c.params + c.results)
  {
    hide Emit, Heights, Size;
    EmitOneIs(c, at, exits, t);
    ThreePieces(code, at, if c.Block? then IBlock else ILoop, Emit(c.body, at + 1, exits + [x], t),
                IEnd(c.results, t.height - c.params));
    ThreePieces(hs, at, Some(t.height), Heights(c.body, t), Some(t.height - c.params + c.results));
  }

  lemma EmitOneIs(c: Ctl, at: nat, exits: seq<Exit>, t: Track)
    requires (c.Block? || c.Loop?) && DepthsOkOne(c, |exits|) && !t.dead
    ensures var x := Exit(if c.Block? then at + 1 + Size(c.body) else at, if c.Block? then c.results else c.params,
                          t.height - c.params);
      && SizeOne(c) == Size(c.body) + 2 && DepthsOk(c.body, |exits + [x]|)
      && EmitOne(c, at, exits, t)
         == [if c.Block? then IBlock else ILoop] + Emit(c.body, at + 1, exits + [x], t)
           + [IEnd(c.results, t.height - c.params)]
      && HeightsOne(c, t) == [Some(t.height)] + Heights(c.body, t) + [Some(t.height - c.params + c.results)]
  {
    hide Emit, Heights, Size;
  }

  lemma ThreePieces<T>(s: seq<T>, at: nat, head: T, inner: seq<T>, close: T)
    requires at + |inner| + 2 <= |s| && s[at..at + |inner| + 2] == [head] + inner + [close]
    ensures s[at] == head && s[at + 1..at + 1 + |inner|] == inner && s[at + 1 + |inner|] == close
  {
    var all := [head] + inner + [close];
    assert s[at] == all[0] && s[at + 1 + |inner|] == all[1 + |inner|];
    forall j | 0 <= j < |inner| ensures s[at + 1 + j] == inner[j] {
      assert s[at..at + |inner| + 2][1 + j] == all[1 + j];
    }
  }

  /** The construct's own label is one more. */
  lemma ExitsMatchInside(labels: seq<Label>, exits: seq<Exit>, hs: seq<Option<int>>, lab: Label, x: Exit)
    requires ExitsMatch(labels, exits, hs) && Innermost(labels).base <= lab.base
    requires x.height == lab.base && x.arity == lab.arity && HeightIs(hs, x.target, lab.base + lab.arity)
    ensures ExitsMatch(labels + [lab], exits + [x], hs)
  {
  }

  /** Every instruction of an emitted body respects the body's heights, and control begins at height 0. */
  lemma BodyCertified(cs: seq<Ctl>, locals: nat, results: nat, pc: nat)
    requires DepthsOk(cs, 1) && Validates(cs, locals, results) && pc <= Size(cs)
    ensures Certified(EmitBody(cs, results), BodyHeights(cs, results), locals, results, pc)
    ensures HeightIs(BodyHeights(cs, results), 0, 0)
  {
    hide Emit, Heights, HeightAfterSeq;
    var code, hs := EmitBody(cs, results), BodyHeights(cs, results);
    var exits := [Exit(Size(cs), results, 0)];
    assert code[0..0 + Size(cs)] == Emit(cs, 0, exits, Track(0, false));
    assert hs[0..0 + Size(cs)] == Heights(cs, Track(0, false));
    EmptyBody(cs, locals, FuncLabels(results), 0);
    HeadHeight(code, hs, cs, 0, exits, Track(0, false), results);
    if pc < Size(cs) {
      SeqCertified(code, hs, cs, 0, FuncLabels(results), exits, 0, locals, results, pc);
    }
  }
}
