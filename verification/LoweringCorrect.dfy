/**
 The lowered body computes what the stack machine computes.  The relation says where, in the
 frame, each operand of the stack machine is; every operator keeps it, and the body's end turns
 it into results at the frame's base.
 */
module LoweringCorrect {
  import opened Values
  import opened RegisterLayout
  import opened StackCode
  import opened RegisterLowering
  import opened LoweredBody

  /** A layout with room for everything the pass has asked for so far. */
  ghost predicate Fits(s: Sim, l: RegLayout) {
    && |s.origin| == l.localsCount && s.consts <= l.consts
    && s.allocLen <= l.spills && s.maxReg <= l.registers
  }

  /** The frame index operand `j` is read from. */
  function Addr(s: Sim, l: RegLayout, j: nat): nat
    requires j < |s.stack| && (s.stack[j].SLocal? ==> s.stack[j].entry < |s.arena|)
  {
    FrameIndex(l, SourceOf(s, s.stack[j]))
  }

  /** The first operand register not in use. */
  function FirstFree(s: Sim, l: RegLayout): nat {
    s.currReg + |l.consts| + l.spills
  }

  /** The frame at `b` holds the stack machine's locals and operands. */
  ghost predicate Rel(s: Sim, l: RegLayout, b: nat, locals: seq<Value>, stack: seq<Value>, regs: seq<Value>) {
    && SimOk(s) && Fits(s, l) && RegIntact(l, b, regs)
    && |locals| == l.localsCount && |stack| == |s.stack|
    && (forall i :: 0 <= i < |locals| ==> regs[b + i] == locals[i])
    && forall j :: 0 <= j < |stack| ==> b + Addr(s, l, j) < |regs| && regs[b + Addr(s, l, j)] == stack[j]
  }

  // ------------------------------------------------------------------ where operands are

  lemma SourceBounds(s: Sim, j: nat)
    requires SimOk(s) && j < |s.stack|
    ensures match SourceOf(s, s.stack[j])
            case FromLocal(i) => i < |s.origin| && s.origin[i] == Some(s.stack[j].entry)
            case FromConst(id) => id < |s.consts|
            case FromSpill(k) => k < s.allocLen && k !in s.free && LiveSpill(s, s.stack[j].entry)
            case FromReg(r) => |s.origin| <= r < s.currReg
  {
    match s.stack[j]
    case SLocal(e) => CountPositive(s.stack, j);
    case SReg(_) => RegsMonotone(s.stack, j);
    case SConst(_) =>
  }

  lemma AddrBelow(s: Sim, l: RegLayout, j: nat)
    requires SimOk(s) && Fits(s, l) && j < |s.stack|
    ensures Addr(s, l, j) < FirstFree(s, l) <= Width(l)
  {
    SourceBounds(s, j);
  }

  lemma IntactLength(l: RegLayout, b: nat, regs: seq<Value>)
    requires RegIntact(l, b, regs)
    ensures b + Width(l) <= |regs|
  {
  }

  lemma EntriesExist(s: Sim)
    requires SimOk(s)
    ensures forall j :: 0 <= j < |s.stack| && s.stack[j].SLocal? ==> s.stack[j].entry < |s.arena|
    ensures forall i :: 0 <= i < |s.origin| && s.origin[i].Some? ==> s.origin[i].value < |s.arena|
  {
  }

  /** A local that is borrowed is still read in place. */
  lemma OriginInPlace(s: Sim, i: nat)
    requires SimOk(s) && i < |s.origin|
    ensures s.origin[i].Some? ==>
      s.origin[i].value < |s.arena| && s.arena[s.origin[i].value].location == Original(i)
  {
  }

  /** The inputs an instruction names are the top operands, in order. */
  lemma InputsAre(s: Sim, l: RegLayout, b: nat, locals: seq<Value>, stack: seq<Value>, regs: seq<Value>, n: nat)
    requires Rel(s, l, b, locals, stack, regs) && n <= |stack|
    ensures var inputs := FrameIndices(l, Inputs(s, n));
      && (forall j :: 0 <= j < n ==> inputs[j] < Width(l))
      && Gather(regs, b, inputs) == stack[|stack| - n..]
  {
    hide Count, Regs, SpillsOk, OriginsOk, RegIntact;
    IntactLength(l, b, regs);
    var inputs := FrameIndices(l, Inputs(s, n));
    forall j | 0 <= j < n ensures inputs[j] < Width(l) && regs[b + inputs[j]] == stack[|stack| - n + j] {
      AddrBelow(s, l, |stack| - n + j);
      assert inputs[j] == Addr(s, l, |stack| - n + j);
    }
  }

  // ------------------------------------------------------------------ the relation, move by move

  lemma EmitRel(s: Sim, l: RegLayout, b: nat, locals: seq<Value>, stack: seq<Value>, regs: seq<Value>, op: RegOp)
    requires Rel(s, l, b, locals, stack, regs)
    ensures Rel(Emit(s, op), l, b, locals, stack, regs)
  {
    EmitKeepsOk(s, op);
    assert forall j :: 0 <= j < |stack| ==> Addr(Emit(s, op), l, j) == Addr(s, l, j);
  }

  lemma PopsRel(s: Sim, l: RegLayout, b: nat, locals: seq<Value>, stack: seq<Value>, regs: seq<Value>, n: nat)
    requires Rel(s, l, b, locals, stack, regs) && n <= |stack|
    ensures Rel(Pops(s, n), l, b, locals, stack[..|stack| - n], regs)
  {
    hide SimOk, RegIntact;
    FromRel(s, l, b, locals, stack, regs);
    var r := Pops(s, n);
    EntriesExist(r);
    assert forall j :: 0 <= j < |r.stack| ==> Addr(r, l, j) == Addr(s, l, j);
  }

  lemma PushLocalRel(s: Sim, l: RegLayout, b: nat, locals: seq<Value>, stack: seq<Value>, regs: seq<Value>, i: nat)
    requires Rel(s, l, b, locals, stack, regs) && i < |locals|
    ensures Rel(PushLocal(s, i), l, b, locals, stack + [locals[i]], regs)
  {
    hide SimOk, RegIntact;
    FromRel(s, l, b, locals, stack, regs);
    PushLocalKeepsOk(s, i);
    var r := PushLocal(s, i);
    OriginInPlace(s, i);
    EntriesExist(r);
    assert Addr(r, l, |stack|) == i;
    assert forall j :: 0 <= j < |stack| ==> Addr(r, l, j) == Addr(s, l, j);
  }

  lemma PushConstRel(s: Sim, l: RegLayout, b: nat, locals: seq<Value>, stack: seq<Value>, regs: seq<Value>, c: Val)
    requires Rel(s, l, b, locals, stack, regs) && PushConst(s, c).Ok? && Fits(PushConst(s, c).value, l)
    ensures Rel(PushConst(s, c).value, l, b, locals, stack + [Untag(c)], regs)
  {
    hide SimOk;
    FromRel(s, l, b, locals, stack, regs);
    PushConstKeepsOk(s, c);
    var r := PushConst(s, c).value;
    EntriesExist(r);
    var id := r.stack[|stack|].id;
    assert Addr(r, l, |stack|) == id + l.localsCount && l.consts[id] == c;
    assert regs[b + l.localsCount..b + l.localsCount + |l.consts|][id] == Untag(c);
    assert forall j :: 0 <= j < |stack| ==> Addr(r, l, j) == Addr(s, l, j);
  }

  /** Pushing registers leaves the operands where they were and puts the new ones in a row above them. */
  lemma PushedPlaces(s: Sim, l: RegLayout, n: nat)
    requires SimOk(s) && PushRegs(s, n).Ok?
    ensures var r := PushRegs(s, n).value;
      && SimOk(r) && |r.stack| == |s.stack| + n
      && forall j :: 0 <= j < |r.stack| ==>
        && (r.stack[j].SLocal? ==> r.stack[j].entry < |r.arena|)
        && (j < |s.stack| ==> s.stack[j].SLocal? ==> s.stack[j].entry < |s.arena|)
        && Addr(r, l, j) == if j < |s.stack| then Addr(s, l, j) else FirstFree(s, l) + (j - |s.stack|)
  {
    hide SimOk, PushRegs;
    PushRegsKeepsOk(s, n);
    EntriesExist(s);
    EntriesExist(PushRegs(s, n).value);
  }

  /**
   New operands in fresh registers: whatever wrote them may have changed anything above the
   operands still live, and nothing below.
   */
  lemma PushRegsRel(
    s: Sim, l: RegLayout, b: nat, locals: seq<Value>, stack: seq<Value>, regs: seq<Value>, rs: seq<Value>,
    regs': seq<Value>)
    requires Rel(s, l, b, locals, stack, regs) && PushRegs(s, |rs|).Ok? && Fits(PushRegs(s, |rs|).value, l)
    requires b + FirstFree(s, l) + |rs| <= |regs'| && |regs| <= |regs'|
    requires regs'[b + FirstFree(s, l)..b + FirstFree(s, l) + |rs|] == rs
    requires b + FirstFree(s, l) <= |regs| && regs'[..b + FirstFree(s, l)] == regs[..b + FirstFree(s, l)]
    ensures Rel(PushRegs(s, |rs|).value, l, b, locals, stack + rs, regs')
  {
    hide SimOk, RegIntact, PushRegs, Addr;
    FromRel(s, l, b, locals, stack, regs);
    PushedPlaces(s, l, |rs|);
    var r := PushRegs(s, |rs|).value;
    var at := b + FirstFree(s, l);
    IntactBelow(l, b, at, regs, regs');
    forall j | 0 <= j < |stack + rs|
      ensures b + Addr(r, l, j) < |regs'| && regs'[b + Addr(r, l, j)] == (stack + rs)[j]
    {
      if j < |stack| {
        AddrBelow(s, l, j);
        AtInPrefix(regs, regs', at, b + Addr(s, l, j));
      } else {
        AtInSlice(regs', at, at + |rs|, j - |stack|);
      }
    }
    forall i | 0 <= i < |locals| ensures regs'[b + i] == locals[i] {
      AtInPrefix(regs, regs', at, b + i);
    }
  }

  /** Where an operand is read from after a rescue of local `i`: the borrowed value's copy, or where it was. */
  lemma RescuedPlace(s: Sim, l: RegLayout, i: nat, j: nat)
    requires SimOk(s) && i < |s.origin| && s.origin[i].Some? && Rescue(s, i).Ok? && j < |s.stack|
    requires Fits(s, l) && Fits(Rescue(s, i).value, l)
    ensures s.stack[j].SLocal? ==> s.stack[j].entry < |s.arena|
    ensures var r, k := Rescue(s, i).value, ReserveSlot(s).value.0;
      && r.stack == s.stack && |r.arena| == |s.arena|
      && if s.stack[j] == SLocal(s.origin[i].value)
         then Addr(r, l, j) == k + l.localsCount + |l.consts| && Addr(s, l, j) == i
         else Addr(r, l, j) == Addr(s, l, j) != k + l.localsCount + |l.consts|
  {
    hide Count, Regs;
    SourceBounds(s, j);
  }

  /** The slot reserved for the copy lies in the spill region. */
  lemma RescueFits(s: Sim, l: RegLayout, b: nat, i: nat, regs: seq<Value>)
    requires SimOk(s) && i < |s.origin| && s.origin[i].Some? && Rescue(s, i).Ok? && Fits(Rescue(s, i).value, l)
    requires Fits(s, l) && RegIntact(l, b, regs)
    ensures var r, k := Rescue(s, i).value, ReserveSlot(s).value.0;
      && k < l.spills && b + k + l.localsCount + |l.consts| < |regs| && b + i < |regs|
      && r.code == s.code + [Spill(i, k)] && |r.stack| == |s.stack|
      && RegIntact(l, b, regs[b + k + l.localsCount + |l.consts| := regs[b + i]])
  {
    hide Count, Regs, StackOk, OriginsOk;
    var at := b + ReserveSlot(s).value.0 + l.localsCount + |l.consts|;
    var lo, hi := b + l.localsCount, b + l.localsCount + |l.consts|;
    assert regs[at := regs[b + i]][lo..hi] == regs[lo..hi];
  }

  /** Spilling local `i`: the operands that read it now read the copy, and no operand reads it any more. */
  lemma RescueRel(
    s: Sim, l: RegLayout, b: nat, locals: seq<Value>, stack: seq<Value>, regs: seq<Value>, i: nat)
    requires Rel(s, l, b, locals, stack, regs) && i < |locals|
    requires Rescue(s, i).Ok? && Fits(Rescue(s, i).value, l) && s.origin[i].Some?
    ensures var k := ReserveSlot(s).value.0;
      && k < l.spills && b + k + l.localsCount + |l.consts| < |regs|
      && Rescue(s, i).value.code == s.code + [Spill(i, k)]
      && Rel(Rescue(s, i).value, l, b, locals, stack, regs[b + k + l.localsCount + |l.consts| := regs[b + i]])
  {
    hide SpillsOk, OriginsOk, StackOk, RegIntact;
    RescueKeepsOk(s, i);
    EntriesExist(s);
    RescueFits(s, l, b, i, regs);
    var k, r := ReserveSlot(s).value.0, Rescue(s, i).value;
    var regs' := regs[b + k + l.localsCount + |l.consts| := regs[b + i]];
    forall j | 0 <= j < |stack|
      ensures r.stack == s.stack && |r.arena| == |s.arena|
      ensures b + Addr(r, l, j) < |regs'| && regs'[b + Addr(r, l, j)] == stack[j]
    {
      RescuedPlace(s, l, i, j);
      AddrBelow(s, l, j);
    }
  }

  /** A write to a local no operand is read from. */
  lemma SetLocalRel(s: Sim, l: RegLayout, b: nat, locals: seq<Value>, stack: seq<Value>, regs: seq<Value>, i: nat,
    v: Value)
    requires Rel(s, l, b, locals, stack, regs) && i < |locals| && s.origin[i] == None
    ensures Rel(s, l, b, locals[i := v], stack, regs[b + i := v])
  {
    var regs' := regs[b + i := v];
    forall j | 0 <= j < |stack|
      ensures b + Addr(s, l, j) < |regs'| && regs'[b + Addr(s, l, j)] == stack[j]
    {
      SourceBounds(s, j);
      assert Addr(s, l, j) != i;
    }
    assert regs'[b + l.localsCount..b + l.localsCount + |l.consts|]
      == regs[b + l.localsCount..b + l.localsCount + |l.consts|];
  }

  // ------------------------------------------------------------------ every index is in the frame

  ghost predicate CodeOk(s: Sim, l: RegLayout) {
    l.localsCount <= l.registers && forall j :: 0 <= j < |s.code| ==> InFrame(l, Resolve(l, s.code[j]))
  }

  lemma FitsEarlier(s: Sim, r: Sim, l: RegLayout)
    requires Grows(s, r) && Fits(r, l)
    ensures Fits(s, l)
  {
  }

  lemma InputsBelow(s: Sim, l: RegLayout, n: nat)
    requires SimOk(s) && Fits(s, l) && n <= |s.stack|
    ensures forall j :: 0 <= j < n ==> FrameIndices(l, Inputs(s, n))[j] < Width(l)
  {
    hide Count, Regs, SpillsOk, OriginsOk;
    forall j | 0 <= j < n ensures FrameIndices(l, Inputs(s, n))[j] < Width(l) {
      AddrBelow(s, l, |s.stack| - n + j);
    }
  }

  lemma MaterializeCodeOk(s: Sim, n: nat, l: RegLayout)
    requires SimOk(s) && n <= |s.stack| && Materialize(s, n).Ok? && Fits(Materialize(s, n).value, l) && CodeOk(s, l)
    ensures CodeOk(Materialize(s, n).value, l)
  {
    hide Count, Regs, SpillsOk, OriginsOk, PushRegs;
    MaterializeKeepsOk(s, n);
    FitsEarlier(s, Materialize(s, n).value, l);
    InputsBelow(s, l, n);
    RegistersBelow(s, n);
    var s1 := Pops(s, n);
    var move := Move(Inputs(s, n), s1.currReg);
    EmitKeepsOk(s1, move);
    PushRegsKeepsOk(Emit(s1, move), n);
  }

  lemma RescueCodeOk(s: Sim, i: nat, l: RegLayout)
    requires SimOk(s) && i < |s.origin| && Rescue(s, i).Ok? && Fits(Rescue(s, i).value, l) && CodeOk(s, l)
    ensures CodeOk(Rescue(s, i).value, l)
  {
    hide Count, Regs, OriginsOk;
    RescueKeepsOk(s, i);
  }

  lemma CallCodeOk(s: Sim, callee: nat, params: nat, results: nat, l: RegLayout)
    requires SimOk(s) && params <= |s.stack| && LowerCall(s, callee, params, results).Ok?
    requires Fits(LowerCall(s, callee, params, results).value, l) && CodeOk(s, l)
    ensures CodeOk(LowerCall(s, callee, params, results).value, l)
  {
    hide Count, Regs, SpillsOk, OriginsOk, PushRegs, Materialize;
    LowerCallShape(s, callee, params, results);
    var r := LowerCall(s, callee, params, results).value;
    var s1 := Staged(s, params);
    if params != 0 {
      FitsEarlier(s1, r, l);
      MaterializeCodeOk(s, params, l);
    }
  }

  /** The pass after it has moved a call's arguments. */
  ghost function Staged(s: Sim, params: nat): Sim
    requires SimOk(s) && params <= |s.stack| && (params != 0 ==> Materialize(s, params).Ok?)
  {
    if params == 0 then s else Materialize(s, params).value
  }

  /** What lowering a call does: the arguments are staged exactly where the callee's frame begins. */
  lemma LowerCallShape(s: Sim, callee: nat, params: nat, results: nat)
    requires SimOk(s) && params <= |s.stack| && LowerCall(s, callee, params, results).Ok?
    ensures params != 0 ==> Materialize(s, params).Ok?
    ensures var r := LowerCall(s, callee, params, results).value;
      var s1 := Staged(s, params);
      && SimOk(s1) && Grows(s, s1) && |s1.stack| == |s.stack| && Grows(s1, r)
      && (var s2 := Pops(s1, params);
         var call := CallLocal(callee, params, results, s2.currReg);
         && |s.origin| <= s2.currReg
         && r.code == s1.code + [call]
         && s2.currReg + params <= s1.maxReg && s2.currReg + results <= r.maxReg
         && s2.currReg == Pops(s, params).currReg
         && SimOk(Emit(s2, call)) && PushRegs(Emit(s2, call), results) == Lowered<Sim>.Ok(r))
  {
    hide Count, Regs, SpillsOk, OriginsOk, PushRegs, StackOk;
    RegistersBelow(s, params);
    var base: nat := RegisterAtDepth(s, params);
    var call := CallLocal(callee, params, results, base);
    if params != 0 {
      MaterializeKeepsOk(s, params);
      MaterializeBase(s, params);
    }
    var s1 := Staged(s, params);
    var s2 := Pops(s1, params);
    EmitKeepsOk(s2, call);
    PushRegsKeepsOk(Emit(s2, call), results);
  }

  /** Materialized operands are consecutive registers, and popping them again frees exactly those. */
  lemma MaterializeBase(s: Sim, n: nat)
    requires SimOk(s) && n <= |s.stack| && Materialize(s, n).Ok?
    ensures SimOk(Materialize(s, n).value) && n <= |Materialize(s, n).value.stack|
    ensures Pops(Materialize(s, n).value, n).currReg == Pops(s, n).currReg
    ensures Pops(s, n).currReg + n == Materialize(s, n).value.currReg <= Materialize(s, n).value.maxReg
  {
    hide Count, Regs, SpillsOk, OriginsOk, PushRegs, Pops;
    MaterializeKeepsOk(s, n);
    var s1 := Pops(s, n);
    var move := Move(Inputs(s, n), s1.currReg);
    EmitKeepsOk(s1, move);
    PushRegsKeepsOk(Emit(s1, move), n);
    var r := Materialize(s, n).value;
    RegistersBelow(r, n);
    assert r.stack[..|r.stack| - n] == s1.stack;
  }

  lemma SetCodeOk(s: Sim, i: nat, l: RegLayout)
    requires SimOk(s) && i < |s.origin| && 1 <= |s.stack| && Rescue(s, i).Ok? && Fits(Rescue(s, i).value, l)
      && CodeOk(s, l)
    ensures var s1 := Rescue(s, i).value;
      SimOk(s1) && 1 <= |s1.stack| && CodeOk(Emit(s1, SetLocal(i, Inputs(s1, 1)[0])), l)
  {
    RescueKeepsOk(s, i);
    RescueCodeOk(s, i, l);
    var s1 := Rescue(s, i).value;
    InputsBelow(s1, l, 1);
    assert FrameIndices(l, Inputs(s1, 1))[0] == FrameIndex(l, Inputs(s1, 1)[0]);
  }

  lemma OpCodeOk(s: Sim, op: Op, l: RegLayout)
    requires SimOk(s) && Valid(op, |s.origin|, |s.stack|) && LowerOp(s, op).Ok?
    requires Fits(LowerOp(s, op).value, l) && CodeOk(s, l)
    ensures CodeOk(LowerOp(s, op).value, l)
  {
    hide Count, Regs, SpillsOk, PushRegs, LowerCall, Rescue;
    LowerOpKeepsOk(s, op);
    var r := LowerOp(s, op).value;
    FitsEarlier(s, r, l);
    match op
    case Const(_) =>
    case LocalGet(_) =>
    case Drop =>
    case LocalSet(i) => SetCodeOk(s, i, l);
    case LocalTee(i) => SetCodeOk(s, i, l);
    case Apply(code, ins, outs) =>
      InputsBelow(s, l, ins);
      var s1 := Pops(s, ins);
      var value := RegOp.Value(code, Inputs(s, ins), s1.currReg, outs);
      EmitKeepsOk(s1, value);
      PushRegsKeepsOk(Emit(s1, value), outs);
    case Invoke(callee, params, results) => CallCodeOk(s, callee, params, results, l);
  }

  // ------------------------------------------------------------------ running the emitted code

  /** The instructions emitted between two states of the pass, resolved. */
  function Segment(l: RegLayout, s: Sim, r: Sim): seq<FrameOp>
    requires |s.code| <= |r.code|
  {
    ResolveAll(l, r.code[|s.code|..])
  }

  lemma SegmentOk(l: RegLayout, s: Sim, r: Sim)
    requires |s.code| <= |r.code| && CodeOk(r, l)
    ensures AllInFrame(l, Segment(l, s, r))
  {
  }

  /** What the emitted instructions do, against what the stack machine does. */
  ghost predicate Agrees<W>(
    r: Sim, l: RegLayout, b: nat, regs: seq<Value>,
    expected: Outcome<State<W>, W>, got: Outcome<(seq<Value>, W), W>)
  {
    match expected
    case Trapped(w) => got == Trapped(w)
    case Goes(st) =>
      && got.Goes? && got.state.1 == st.world
      && Rel(r, l, b, st.locals, st.stack, got.state.0)
      && |regs| <= |got.state.0| && b <= |regs| && got.state.0[..b] == regs[..b]
  }

  lemma {:induction false} RunAppend<W>(
    fx: FileEffects<W>, l: RegLayout, b: nat, first: seq<FrameOp>, rest: seq<FrameOp>, regs: seq<Value>, w: W)
    requires AllInFrame(l, first) && AllInFrame(l, rest) && AllInFrame(l, first + rest) && b + Width(l) <= |regs|
    ensures var x := RegRun(fx, l, b, first, regs, w);
      if x.Trapped? then RegRun(fx, l, b, first + rest, regs, w) == x
      else
        && b + Width(l) <= |x.state.0|
        && RegRun(fx, l, b, first + rest, regs, w) == RegRun(fx, l, b, rest, x.state.0, x.state.1)
    decreases |first|
  {
    hide InFrame, RegStep, RegIntact;
    if first == [] {
      assert first + rest == rest;
    } else {
      StepKeepsFile(fx, l, b, first[0], regs, w);
      assert (first + rest)[0] == first[0] && (first + rest)[1..] == first[1..] + rest;
      var x := RegStep(fx, l, b, first[0], regs, w);
      if x.Goes? {
        RunAppend(fx, l, b, first[1..], rest, x.state.0, x.state.1);
      }
    }
  }

  lemma RunSingle<W>(fx: FileEffects<W>, l: RegLayout, b: nat, op: FrameOp, regs: seq<Value>, w: W)
    requires InFrame(l, op) && l.localsCount <= l.registers && b + Width(l) <= |regs|
    ensures AllInFrame(l, [op]) && RegRun(fx, l, b, [op], regs, w) == RegStep(fx, l, b, op, regs, w)
  {
    hide InFrame, RegStep, RegIntact;
    assert [op][0] == op && [op][1..] == [];
    StepKeepsFile(fx, l, b, op, regs, w);
    var x := RegStep(fx, l, b, op, regs, w);
    if x.Goes? {
      assert RegRun(fx, l, b, [], x.state.0, x.state.1) == Outcome<(seq<Value>, W), W>.Goes(x.state);
    }
  }

  /** Running what was emitted up to `m`, then what was emitted after it. */
  lemma RunThrough<W>(
    fx: FileEffects<W>, l: RegLayout, b: nat, s: Sim, m: Sim, r: Sim, regs: seq<Value>, w: W)
    requires s.code <= m.code <= r.code && CodeOk(r, l) && b + Width(l) <= |regs|
    ensures AllInFrame(l, Segment(l, s, m)) && AllInFrame(l, Segment(l, m, r)) && AllInFrame(l, Segment(l, s, r))
    ensures var first := RegRun(fx, l, b, Segment(l, s, m), regs, w);
      if first.Trapped? then RegRun(fx, l, b, Segment(l, s, r), regs, w) == first
      else
        && b + Width(l) <= |first.state.0|
        && RegRun(fx, l, b, Segment(l, s, r), regs, w) ==
           RegRun(fx, l, b, Segment(l, m, r), first.state.0, first.state.1)
  {
    hide InFrame, RegRun;
    SegmentOk(l, s, r);
    SegmentOk(l, m, r);
    assert Segment(l, s, r) == Segment(l, s, m) + Segment(l, m, r);
    RunAppend(fx, l, b, Segment(l, s, m), Segment(l, m, r), regs, w);
  }

  /** Running one emitted instruction. */
  lemma RunEmitted<W>(fx: FileEffects<W>, l: RegLayout, b: nat, s: Sim, op: RegOp, r: Sim, regs: seq<Value>, w: W)
    requires r.code == s.code + [op] && CodeOk(r, l) && b + Width(l) <= |regs|
    ensures AllInFrame(l, Segment(l, s, r)) && InFrame(l, Resolve(l, op))
    ensures RegRun(fx, l, b, Segment(l, s, r), regs, w) == RegStep(fx, l, b, Resolve(l, op), regs, w)
  {
    hide RegRun, RegStep;
    assert r.code[|s.code|] == op;
    assert Segment(l, s, r) == [Resolve(l, op)];
    RunSingle(fx, l, b, Resolve(l, op), regs, w);
  }

  lemma RunNothing<W>(fx: FileEffects<W>, l: RegLayout, b: nat, s: Sim, r: Sim, regs: seq<Value>, w: W)
    requires r.code == s.code && l.localsCount <= l.registers && b + Width(l) <= |regs|
    ensures AllInFrame(l, Segment(l, s, r))
    ensures RegRun(fx, l, b, Segment(l, s, r), regs, w) == Outcome<(seq<Value>, W), W>.Goes((regs, w))
  {
    assert Segment(l, s, r) == [];
  }

  lemma FromRel(s: Sim, l: RegLayout, b: nat, locals: seq<Value>, stack: seq<Value>, regs: seq<Value>)
    requires Rel(s, l, b, locals, stack, regs)
    ensures SimOk(s) && Fits(s, l) && |locals| == |s.origin| == l.localsCount && |stack| == |s.stack|
    ensures |s.origin| <= s.currReg <= s.maxReg && b + Width(l) <= |regs|
    ensures forall j :: 0 <= j < |s.stack| && s.stack[j].SLocal? ==> s.stack[j].entry < |s.arena|
    ensures forall i :: 0 <= i < |s.origin| && s.origin[i].Some? ==> s.origin[i].value < |s.arena|
  {
    hide SpillsOk, Count, Regs;
  }

  /** A value operator: its results land in fresh registers. */
  lemma ApplyAgrees<W>(
    fx: FileEffects<W>, s: Sim, code: int, ins: nat, outs: nat, r: Sim, l: RegLayout, b: nat, st: State<W>,
    regs: seq<Value>)
    requires Rel(s, l, b, st.locals, st.stack, regs) && ins <= |s.stack|
    requires LowerOp(s, Apply(code, ins, outs)) == Lowered<Sim>.Ok(r) && Fits(r, l) && CodeOk(r, l)
    ensures |s.code| <= |r.code| && AllInFrame(l, Segment(l, s, r)) && b + Width(l) <= |regs|
    ensures Agrees(r, l, b, regs, StackStep(fx.effects, Apply(code, ins, outs), st),
      RegRun(fx, l, b, Segment(l, s, r), regs, st.world))
  {
    hide RegRun, SimOk, CodeOk, PushRegs, Rel, Pops, AllInFrame, RegIntact;
    FromRel(s, l, b, st.locals, st.stack, regs);
    var s1 := Pops(s, ins);
    var value := RegOp.Value(code, Inputs(s, ins), s1.currReg, outs);
    var emitted := Emit(s1, value);
    var kept := st.stack[..|st.stack| - ins];
    PopsRel(s, l, b, st.locals, st.stack, regs, ins);
    EmitRel(s1, l, b, st.locals, kept, regs, value);
    FromRel(emitted, l, b, st.locals, kept, regs);
    PushRegsKeepsOk(emitted, outs);
    InputsAre(s, l, b, st.locals, st.stack, regs, ins);
    RunEmitted(fx, l, b, s, value, r, regs, st.world);
    var at := b + FirstFree(s1, l);
    match Answer(fx.effects.apply(code, st.stack[|st.stack| - ins..], st.world), outs)
    case Trapped(_) =>
    case Goes((rs, _)) =>
      var regs' := Overwrite(regs, at, rs);
      OverwriteShape(regs, at, rs);
      SliceOfPrefix(regs', at, 0, b);
      SliceOfPrefix(regs, at, 0, b);
      PushRegsRel(emitted, l, b, st.locals, kept, regs, rs, regs');
  }

  lemma RegistersInUse(s: Sim)
    requires SimOk(s)
    ensures s.currReg <= s.maxReg
  {
  }

  /** The file after the move of the top `n` operands into consecutive registers. */
  lemma MovedRel(s: Sim, n: nat, l: RegLayout, b: nat, locals: seq<Value>, stack: seq<Value>, regs: seq<Value>)
    requires Rel(s, l, b, locals, stack, regs) && n <= |stack| == |s.stack| && SimOk(s) && Materialize(s, n).Ok?
    requires Fits(Materialize(s, n).value, l)
    ensures var at, top := b + FirstFree(Pops(s, n), l), stack[|stack| - n..];
      && b <= at && at + n <= |regs|
      && Materialize(s, n).value.code == s.code + [Move(Inputs(s, n), Pops(s, n).currReg)]
      && (var regs' := Overwrite(regs, at, top);
         && |regs'| == |regs| && regs'[..b] == regs[..b] && regs'[at..at + n] == top
         && Rel(Materialize(s, n).value, l, b, locals, stack, regs'))
  {
    hide SimOk, PushRegs, Rel, Pops, RegIntact, Overwrite;
    FromRel(s, l, b, locals, stack, regs);
    var s1 := Pops(s, n);
    var move := Move(Inputs(s, n), s1.currReg);
    var emitted := Emit(s1, move);
    var kept := stack[..|stack| - n];
    PopsRel(s, l, b, locals, stack, regs, n);
    EmitRel(s1, l, b, locals, kept, regs, move);
    FromRel(emitted, l, b, locals, kept, regs);
    PushRegsKeepsOk(emitted, n);
    RegistersInUse(Materialize(s, n).value);
    var at := b + FirstFree(s1, l);
    var rs := stack[|stack| - n..];
    var regs' := Overwrite(regs, at, rs);
    OverwriteShape(regs, at, rs);
    SliceOfPrefix(regs', at, 0, b);
    SliceOfPrefix(regs, at, 0, b);
    PushRegsRel(emitted, l, b, locals, kept, regs, rs, regs');
    assert kept + rs == stack;
  }

  /** Forcing operands into consecutive registers changes no operand's value. */
  lemma MaterializeAgrees<W>(
    fx: FileEffects<W>, s: Sim, n: nat, l: RegLayout, b: nat, locals: seq<Value>, stack: seq<Value>, regs: seq<Value>,
    w: W)
    requires Rel(s, l, b, locals, stack, regs) && n <= |stack| == |s.stack| && SimOk(s) && Materialize(s, n).Ok?
    requires var r := Materialize(s, n).value; Fits(r, l) && CodeOk(r, l)
    ensures var r := Materialize(s, n).value;
      && |s.code| <= |r.code| && AllInFrame(l, Segment(l, s, r)) && b + Width(l) <= |regs|
      && (var got := RegRun(fx, l, b, Segment(l, s, r), regs, w);
         var at := b + FirstFree(Pops(s, n), l);
         && got.Goes? && got.state.1 == w && |got.state.0| == |regs| && b <= |regs| && got.state.0[..b] == regs[..b]
         && Rel(r, l, b, locals, stack, got.state.0)
         && at + n <= |regs| && got.state.0[at..at + n] == stack[|stack| - n..])
  {
    hide RegRun, SimOk, CodeOk, PushRegs, Rel, Pops, AllInFrame, RegIntact, Overwrite, Segment;
    FromRel(s, l, b, locals, stack, regs);
    var s1 := Pops(s, n);
    var move := Move(Inputs(s, n), s1.currReg);
    MovedRel(s, n, l, b, locals, stack, regs);
    InputsAre(s, l, b, locals, stack, regs, n);
    RunEmitted(fx, l, b, s, move, Materialize(s, n).value, regs, w);
  }

  /** The spill before a write to local `i`, if any: afterwards nothing on the stack is read from it. */
  lemma RescueAgrees<W>(
    fx: FileEffects<W>, s: Sim, i: nat, l: RegLayout, b: nat, locals: seq<Value>, stack: seq<Value>, regs: seq<Value>,
    w: W)
    requires Rel(s, l, b, locals, stack, regs) && i < |locals| == |s.origin| && SimOk(s) && Rescue(s, i).Ok?
    requires var m := Rescue(s, i).value; Fits(m, l) && CodeOk(m, l)
    ensures var m := Rescue(s, i).value;
      && s.code <= m.code && AllInFrame(l, Segment(l, s, m)) && b + Width(l) <= |regs|
      && i < |m.origin| && m.origin[i] == None
      && (var got := RegRun(fx, l, b, Segment(l, s, m), regs, w);
         && got.Goes? && got.state.1 == w && |got.state.0| == |regs| && b <= |regs| && got.state.0[..b] == regs[..b]
         && Rel(m, l, b, locals, stack, got.state.0))
  {
    hide RegRun, SpillsOk, StackOk, CodeOk, Rel, AllInFrame, RegIntact;
    FromRel(s, l, b, locals, stack, regs);
    RescueKeepsOk(s, i);
    var m := Rescue(s, i).value;
    match s.origin[i]
    case None =>
      assert m == s;
      RunNothing(fx, l, b, s, m, regs, w);
    case Some(_) =>
      RescueRel(s, l, b, locals, stack, regs, i);
      var k := ReserveSlot(s).value.0;
      RunEmitted(fx, l, b, s, Spill(i, k), m, regs, w);
  }

  /** A write to local `i`, spilling first if it is borrowed; the operands are left as they were. */
  lemma WriteLocalAgrees<W>(
    fx: FileEffects<W>, s: Sim, i: nat, l: RegLayout, b: nat, locals: seq<Value>, stack: seq<Value>, regs: seq<Value>,
    w: W, r: Sim)
    requires Rel(s, l, b, locals, stack, regs) && i < |locals| == |s.origin| && SimOk(s) && Rescue(s, i).Ok?
    requires stack != [] && |stack| == |s.stack|
    requires var m := Rescue(s, i).value;
      && Fits(m, l) && SimOk(m) && |m.stack| == |s.stack|
      && r.code == m.code + [SetLocal(i, Inputs(m, 1)[0])] && CodeOk(r, l) && CodeOk(m, l)
    ensures |s.code| <= |r.code| && AllInFrame(l, Segment(l, s, r)) && b + Width(l) <= |regs|
    ensures var got := RegRun(fx, l, b, Segment(l, s, r), regs, w);
      && got.Goes? && got.state.1 == w && |got.state.0| == |regs| && b <= |regs| && got.state.0[..b] == regs[..b]
      && Rel(Rescue(s, i).value, l, b, locals[i := stack[|stack| - 1]], stack, got.state.0)
  {
    hide RegRun, SimOk, CodeOk, Rel, AllInFrame, RegIntact, Rescue;
    FromRel(s, l, b, locals, stack, regs);
    var m := Rescue(s, i).value;
    RescueAgrees(fx, s, i, l, b, locals, stack, regs, w);
    RunThrough(fx, l, b, s, m, r, regs, w);
    var regs1 := RegRun(fx, l, b, Segment(l, s, m), regs, w).state.0;
    FromRel(m, l, b, locals, stack, regs1);
    var op := SetLocal(i, Inputs(m, 1)[0]);
    RunEmitted(fx, l, b, m, op, r, regs1, w);
    InputsAre(m, l, b, locals, stack, regs1, 1);
    var from := FrameIndex(l, Inputs(m, 1)[0]);
    assert from == FrameIndices(l, Inputs(m, 1))[0];
    assert Gather(regs1, b, FrameIndices(l, Inputs(m, 1)))[0] == stack[|stack| - 1];
    SetLocalRel(m, l, b, locals, stack, regs1, i, regs1[b + from]);
  }

  /** A call: the callee finds the operands at its base, and its results become the new operands. */
  lemma CallAgrees<W>(
    fx: FileEffects<W>, s: Sim, callee: nat, params: nat, results: nat, r: Sim, l: RegLayout, b: nat, st: State<W>,
    regs: seq<Value>)
    requires Rel(s, l, b, st.locals, st.stack, regs) && SimOk(s) && params <= |s.stack| == |st.stack|
    requires LowerCall(s, callee, params, results) == Lowered<Sim>.Ok(r) && Fits(r, l) && CodeOk(r, l)
    ensures |s.code| <= |r.code| && AllInFrame(l, Segment(l, s, r)) && b + Width(l) <= |regs|
    ensures Agrees(r, l, b, regs, StackStep(fx.effects, Invoke(callee, params, results), st),
                   RegRun(fx, l, b, Segment(l, s, r), regs, st.world))
  {
    hide RegRun, SimOk, CodeOk, PushRegs, Rel, Pops, AllInFrame, RegIntact, LowerCall, Materialize, Grows, Fits,
         StackStep;
    FromRel(s, l, b, st.locals, st.stack, regs);
    LowerCallShape(s, callee, params, results);
    var s1 := Staged(s, params);
    GrowsCode(s, s1);
    GrowsCode(s1, r);
    FitsEarlier(s1, r, l);
    EarlierCodeOk(s1, r, l);
    var regs1 := StagedAgrees(fx, s, params, l, b, st.locals, st.stack, regs, st.world);
    RunThrough(fx, l, b, s, s1, r, regs, st.world);
    CallStepAgrees(fx, s1, callee, params, results, r, l, b, st, regs1);
  }

  /** The call itself, from a file with the arguments staged. */
  lemma CallStepAgrees<W>(
    fx: FileEffects<W>, s1: Sim, callee: nat, params: nat, results: nat, r: Sim, l: RegLayout, b: nat, st: State<W>,
    regs1: seq<Value>)
    requires Rel(s1, l, b, st.locals, st.stack, regs1) && SimOk(s1) && params <= |s1.stack| == |st.stack|
    requires var s2 := Pops(s1, params);
      var call := CallLocal(callee, params, results, s2.currReg);
      var at := b + FirstFree(s2, l);
      && r.code == s1.code + [call] && SimOk(Emit(s2, call)) && PushRegs(Emit(s2, call), results) == Lowered<Sim>.Ok(r)
      && s2.currReg + results <= r.maxReg
      && at + params <= |regs1| && regs1[at..at + params] == st.stack[|st.stack| - params..]
    requires Fits(r, l) && CodeOk(r, l)
    ensures AllInFrame(l, Segment(l, s1, r)) && b + Width(l) <= |regs1|
    ensures Agrees(r, l, b, regs1, StackStep(fx.effects, Invoke(callee, params, results), st),
                   RegRun(fx, l, b, Segment(l, s1, r), regs1, st.world))
  {
    hide RegRun, SimOk, CodeOk, PushRegs, Rel, Pops, AllInFrame, RegIntact, AfterCallee, InFrame, Segment;
    FromRel(s1, l, b, st.locals, st.stack, regs1);
    var s2 := Pops(s1, params);
    var call := CallLocal(callee, params, results, s2.currReg);
    RunEmitted(fx, l, b, s1, call, r, regs1, st.world);
    var kept := st.stack[..|st.stack| - params];
    PopsRel(s1, l, b, st.locals, st.stack, regs1, params);
    EmitRel(s2, l, b, st.locals, kept, regs1, call);
    var at := b + FirstFree(s2, l);
    var args := st.stack[|st.stack| - params..];
    match Answer(fx.effects.call(callee, args, st.world), results)
    case Trapped(_) =>
    case Goes((rs, _)) =>
      var regs' := AfterCallee(regs1, at, rs, fx.leftover(callee, at, regs1, st.world));
      SliceOfPrefix(regs', at, 0, b);
      SliceOfPrefix(regs1, at, 0, b);
      PushRegsRel(Emit(s2, call), l, b, st.locals, kept, regs1, rs, regs');
  }

  lemma GrowsCode(s: Sim, r: Sim)
    requires Grows(s, r)
    ensures s.code <= r.code
  {
  }

  lemma EarlierCodeOk(s: Sim, r: Sim, l: RegLayout)
    requires s.code <= r.code && CodeOk(r, l)
    ensures CodeOk(s, l)
  {
  }

  /** The file once a call's arguments are staged: they are where the callee's frame will begin. */
  lemma StagedAgrees<W>(
    fx: FileEffects<W>, s: Sim, params: nat, l: RegLayout, b: nat, locals: seq<Value>, stack: seq<Value>,
    regs: seq<Value>, w: W)
    returns (regs1: seq<Value>)
    requires Rel(s, l, b, locals, stack, regs) && SimOk(s) && params <= |s.stack| == |stack|
    requires params != 0 ==> Materialize(s, params).Ok?
    requires Fits(Staged(s, params), l) && CodeOk(Staged(s, params), l)
    ensures var s1 := Staged(s, params);
      && |s.code| <= |s1.code| && AllInFrame(l, Segment(l, s, s1)) && b + Width(l) <= |regs|
      && (var got := RegRun(fx, l, b, Segment(l, s, s1), regs, w);
         var at := b + FirstFree(Pops(s, params), l);
         && got == Outcome<(seq<Value>, W), W>.Goes((regs1, w))
         && |regs1| == |regs| && b <= |regs| && regs1[..b] == regs[..b]
         && Rel(s1, l, b, locals, stack, regs1)
         && at + params <= |regs1| && regs1[at..at + params] == stack[|stack| - params..])
  {
    hide RegRun, SimOk, CodeOk, Rel, AllInFrame, RegIntact, Materialize;
    FromRel(s, l, b, locals, stack, regs);
    if params == 0 {
      regs1 := regs;
      CodeFits(s, l);
      RunNothing(fx, l, b, s, s, regs, w);
    } else {
      MaterializeAgrees(fx, s, params, l, b, locals, stack, regs, w);
      regs1 := RegRun(fx, l, b, Segment(l, s, Staged(s, params)), regs, w).state.0;
    }
  }

  lemma CodeFits(s: Sim, l: RegLayout)
    requires CodeOk(s, l)
    ensures l.localsCount <= l.registers
  {
  }

  /** Every operator's emitted code does what the operator does. */
  lemma OpAgrees<W>(fx: FileEffects<W>, s: Sim, op: Op, l: RegLayout, b: nat, st: State<W>, regs: seq<Value>)
    requires Rel(s, l, b, st.locals, st.stack, regs)
    requires Valid(op, |s.origin|, |s.stack|) && LowerOp(s, op).Ok?
    requires var r := LowerOp(s, op).value; Fits(r, l) && CodeOk(r, l)
    ensures var r := LowerOp(s, op).value;
      && |s.code| <= |r.code| && AllInFrame(l, Segment(l, s, r)) && b + Width(l) <= |regs|
      && Agrees(r, l, b, regs, StackStep(fx.effects, op, st), RegRun(fx, l, b, Segment(l, s, r), regs, st.world))
  {
    hide RegRun, SimOk, CodeOk, PushRegs, Rel, Pops, AllInFrame, RegIntact, LowerCall, Materialize, Rescue;
    FromRel(s, l, b, st.locals, st.stack, regs);
    var r := LowerOp(s, op).value;
    CodeFits(r, l);
    match op
    case Const(c) =>
      PushConstRel(s, l, b, st.locals, st.stack, regs, c);
      RunNothing(fx, l, b, s, r, regs, st.world);
    case LocalGet(i) =>
      PushLocalRel(s, l, b, st.locals, st.stack, regs, i);
      RunNothing(fx, l, b, s, r, regs, st.world);
    case Drop =>
      PopsRel(s, l, b, st.locals, st.stack, regs, 1);
      RunNothing(fx, l, b, s, r, regs, st.world);
    case LocalSet(i) =>
      RescueKeepsOk(s, i);
      var m := Rescue(s, i).value;
      FitsEarlier(m, r, l);
      EarlierCodeOk(m, r, l);
      WriteLocalAgrees(fx, s, i, l, b, st.locals, st.stack, regs, st.world, r);
      var locals := st.locals[i := st.stack[|st.stack| - 1]];
      var regs' := RegRun(fx, l, b, Segment(l, s, r), regs, st.world).state.0;
      PopsRel(m, l, b, locals, st.stack, regs', 1);
      EmitRel(Pops(m, 1), l, b, locals, st.stack[..|st.stack| - 1], regs', SetLocal(i, Inputs(m, 1)[0]));
    case LocalTee(i) =>
      RescueKeepsOk(s, i);
      var m := Rescue(s, i).value;
      FitsEarlier(m, r, l);
      EarlierCodeOk(m, r, l);
      WriteLocalAgrees(fx, s, i, l, b, st.locals, st.stack, regs, st.world, r);
      var locals := st.locals[i := st.stack[|st.stack| - 1]];
      var regs' := RegRun(fx, l, b, Segment(l, s, r), regs, st.world).state.0;
      EmitRel(m, l, b, locals, st.stack, regs', SetLocal(i, Inputs(m, 1)[0]));
    case Apply(code, ins, outs) => ApplyAgrees(fx, s, code, ins, outs, r, l, b, st, regs);
    case Invoke(callee, params, results) => CallAgrees(fx, s, callee, params, results, r, l, b, st, regs);
  }

  // ------------------------------------------------------------------ whole bodies

  lemma {:induction false} OpsCodeOk(s: Sim, ops: seq<Op>, final: nat, l: RegLayout)
    requires SimOk(s) && ValidCode(ops, |s.origin|, |s.stack|, final) && LowerOps(s, ops, final).Ok?
    requires Fits(LowerOps(s, ops, final).value, l) && CodeOk(s, l)
    ensures CodeOk(LowerOps(s, ops, final).value, l)
    decreases |ops|
  {
    hide SimOk, CodeOk, LowerOp;
    if ops != [] {
      LowerOpKeepsOk(s, ops[0]);
      var m := LowerOp(s, ops[0]).value;
      LowerOpsKeepsOk(m, ops[1..], final);
      FitsEarlier(m, LowerOps(m, ops[1..], final).value, l);
      OpCodeOk(s, ops[0], l);
      OpsCodeOk(m, ops[1..], final, l);
    }
  }

  /** A whole sequence: the emitted code and the stack machine trap together or finish related. */
  lemma {:induction false} OpsAgree<W>(
    fx: FileEffects<W>, s: Sim, ops: seq<Op>, final: nat, r: Sim, l: RegLayout, b: nat, st: State<W>,
    regs: seq<Value>)
    requires Rel(s, l, b, st.locals, st.stack, regs) && SimOk(s)
    requires |st.locals| == |s.origin| && |st.stack| == |s.stack| && ValidCode(ops, |s.origin|, |s.stack|, final)
    requires LowerOps(s, ops, final) == Lowered<Sim>.Ok(r) && Fits(r, l) && CodeOk(r, l)
    ensures |s.code| <= |r.code| && AllInFrame(l, Segment(l, s, r)) && b + Width(l) <= |regs|
    ensures Agrees(r, l, b, regs, StackRun(fx.effects, ops, final, st),
      RegRun(fx, l, b, Segment(l, s, r), regs, st.world))
    decreases |ops|
  {
    hide RegRun, SimOk, CodeOk, Rel, AllInFrame, RegIntact, LowerOp, StackStep;
    FromRel(s, l, b, st.locals, st.stack, regs);
    CodeFits(r, l);
    if ops == [] {
      RunNothing(fx, l, b, s, r, regs, st.world);
    } else {
      LowerOpKeepsOk(s, ops[0]);
      var m := LowerOp(s, ops[0]).value;
      LowerOpsKeepsOk(m, ops[1..], final);
      FitsEarlier(m, r, l);
      EarlierCodeOk(m, r, l);
      OpAgrees(fx, s, ops[0], l, b, st, regs);
      RunThrough(fx, l, b, s, m, r, regs, st.world);
      StackStepShape(fx.effects, ops[0], st);
      match StackStep(fx.effects, ops[0], st) {
        case Trapped(_) =>
        case Goes(st') =>
          var regs' := RegRun(fx, l, b, Segment(l, s, m), regs, st.world).state.0;
          FromRel(m, l, b, st'.locals, st'.stack, regs');
          OpsAgree(fx, m, ops[1..], final, r, l, b, st', regs');
      }
    }
  }

  /** The end of the body leaves the results at the bottom of the operand registers. */
  lemma EndAgrees<W>(
    fx: FileEffects<W>, s: Sim, l: RegLayout, b: nat, locals: seq<Value>, stack: seq<Value>, regs: seq<Value>, w: W)
    requires Rel(s, l, b, locals, stack, regs) && SimOk(s) && |stack| == |s.stack| && LowerEnd(s, |stack|).Ok?
    requires var r := LowerEnd(s, |stack|).value; Fits(r, l) && CodeOk(r, l)
    ensures var r := LowerEnd(s, |stack|).value;
      && |s.code| <= |r.code| && AllInFrame(l, Segment(l, s, r)) && b + Width(l) <= |regs|
      && (var got := RegRun(fx, l, b, Segment(l, s, r), regs, w);
         var at := b + OperandStart(l);
         && got.Goes? && got.state.1 == w && |got.state.0| == |regs| && b <= |regs| && got.state.0[..b] == regs[..b]
         && at + |stack| <= |regs| && got.state.0[at..at + |stack|] == stack)
  {
    hide RegRun, CodeOk, Rel, AllInFrame, RegIntact, Materialize, SpillsOk, OriginsOk, StackOk;
    FromRel(s, l, b, locals, stack, regs);
    var r := LowerEnd(s, |stack|).value;
    var m := Staged(s, |stack|);
    LowerEndKeepsOk(s, |stack|);
    assert r == Emit(m, EndBody);
    EarlierCodeOk(m, r, l);
    var regs1 := StagedAgrees(fx, s, |stack|, l, b, locals, stack, regs, w);
    assert Pops(s, |stack|).stack == [];
    StagedGrows(s, |stack|);
    RunThrough(fx, l, b, s, m, r, regs, w);
    RunEmitted(fx, l, b, m, EndBody, r, regs1, w);
    assert stack[|stack| - |stack|..] == stack;
  }

  lemma StagedGrows(s: Sim, n: nat)
    requires SimOk(s) && n <= |s.stack| && (n != 0 ==> Materialize(s, n).Ok?)
    ensures SimOk(Staged(s, n)) && Grows(s, Staged(s, n))
  {
    if n != 0 {
      MaterializeKeepsOk(s, n);
    }
  }

  /** A frame just entered holds the arguments and zeros, and nothing on the operand stack. */
  lemma EntryRel(regs: seq<Value>, params: nat, locals: seq<ValType>, b: nat, l: RegLayout)
    requires params <= |locals| == l.localsCount <= l.registers && |locals| <= MAX_U16 && b + params <= |regs|
    ensures var entered := EnterRegs(regs, params, locals, b, l);
      && Rel(Start(|locals|), l, b, regs[b..b + params] + Zeros(locals[params..]), [], entered)
      && b + params <= |entered| && entered[..b] == regs[..b]
  {
    var entered := EnterRegs(regs, params, locals, b, l);
    EnterRegsShape(regs, params, locals, b, l);
    StartOk(|locals|);
    var zeros := Zeros(locals[params..]);
    var values := regs[b..b + params] + zeros;
    forall i | 0 <= i < |values| ensures entered[b + i] == values[i] {
      if i < params {
        assert entered[..b + params][b + i] == regs[..b + params][b + i];
      } else {
        assert entered[b + params..b + |locals|][i - params] == zeros[i - params];
      }
    }
    SliceOfPrefix(entered, b + params, 0, b);
    SliceOfPrefix(regs, b + params, 0, b);
  }

  lemma LowerBodyShape(ops: seq<Op>, locals: nat, results: nat)
    requires ValidCode(ops, locals, 0, results) && locals <= MAX_U16 && LowerBody(ops, locals, results).Ok?
    ensures SimOk(Start(locals)) && |Start(locals).origin| == locals && Start(locals).stack == []
    ensures LowerOps(Start(locals), ops, results).Ok?
    ensures var s1 := LowerOps(Start(locals), ops, results).value;
      && SimOk(s1) && |s1.stack| == results && LowerEnd(s1, results).Ok?
      && (var s2 := LowerEnd(s1, results).value;
         var l := LayoutOf(s2);
         && LowerBody(ops, locals, results).value == LoweredFunction(ResolveAll(l, s2.code), l)
         && Width(l) <= MAX_U16
         && l.localsCount == locals <= l.registers
         && Grows(Start(locals), s1) && Grows(s1, s2)
         && Fits(s1, l) && Fits(s2, l) && CodeOk(s2, l) && CodeOk(s1, l))
  {
    hide SpillsOk, OriginsOk, StackOk, LowerOps, LowerEnd;
    StartOk(locals);
    LowerOpsKeepsOk(Start(locals), ops, results);
    var s1 := LowerOps(Start(locals), ops, results).value;
    LowerEndKeepsOk(s1, results);
    var s2 := LowerEnd(s1, results).value;
    var l := LayoutOf(s2);
    FitsEarlier(s1, s2, l);
    OpsCodeOk(Start(locals), ops, results, l);
    EndCodeOk(s1, results, l);
  }

  lemma EndCodeOk(s: Sim, results: nat, l: RegLayout)
    requires SimOk(s) && results <= |s.stack| && LowerEnd(s, results).Ok?
    requires Fits(LowerEnd(s, results).value, l) && CodeOk(s, l)
    ensures CodeOk(LowerEnd(s, results).value, l)
  {
    hide SpillsOk, OriginsOk, StackOk;
    if results != 0 {
      MaterializeCodeOk(s, results, l);
    }
  }

  /**
   Lowering preserves meaning.  Entering a frame for a lowered body, running it and leaving the
   frame does what the stack machine does with the original operators, for every body, every
   arguments, and whatever operators and callees compute: both trap with the same effects, or
   both finish with the same effects and the same results, left where the arguments were, with
   nothing below the frame changed.
   */
  lemma LoweredBodyCorrect<W>(
    fx: FileEffects<W>, ops: seq<Op>, params: nat, locals: seq<ValType>, results: nat, b: nat, regs: seq<Value>, w: W)
    requires params <= |locals| <= MAX_U16 && b + params <= |regs|
    requires ValidCode(ops, |locals|, 0, results) && LowerBody(ops, |locals|, results).Ok?
    ensures var f := LowerBody(ops, |locals|, results).value;
      && |locals| == f.layout.localsCount <= f.layout.registers && AllInFrame(f.layout, f.code)
      && (var entered := EnterRegs(regs, params, locals, b, f.layout);
         var got := RegRun(fx, f.layout, b, f.code, entered, w);
         var expected := StackRun(fx.effects, ops, results,
           State(regs[b..b + params] + Zeros(locals[params..]), [], w));
         if expected.Trapped? then got == Outcome<(seq<Value>, W), W>.Trapped(expected.world)
         else
           && got.Goes? && got.state.1 == expected.state.world && |expected.state.stack| == results
           && b + OperandStart(f.layout) + results <= |got.state.0|
           && (var left := ExitRegs(got.state.0, results, b, f.layout);
              |regs| <= |left| && b + results <= |left| && left[b..b + results] == expected.state.stack
                && left[..b] == regs[..b]))
  {
    hide RegRun, SimOk, CodeOk, Rel, RegIntact, LowerOps, LowerEnd, EnterRegs, StackRun, LowerBody;
    LowerBodyShape(ops, |locals|, results);
    var f := LowerBody(ops, |locals|, results).value;
    var l := f.layout;
    var s0 := Start(|locals|);
    var s1 := LowerOps(s0, ops, results).value;
    var s2 := LowerEnd(s1, results).value;
    var st := State(regs[b..b + params] + Zeros(locals[params..]), [], w);
    var entered := EnterRegs(regs, params, locals, b, l);
    EntryRel(regs, params, locals, b, l);
    OpsAgree(fx, s0, ops, results, s1, l, b, st, entered);
    RunThrough(fx, l, b, s0, s1, s2, entered, w);
    assert s2.code[|s0.code|..] == s2.code;
    assert Segment(l, s0, s2) == f.code;
    var expected := StackRun(fx.effects, ops, results, st);
    if expected.Goes? {
      var regs1 := RegRun(fx, l, b, Segment(l, s0, s1), entered, w).state.0;
      FromRel(s1, l, b, expected.state.locals, expected.state.stack, regs1);
      EndAgrees(fx, s1, l, b, expected.state.locals, expected.state.stack, regs1, expected.state.world);
      var regs2 := RegRun(fx, l, b, Segment(l, s1, s2), regs1, expected.state.world).state.0;
      var at := b + OperandStart(l);
      assert ExitRegs(regs2, results, b, l)[..b] == regs2[..b];
      assert ExitRegs(regs2, results, b, l)[b..b + results] == regs2[at..at + results];
    }
  }
}
