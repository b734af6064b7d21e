/**
 The lowering pass in place: `SimulatedStack` of
 `tracewasm-core/src/instruction/register/mod.rs` and the loop that drives it, each method
 proved to compute the functions of `RegisterLowering` and `LoweredBody`.
 */
module SimulatedStacks {
  import Interning
  import opened Values
  import opened RegisterLayout
  import opened StackCode
  import opened RegisterLowering
  import opened LoweredBody
  import opened LoweringCorrect

  /** Popping one operand after `n` others. */
  lemma {:induction false} PopsThenPop(s: Sim, n: nat)
    requires SimOk(s) && n < |s.stack|
    ensures SimOk(Pops(s, n)) && Popable(Pops(s, n)) && Pops(s, n + 1) == PopSlot(Pops(s, n))
    decreases n
  {
    hide SimOk;
    PopKeepsOk(if n == 0 then s else Pops(s, n));
    if n != 0 {
      PopKeepsOk(s);
      PopsThenPop(PopSlot(s), n - 1);
    }
  }

  /** The operand popped after `n` others is the one an instruction would name in its place. */
  lemma PopsNone(s: Sim)
    requires SimOk(s)
    ensures Pops(s, 0) == s && Inputs(s, 0) == []
  {
    hide SimOk;
  }

  lemma NextInput(s: Sim, n: nat)
    requires SimOk(s) && n < |s.stack|
    ensures var p := Pops(s, n);
      var top := p.stack[|p.stack| - 1];
      (top.SLocal? ==> top.entry < |p.arena|) && [SourceOf(p, top)] + Inputs(s, n) == Inputs(s, n + 1)
  {
    hide SimOk, Pops;
    EntriesExist(s);
    EntriesExist(Pops(s, n));
  }

  class SimulatedStack {
    var stack: seq<StackSlot>
    var currRegisterIndex: nat
    var maxRegisters: nat
    var arena: seq<Entry>
    var origin: seq<Option<nat>>
    var allocationLen: nat
    var freeSlots: seq<nat>
    var consts: seq<Val>
    var code: seq<RegOp>

    ghost function Model(): Sim
      reads this
    {
      Sim(stack, currRegisterIndex, maxRegisters, arena, origin, allocationLen, freeSlots, consts, code)
    }

    constructor (locals: nat)
      ensures Model() == Start(locals)
    {
      stack, currRegisterIndex, maxRegisters := [], locals, locals;
      arena, origin := [], seq(locals, _ => None);
      allocationLen, freeSlots, consts, code := 0, [], [], [];
    }

    /** Releases one borrow and says where its value was; the location is read before the count drops. */
    method PopLazy(e: nat) returns (location: Location)
      requires Releasable(Model(), e)
      modifies this
      ensures Model() == ReleaseBorrow(old(Model()), e) && location == old(arena[e].location)
    {
      location := arena[e].location;
      var refs := arena[e].refs - 1;
      arena := arena[e := arena[e].(refs := refs)];
      if refs == 0 {
        match location {
          case Original(i) => origin := origin[i := None];
          case Spilled(k) => freeSlots := freeSlots + [k];
        }
      }
    }

    /** Consumes the top operand and says where an instruction reads it. */
    method Pop() returns (source: Source)
      requires Popable(Model()) && stack != []
      modifies this
      ensures Model() == PopSlot(old(Model()))
      ensures old(stack[|stack| - 1]).SLocal? ==> old(stack[|stack| - 1]).entry < |old(arena)|
      ensures source == SourceOf(old(Model()), old(stack[|stack| - 1]))
    {
      var top := stack[|stack| - 1];
      stack := stack[..|stack| - 1];
      match top {
        case SConst(id) => source := FromConst(id);
        case SReg(index) =>
          currRegisterIndex := currRegisterIndex - 1;
          source := FromReg(index);
        case SLocal(e) =>
          var location := PopLazy(e);
          source := match location case Original(i) => FromLocal(i) case Spilled(k) => FromSpill(k);
      }
    }

    /** `local.get`: joins the borrow of local `i`, or starts one. */
    method PushLocalOperand(i: nat)
      requires i < |origin| && (origin[i].Some? ==> origin[i].value < |arena|)
      modifies this
      ensures Model() == PushLocal(old(Model()), i)
    {
      match origin[i] {
        case Some(e) =>
          arena := arena[e := arena[e].(refs := arena[e].refs + 1)];
          stack := stack + [SLocal(e)];
        case None =>
          var e := |arena|;
          arena := arena + [Entry(Original(i), 1)];
          origin := origin[i := Some(e)];
          stack := stack + [SLocal(e)];
      }
    }

    /** Allocates a register for a new operand; `None` is success. */
    method PushRegister() returns (refusal: Option<string>)
      modifies this
      ensures match PushReg(old(Model()))
              case Ok(s) => refusal == None && Model() == s
              case FrameTooLarge(what) => refusal == Some(what)
    {
      var index := currRegisterIndex;
      currRegisterIndex := currRegisterIndex + 1;
      if currRegisterIndex > maxRegisters {
        if maxRegisters >= MAX_U16 {
          return Some("locals and operand registers");
        }
        maxRegisters := maxRegisters + 1;
      }
      stack := stack + [SReg(index)];
      refusal := None;
    }

    method PushRegisters(n: nat) returns (refusal: Option<string>)
      modifies this
      ensures match PushRegs(old(Model()), n)
              case Ok(s) => refusal == None && Model() == s
              case FrameTooLarge(what) => refusal == Some(what)
    {
      ghost var start := Model();
      for i := 0 to n
        invariant PushRegs(start, n) == PushRegs(Model(), n - i)
      {
        refusal := PushRegister();
        if refusal != None {
          return;
        }
      }
      refusal := None;
    }

    method PushConstant(c: Val) returns (refusal: Option<string>)
      modifies this
      ensures match PushConst(old(Model()), c)
              case Ok(s) => refusal == None && Model() == s
              case FrameTooLarge(what) => refusal == Some(what)
    {
      if c in consts {
        stack := stack + [SConst(Interning.IndexIn(consts, c))];
      } else if |consts| >= MAX_U16 {
        return Some("constants");
      } else {
        stack := stack + [SConst(|consts|)];
        consts := consts + [c];
      }
      refusal := None;
    }

    /** Reserves a spill slot for a borrowed local about to be written, redirecting its readers; then the copy. */
    method SpillBeforeWrite(i: nat) returns (refusal: Option<string>)
      requires i < |origin| && (origin[i].Some? ==> origin[i].value < |arena|)
      modifies this
      ensures match Rescue(old(Model()), i)
              case Ok(s) => refusal == None && Model() == s
              case FrameTooLarge(what) => refusal == Some(what)
    {
      refusal := None;
      if origin[i].Some? {
        var e := origin[i].value;
        var slot: nat;
        if freeSlots != [] {
          slot := freeSlots[|freeSlots| - 1];
          freeSlots := freeSlots[..|freeSlots| - 1];
        } else if allocationLen >= MAX_U16 {
          return Some("spill slots");
        } else {
          slot := allocationLen;
          allocationLen := allocationLen + 1;
        }
        arena := arena[e := arena[e].(location := Spilled(slot))];
        origin := origin[i := None];
        code := code + [Spill(i, slot)];
      }
    }

    /** Counts back over the registers among the top `depth` operands. */
    method RegisterIndexAtDepth(depth: nat) returns (index: int)
      requires depth <= |stack|
      ensures index == RegisterAtDepth(Model(), depth)
    {
      index := currRegisterIndex;
      assert stack[..|stack| - 0] == stack;
      for i := 0 to depth
        invariant index == RegisterAtDepth(Model(), i)
      {
        PopShape(stack[..|stack| - i]);
        assert stack[..|stack| - i][..|stack| - i - 1] == stack[..|stack| - i - 1];
        if stack[|stack| - 1 - i].SReg? {
          index := index - 1;
        }
      }
    }

    /** Consumes the top `n` operands, deepest first in the result. */
    method PopInputs(n: nat) returns (inputs: seq<Source>)
      requires SimOk(Model()) && n <= |stack|
      modifies this
      ensures Model() == Pops(old(Model()), n) && inputs == Inputs(old(Model()), n)
    {
      hide SimOk, Pops, Inputs;
      ghost var start := Model();
      EntriesExist(start);
      PopsNone(start);
      inputs := [];
      for i := 0 to n
        invariant Model() == Pops(start, i) && inputs == Inputs(start, i)
      {
        PopsThenPop(start, i);
        NextInput(start, i);
        var source := Pop();
        inputs := [source] + inputs;
      }
    }

    method MaterializeOperands(n: nat) returns (refusal: Option<string>)
      requires SimOk(Model()) && n <= |stack|
      modifies this
      ensures match Materialize(old(Model()), n)
              case Ok(s) => refusal == None && Model() == s
              case FrameTooLarge(what) => refusal == Some(what)
    {
      var inputs := PopInputs(n);
      code := code + [Move(inputs, currRegisterIndex)];
      refusal := PushRegisters(n);
    }

    method LowerInvoke(callee: nat, params: nat, results: nat) returns (refusal: Option<string>)
      requires SimOk(Model()) && params <= |stack|
      modifies this
      ensures match LowerCall(old(Model()), callee, params, results)
              case Ok(s) => refusal == None && Model() == s
              case FrameTooLarge(what) => refusal == Some(what)
    {
      hide SimOk, Pops, Inputs, Materialize;
      ghost var start := Model();
      RegistersBelow(start, params);
      var base := RegisterIndexAtDepth(params);
      if params != 0 {
        refusal := MaterializeOperands(params);
        if refusal != None {
          return;
        }
        MaterializeKeepsOk(start, params);
        var _ := PopInputs(params);
      }
      code := code + [CallLocal(callee, params, results, base)];
      refusal := PushRegisters(results);
    }

    /** Where the top operand is read, left in place for `local.tee`. */
    method Tee() returns (source: Source)
      requires SimOk(Model()) && stack != []
      ensures source == Inputs(Model(), 1)[0]
    {
      match stack[|stack| - 1]
      case SConst(id) => source := FromConst(id);
      case SReg(index) => source := FromReg(index);
      case SLocal(e) =>
        source := match arena[e].location case Original(i) => FromLocal(i) case Spilled(k) => FromSpill(k);
    }

    method LowerLocalSet(i: nat) returns (refusal: Option<string>)
      requires SimOk(Model()) && i < |origin| && stack != []
      modifies this
      ensures match LowerOp(old(Model()), LocalSet(i))
              case Ok(s) => refusal == None && Model() == s
              case FrameTooLarge(what) => refusal == Some(what)
    {
      hide Count, Regs, SpillsOk, Rescue;
      ghost var start := Model();
      refusal := SpillBeforeWrite(i);
      if refusal == None {
        RescueKeepsOk(start, i);
        var inputs := PopInputs(1);
        code := code + [SetLocal(i, inputs[0])];
      }
    }

    method LowerLocalTee(i: nat) returns (refusal: Option<string>)
      requires SimOk(Model()) && i < |origin| && stack != []
      modifies this
      ensures match LowerOp(old(Model()), LocalTee(i))
              case Ok(s) => refusal == None && Model() == s
              case FrameTooLarge(what) => refusal == Some(what)
    {
      hide Count, Regs, SpillsOk, Rescue;
      ghost var start := Model();
      refusal := SpillBeforeWrite(i);
      if refusal == None {
        RescueKeepsOk(start, i);
        var source := Tee();
        code := code + [SetLocal(i, source)];
      }
    }

    /** A value operator: its results' registers are allocated once its operands are released. */
    method LowerApply(number: int, ins: nat, outs: nat) returns (refusal: Option<string>)
      requires SimOk(Model()) && ins <= |stack|
      modifies this
      ensures match LowerOp(old(Model()), Apply(number, ins, outs))
              case Ok(s) => refusal == None && Model() == s
              case FrameTooLarge(what) => refusal == Some(what)
    {
      hide Count, Regs, SpillsOk, OriginsOk, PushRegs;
      var inputs := PopInputs(ins);
      code := code + [RegOp.Value(number, inputs, currRegisterIndex, outs)];
      refusal := PushRegisters(outs);
    }

    /** One operator of the body. */
    method LowerOperator(op: Op) returns (refusal: Option<string>)
      requires SimOk(Model()) && Valid(op, |origin|, |stack|)
      modifies this
      ensures match LowerOp(old(Model()), op)
              case Ok(s) => refusal == None && Model() == s
              case FrameTooLarge(what) => refusal == Some(what)
    {
      hide Count, Regs, SpillsOk, LowerCall, PushRegs, Rescue;
      refusal := None;
      match op {
        case Const(c) => refusal := PushConstant(c);
        case LocalGet(i) => PushLocalOperand(i);
        case LocalSet(i) => refusal := LowerLocalSet(i);
        case LocalTee(i) => refusal := LowerLocalTee(i);
        case Drop => var _ := PopInputs(1);
        case Apply(number, ins, outs) => refusal := LowerApply(number, ins, outs);
        case Invoke(callee, params, results) => refusal := LowerInvoke(callee, params, results);
      }
    }
  }

  /** `emit_instructions_for_func`: the operators in order, the end, the layout, and the operands' indices. */
  method LowerFunction(ops: seq<Op>, locals: nat, results: nat) returns (lowered: Lowered<LoweredFunction>)
    requires ValidCode(ops, locals, 0, results) && locals <= MAX_U16
    ensures lowered == LowerBody(ops, locals, results)
  {
    hide SimOk, LowerOp, LowerEnd, Materialize;
    StartOk(locals);
    var sim := new SimulatedStack(locals);
    var refusal: Option<string> := None;
    for i := 0 to |ops|
      invariant SimOk(sim.Model()) && |sim.origin| == locals
      invariant ValidCode(ops[i..], locals, |sim.stack|, results)
      invariant LowerOps(Start(locals), ops, results) == LowerOps(sim.Model(), ops[i..], results)
      invariant fresh(sim)
    {
      ghost var before := sim.Model();
      assert ops[i..][0] == ops[i] && ops[i..][1..] == ops[i + 1..];
      refusal := sim.LowerOperator(ops[i]);
      if refusal.Some? {
        return FrameTooLarge(refusal.value);
      }
      LowerOpKeepsOk(before, ops[i]);
    }
    lowered := FinishBody(sim, results);
  }

  method FinishBody(sim: SimulatedStack, results: nat) returns (lowered: Lowered<LoweredFunction>)
    requires SimOk(sim.Model()) && results <= |sim.stack|
    modifies sim
    ensures lowered ==
      match LowerEnd(old(sim.Model()), results)
      case FrameTooLarge(what) => FrameTooLarge(what)
      case Ok(s) =>
        if MAX_U16 < Width(LayoutOf(s)) then FrameTooLarge("the whole frame")
        else Ok(LoweredFunction(ResolveAll(LayoutOf(s), s.code), LayoutOf(s)))
  {
    hide SimOk, Materialize;
    if results != 0 {
      var refusal := sim.MaterializeOperands(results);
      if refusal.Some? {
        return FrameTooLarge(refusal.value);
      }
    }
    sim.code := sim.code + [EndBody];
    ghost var s := LowerEnd(old(sim.Model()), results).value;
    assert sim.Model() == s;
    var l := RegLayout(sim.maxRegisters, sim.allocationLen, |sim.origin|, sim.consts);
    if Width(l) > MAX_U16 {
      return FrameTooLarge("the whole frame");
    }
    var code: seq<FrameOp> := [];
    for i := 0 to |sim.code|
      invariant code == ResolveAll(l, sim.code)[..i]
    {
      code := code + [Resolve(l, sim.code[i])];
    }
    assert code == ResolveAll(l, s.code);
    lowered := Ok(LoweredFunction(code, l));
  }
}
