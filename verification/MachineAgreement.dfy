/**
 The two machines are interchangeable: a program lowered for the register machine and the same
 program lowered for the stack machine end together, under any driver, with the same results and
 the same effects.
 */
module MachineAgreement {
  import opened Values
  import opened Drivers
  import opened DriverAgreement
  import opened DriverRuns
  import opened DriverTraces
  import opened RegisterFrame
  import opened RegisterLayout
  import opened OperandStack
  import opened StackCode
  import opened BlockCode
  import opened BlockCalls
  import opened BlockMachine
  import opened BlockPrograms
  import opened BlockDrivers
  import opened LoweredBody
  import opened BlockBody
  import opened OutwardNests
  import opened LoweredPrograms
  import opened LoweredDrivers
  import opened StackLowering
  import opened StackPrograms
  import opened StackDrivers
  import Invocation

  /** One program on the two machines, with the same surroundings. */
  datatype Pair<!W> = Pair(
    funcs: seq<StructuredFunc>, rt: Runtime<W>,
    registers: Env<RegLayout, nat, RegStore<W>>, decodeRegister: Instr -> FrameCtl,
    stack: StackEnv<W>, decodeStack: Instr -> StackInstr)

  ghost predicate Lowered<W(!new)>(p: Pair<W>) {
    && StructuredProgramOk(p.funcs) && RealizesBlocks(p.registers, p.funcs, p.decodeRegister, p.rt)
    && StackProgramOk(p.funcs) && RealizesStack(p.stack, p.funcs, p.decodeStack, p.rt)
    && p.registers.maxDepth == p.stack.maxDepth && p.registers.program.signatures == p.stack.program.signatures
  }

  /**
   The same results, where each machine leaves them, and the same effects; or an error on both,
   after the same effects.
   */
  ghost predicate SameEnd<W>(x: Final<RegStore<W>>, y: Final<StackStore<W>>, results: nat) {
    && x.store.rest == y.store.rest
    && match y
       case Completed(t) =>
         x.Completed? && |t.slots| == results <= |x.store.regs| && x.store.regs[..results] == t.slots
       case Error(_, _) => x.Error?
       case Panic(_) => false
  }

  lemma PairFacts<W(!new)>(p: Pair<W>, g: nat)
    requires Lowered(p) && g < |p.funcs| && p.funcs[g].Function?
    ensures OffsetsParallel(p.registers.program) && OffsetsParallel(p.stack.program) && IsLocal(p.stack.program, g)
    ensures IsLocal(p.registers.program, g) && ResultCount(p.stack.program, g) == p.funcs[g].results
  {
    hide StructuredProgramOk, RealizesBlocks, StackProgramOk, RealizesStack, LowerFunc;
    BodyInPlace(p.registers, p.funcs, p.decodeRegister, p.rt, g);
    StackBodyFacts(p.stack, p.funcs, p.decodeStack, p.rt, g);
  }

  /** What one machine's driver has ended with, the other's ends with too. */
  lemma RegisterEndIsStackEnd<W(!new)>(p: Pair<W>, g: nat, args: seq<Value>, w: W, x: Final<RegStore<W>>)
    returns (y: Final<StackStore<W>>)
    requires Lowered(p) && g < |p.funcs| && p.funcs[g].Function? && |args| == p.funcs[g].params
    requires OffsetsParallel(p.registers.program) && NativeEnds(p.registers, g, 0, RegStore(args, w), x)
    ensures OffsetsParallel(p.stack.program) && NativeEnds(p.stack, g, ENTRY_BASE, StackStore(args, w), y)
    ensures SameEnd(x, y, p.funcs[g].results)
  {
    hide StructuredProgramOk, RealizesBlocks, StackProgramOk, RealizesStack, NativeEnds, FrameEnds, CallWithin;
    PairFacts(p, g);
    StructuredProgramRuns(p.registers, p.funcs, p.decodeRegister, p.rt, g, RegStore(args, w), x);
    var fuel: nat :| EndsAlike(p.registers, g, RegStore(args, w),
      StackReply(p.registers, p.funcs, p.rt, fuel, g, RegStore(args, w)), x);
    assert args[..p.funcs[g].params] == args;
    y := MeaningEndsDrivers(p.stack, p.funcs, p.decodeStack, p.rt, fuel, g, StackStore(args, w));
  }

  lemma StackEndIsRegisterEnd<W(!new)>(p: Pair<W>, g: nat, args: seq<Value>, w: W, y: Final<StackStore<W>>)
    returns (x: Final<RegStore<W>>)
    requires Lowered(p) && g < |p.funcs| && p.funcs[g].Function? && |args| == p.funcs[g].params
    requires OffsetsParallel(p.stack.program) && NativeEnds(p.stack, g, ENTRY_BASE, StackStore(args, w), y)
    ensures OffsetsParallel(p.registers.program) && NativeEnds(p.registers, g, 0, RegStore(args, w), x)
  {
    hide StructuredProgramOk, RealizesBlocks, StackProgramOk, RealizesStack, NativeEnds, FrameEnds, CallWithin;
    PairFacts(p, g);
    StackProgramRuns(p.stack, p.funcs, p.decodeStack, p.rt, g, StackStore(args, w), y);
    var fuel: nat :| StackEndsAlike(p.stack, g, StackStore(args, w),
      MeaningOf(p.stack, p.funcs, p.rt, fuel, g, StackStore(args, w)), y);
    assert args[..p.funcs[g].params] == args;
    x := ReplyEndsDrivers(p.registers, p.funcs, p.decodeRegister, p.rt, fuel, g, RegStore(args, w));
  }

  /**
   On any validated program that strands no operand, whatever its operators and the host do, the
   register machine ends if and only if the stack machine does, under either driver of each; and
   they end alike.
   */
  lemma MachinesAgree<W(!new)>(p: Pair<W>, g: nat, args: seq<Value>, w: W)
    requires Lowered(p) && g < |p.funcs| && p.funcs[g].Function? && |args| == p.funcs[g].params
    ensures OffsetsParallel(p.registers.program) && OffsetsParallel(p.stack.program)
    ensures (exists x :: Ends(p.registers, g, 0, RegStore(args, w), x))
       <==> (exists y :: Ends(p.stack, g, ENTRY_BASE, StackStore(args, w), y))
    ensures forall x, y ::
      Ends(p.registers, g, 0, RegStore(args, w), x) && Ends(p.stack, g, ENTRY_BASE, StackStore(args, w), y) ==>
        SameEnd(x, y, p.funcs[g].results)
  {
    hide StructuredProgramOk, RealizesBlocks, StackProgramOk, RealizesStack, NativeEnds, FrameEnds;
    PairFacts(p, g);
    var r, s := RegStore(args, w), StackStore(args, w);
    if x :| Ends(p.registers, g, 0, r, x) {
      StructuredProgramRuns(p.registers, p.funcs, p.decodeRegister, p.rt, g, r, x);
      var y := RegisterEndIsStackEnd(p, g, args, w, x);
      assert Ends(p.stack, g, ENTRY_BASE, s, y);
    }
    if y :| Ends(p.stack, g, ENTRY_BASE, s, y) {
      StackProgramRuns(p.stack, p.funcs, p.decodeStack, p.rt, g, s, y);
      var x := StackEndIsRegisterEnd(p, g, args, w, y);
      assert Ends(p.registers, g, 0, r, x);
    }
    forall x, y | Ends(p.registers, g, 0, r, x) && Ends(p.stack, g, ENTRY_BASE, s, y)
      ensures SameEnd(x, y, p.funcs[g].results)
    {
      StructuredProgramRuns(p.registers, p.funcs, p.decodeRegister, p.rt, g, r, x);
      StackProgramRuns(p.stack, p.funcs, p.decodeStack, p.rt, g, s, y);
      var y' := RegisterEndIsStackEnd(p, g, args, w, x);
      OneEnd(p.stack, g, ENTRY_BASE, s, y, y');
    }
  }

  // ------------------------------------------------------------------ calls from outside

  /** What the caller of an export makes of a run's end. */
  function FinalReply<L, B, S>(e: Env<L, B, S>, entry: Invocation.Entry<S, B>, g: nat, final: Final<S>)
    : Invocation.Reply
  {
    match final
    case Completed(s) => Invocation.ReplyOf(e, entry, g, Returned(s, 0))
    case Error(trace, _) => Invocation.Raised(trace)
    case Panic(_) => Invocation.Aborted
  }

  lemma EndSettles<L, B, S>(
    e: Env<L, B, S>, entry: Invocation.Entry<S, B>, g: nat, params: seq<Val>, store: S, final: Final<S>)
    requires OffsetsParallel(e.program)
    requires NativeEnds(e, g, entry.base, entry.stage(UntagAll(params), store), final)
    ensures Invocation.Settles(e, entry, g, params, store, FinalReply(e, entry, g, final))
  {
    hide NativeCall;
    var staged := entry.stage(UntagAll(params), store);
    var n: nat :| NativeFinal(NativeCall(e, n, g, entry.base, staged, 0)) == Some(final);
    var reply := FinalReply(e, entry, g, final);
    forall m: nat | n <= m ensures Invocation.RunReply(e, entry, m, g, params, store) == reply {
      MoreFuel(e, n, m, g, entry.base, staged, 0);
    }
    assert Invocation.SettledBy(e, entry, n, g, params, store, reply);
  }

  lemma SettledEnd<L, B, S>(
    e: Env<L, B, S>, entry: Invocation.Entry<S, B>, g: nat, params: seq<Val>, store: S, reply: Invocation.Reply)
    returns (final: Final<S>)
    requires OffsetsParallel(e.program) && reply != Invocation.Unfinished
    requires Invocation.Settles(e, entry, g, params, store, reply)
    ensures NativeEnds(e, g, entry.base, entry.stage(UntagAll(params), store), final)
    ensures reply == FinalReply(e, entry, g, final)
  {
    hide NativeCall;
    var n: nat :| Invocation.SettledBy(e, entry, n, g, params, store, reply);
    assert Invocation.RunReply(e, entry, n, g, params, store) == reply;
    var staged := entry.stage(UntagAll(params), store);
    final := NativeFinal(NativeCall(e, n, g, entry.base, staged, 0)).value;
    assert NativeFinal(NativeCall(e, n, g, entry.base, staged, 0)) == Some(final);
  }

  /** Runs that end alike are answered alike: with the same typed results, or with an error on both machines. */
  lemma SameReply<W(!new)>(p: Pair<W>, g: nat, x: Final<RegStore<W>>, y: Final<StackStore<W>>)
    requires Lowered(p) && g < |p.funcs| && p.funcs[g].Function? && SameEnd(x, y, p.funcs[g].results)
    ensures var r, s := FinalReply(p.registers, Invocation.RegEntry(), g, x),
                        FinalReply(p.stack, Invocation.StackEntry(), g, y);
      (r.Answered? && r == s) || (r.Raised? && s.Raised?)
  {
    hide StructuredProgramOk, RealizesBlocks, StackProgramOk, RealizesStack;
    PairFacts(p, g);
    if y.Completed? {
      var slots := y.store.slots;
      assert slots[|slots| - p.funcs[g].results..] == slots;
    }
  }

  lemma StagingIs<W>(params: seq<Val>, regs: seq<Value>, slots: seq<Value>, w: W)
    ensures Invocation.RegEntry<W>().stage(UntagAll(params), RegStore(regs, w)) == RegStore(UntagAll(params), w)
    ensures Invocation.StackEntry<W>().stage(UntagAll(params), StackStore(slots, w)) == StackStore(UntagAll(params), w)
    ensures Invocation.RegEntry<W>().base == 0 && Invocation.StackEntry<W>().base == ENTRY_BASE
  {
  }

  lemma StackSettlesToo<W(!new)>(
    p: Pair<W>, g: nat, params: seq<Val>, regs: seq<Value>, slots: seq<Value>, w: W, r: Invocation.Reply)
    returns (s: Invocation.Reply)
    requires Lowered(p) && g < |p.funcs| && p.funcs[g].Function? && |params| == p.funcs[g].params
    requires OffsetsParallel(p.registers.program) && r != Invocation.Unfinished
    requires Invocation.Settles(p.registers, Invocation.RegEntry(), g, params, RegStore(regs, w), r)
    ensures OffsetsParallel(p.stack.program)
    ensures Invocation.Settles(p.stack, Invocation.StackEntry(), g, params, StackStore(slots, w), s)
    ensures (r.Answered? && s == r) || (r.Raised? && s.Raised?)
  {
    hide StructuredProgramOk, RealizesBlocks, StackProgramOk, RealizesStack, NativeEnds, SameEnd;
    hide Invocation.Settles, Invocation.RegEntry, Invocation.StackEntry, FinalReply;
    StagingIs(params, regs, slots, w);
    PairFacts(p, g);
    var x := SettledEnd(p.registers, Invocation.RegEntry(), g, params, RegStore(regs, w), r);
    var y := RegisterEndIsStackEnd(p, g, UntagAll(params), w, x);
    EndSettles(p.stack, Invocation.StackEntry(), g, params, StackStore(slots, w), y);
    SameReply(p, g, x, y);
    s := FinalReply(p.stack, Invocation.StackEntry(), g, y);
  }

  lemma RegistersSettleToo<W(!new)>(
    p: Pair<W>, g: nat, params: seq<Val>, regs: seq<Value>, slots: seq<Value>, w: W, s: Invocation.Reply)
    returns (r: Invocation.Reply)
    requires Lowered(p) && g < |p.funcs| && p.funcs[g].Function? && |params| == p.funcs[g].params
    requires OffsetsParallel(p.stack.program) && s != Invocation.Unfinished
    requires Invocation.Settles(p.stack, Invocation.StackEntry(), g, params, StackStore(slots, w), s)
    ensures OffsetsParallel(p.registers.program)
    ensures Invocation.Settles(p.registers, Invocation.RegEntry(), g, params, RegStore(regs, w), r)
    ensures (r.Answered? && s == r) || (r.Raised? && s.Raised?)
  {
    hide StructuredProgramOk, RealizesBlocks, StackProgramOk, RealizesStack, NativeEnds, SameEnd;
    hide Invocation.Settles, Invocation.RegEntry, Invocation.StackEntry, FinalReply;
    StagingIs(params, regs, slots, w);
    PairFacts(p, g);
    var y := SettledEnd(p.stack, Invocation.StackEntry(), g, params, StackStore(slots, w), s);
    var x := StackEndIsRegisterEnd(p, g, UntagAll(params), w, y);
    var y' := RegisterEndIsStackEnd(p, g, UntagAll(params), w, x);
    OneEnd(p.stack, g, ENTRY_BASE, StackStore(UntagAll(params), w), y, y');
    EndSettles(p.registers, Invocation.RegEntry(), g, params, RegStore(regs, w), x);
    SameReply(p, g, x, y);
    r := FinalReply(p.registers, Invocation.RegEntry(), g, x);
  }

  /**
   A call from outside cannot tell which machine it is made to: it settles on an answer on one if
   and only if it settles on that answer on the other, and on an error if and only if on an error,
   whatever either store held before.
   */
  lemma InvocationsAgree<W(!new)>(
    p: Pair<W>, g: nat, params: seq<Val>, regs: seq<Value>, slots: seq<Value>, w: W)
    requires Lowered(p) && g < |p.funcs| && p.funcs[g].Function? && |params| == p.funcs[g].params
    ensures OffsetsParallel(p.registers.program) && OffsetsParallel(p.stack.program)
    ensures forall vs ::
      var reply := Invocation.Answered(vs);
      Invocation.Settles(p.registers, Invocation.RegEntry(), g, params, RegStore(regs, w), reply)
      <==> Invocation.Settles(p.stack, Invocation.StackEntry(), g, params, StackStore(slots, w), reply)
    ensures
      (exists t ::
        Invocation.Settles(p.registers, Invocation.RegEntry(), g, params, RegStore(regs, w), Invocation.Raised(t)))
      <==> (exists t ::
        Invocation.Settles(p.stack, Invocation.StackEntry(), g, params, StackStore(slots, w), Invocation.Raised(t)))
  {
    hide StructuredProgramOk, RealizesBlocks, StackProgramOk, RealizesStack;
    hide Invocation.Settles, Invocation.RegEntry, Invocation.StackEntry;
    PairFacts(p, g);
    var er, es := Invocation.RegEntry<W>(), Invocation.StackEntry<W>();
    forall vs
      ensures Invocation.Settles(p.registers, er, g, params, RegStore(regs, w), Invocation.Answered(vs))
         <==> Invocation.Settles(p.stack, es, g, params, StackStore(slots, w), Invocation.Answered(vs))
    {
      if Invocation.Settles(p.registers, er, g, params, RegStore(regs, w), Invocation.Answered(vs)) {
        var s := StackSettlesToo(p, g, params, regs, slots, w, Invocation.Answered(vs));
      }
      if Invocation.Settles(p.stack, es, g, params, StackStore(slots, w), Invocation.Answered(vs)) {
        var r := RegistersSettleToo(p, g, params, regs, slots, w, Invocation.Answered(vs));
      }
    }
    if t :| Invocation.Settles(p.registers, er, g, params, RegStore(regs, w), Invocation.Raised(t)) {
      var s := StackSettlesToo(p, g, params, regs, slots, w, Invocation.Raised(t));
      assert s == Invocation.Raised(s.trace);
    }
    if t :| Invocation.Settles(p.stack, es, g, params, StackStore(slots, w), Invocation.Raised(t)) {
      var r := RegistersSettleToo(p, g, params, regs, slots, w, Invocation.Raised(t));
      assert r == Invocation.Raised(r.trace);
    }
  }

  // ------------------------------------------------------------------ where they disagree

  lemma SingleDepths(c: Ctl, labels: nat)
    ensures DepthsOk([c], labels) <==> DepthsOkOne(c, labels)
  {
    assert [c][0] == c && [c][1..] == [];
  }

  lemma {:induction false} DepthsOfBoth(cs: seq<Ctl>, rest: seq<Ctl>, labels: nat)
    requires DepthsOk(cs, labels) && DepthsOk(rest, labels)
    ensures DepthsOk(cs + rest, labels)
    decreases |cs|
  {
    if cs == [] {
      assert cs + rest == rest;
    } else {
      assert (cs + rest)[0] == cs[0] && (cs + rest)[1..] == cs[1..] + rest;
      DepthsOfBoth(cs[1..], rest, labels);
    }
  }

  lemma {:induction false} DeepDepths(j: nat, d: nat, labels: nat)
    requires j <= d && d < labels + j
    ensures DepthsOk(Deep(j, d), labels)
  {
    if j == 0 {
      SingleDepths(Br(d), labels);
    } else {
      DeepDepths(j - 1, d, labels + 1);
      SingleDepths(Block(0, 0, Deep(j - 1, d)), labels);
    }
  }

  lemma CoreDepths(d: nat, labels: nat)
    requires 0 < labels
    ensures DepthsOk(Core(d), labels)
  {
    hide DepthsOk;
    DeepDepths(d, d, labels + 1);
    SingleDepths(FIVE, labels + 1);
    SingleDepths(WRITE, labels + 1);
    DepthsOfBoth([FIVE], [WRITE], labels + 1);
    assert [FIVE] + [WRITE] == [FIVE, WRITE];
    DepthsOfBoth(Deep(d, d), [FIVE, WRITE], labels + 1);
    var read, block, keep := Plain(LocalGet(0)), Block(0, 0, TargetBody(d)), Plain(LocalSet(1));
    SingleDepths(read, labels);
    SingleDepths(block, labels);
    SingleDepths(keep, labels);
    DepthsOfBoth([read], [block], labels);
    DepthsOfBoth([read] + [block], [keep], labels);
    assert [read] + [block] + [keep] == Core(d);
  }

  lemma {:induction false} NestDepths(outer: seq<bool>, d: nat, labels: nat)
    requires 0 < labels
    ensures DepthsOk(Nest(outer, d), labels)
  {
    hide DepthsOk, Core;
    if outer == [] {
      CoreDepths(d, labels);
    } else {
      NestDepths(outer[1..], d, labels + 1);
      SingleDepths(Loop(0, 0, Nest(outer[1..], d)), labels);
      SingleDepths(Block(0, 0, Nest(outer[1..], d)), labels);
    }
  }

  /** The nests that the register machine's pass gets wrong, as programs. */
  function NestFunction(outer: seq<bool>, d: nat): StructuredFunc {
    Function(1, [I32, I32], 1, NestBody(outer, d))
  }

  /** A branch within its labels, as in every nest. */
  lemma NestBodyDepths(outer: seq<bool>, d: nat)
    ensures DepthsOk(NestBody(outer, d), 1)
  {
    NestDepths(outer, d, 1);
    SingleDepths(Plain(LocalGet(1)), 1);
    DepthsOfBoth(Nest(outer, d), [Plain(LocalGet(1))], 1);
  }

  /** A program of one nest alone is validated. */
  lemma NestProgramOk(outer: seq<bool>, d: nat)
    requires 0 < d
    ensures StackProgramOk([NestFunction(outer, d)])
  {
    hide NestBody, DepthsOk, HeightAfterSeq, SeqCallsOk;
    NestBodyDepths(outer, d);
    NestLowered(outer, d);
    NestCalls([NestFunction(outer, d)], outer, d);
  }

  lemma SingleCalls(funcs: seq<StructuredFunc>, c: Ctl)
    ensures SeqCallsOk(funcs, [c]) <==> OneCallsOk(funcs, c)
  {
    assert [c][0] == c && [c][1..] == [];
  }

  lemma {:induction false} CallsOfBoth(funcs: seq<StructuredFunc>, cs: seq<Ctl>, rest: seq<Ctl>)
    requires SeqCallsOk(funcs, cs) && SeqCallsOk(funcs, rest)
    ensures SeqCallsOk(funcs, cs + rest)
    decreases |cs|
  {
    if cs == [] {
      assert cs + rest == rest;
    } else {
      assert (cs + rest)[0] == cs[0] && (cs + rest)[1..] == cs[1..] + rest;
      CallsOfBoth(funcs, cs[1..], rest);
    }
  }

  lemma {:induction false} DeepCalls(funcs: seq<StructuredFunc>, j: nat, d: nat)
    ensures SeqCallsOk(funcs, Deep(j, d))
  {
    if j == 0 {
      SingleCalls(funcs, Br(d));
    } else {
      DeepCalls(funcs, j - 1, d);
      SingleCalls(funcs, Block(0, 0, Deep(j - 1, d)));
    }
  }

  lemma CoreCalls(funcs: seq<StructuredFunc>, d: nat)
    ensures SeqCallsOk(funcs, Core(d))
  {
    hide SeqCallsOk;
    DeepCalls(funcs, d, d);
    SingleCalls(funcs, FIVE);
    SingleCalls(funcs, WRITE);
    CallsOfBoth(funcs, [FIVE], [WRITE]);
    assert [FIVE] + [WRITE] == [FIVE, WRITE];
    CallsOfBoth(funcs, Deep(d, d), [FIVE, WRITE]);
    var read, block, keep := Plain(LocalGet(0)), Block(0, 0, TargetBody(d)), Plain(LocalSet(1));
    SingleCalls(funcs, read);
    SingleCalls(funcs, block);
    SingleCalls(funcs, keep);
    CallsOfBoth(funcs, [read], [block]);
    CallsOfBoth(funcs, [read] + [block], [keep]);
    assert [read] + [block] + [keep] == Core(d);
  }

  lemma {:induction false} NestOfCalls(funcs: seq<StructuredFunc>, outer: seq<bool>, d: nat)
    ensures SeqCallsOk(funcs, Nest(outer, d))
  {
    hide SeqCallsOk, Core;
    if outer == [] {
      CoreCalls(funcs, d);
    } else {
      NestOfCalls(funcs, outer[1..], d);
      SingleCalls(funcs, Loop(0, 0, Nest(outer[1..], d)));
      SingleCalls(funcs, Block(0, 0, Nest(outer[1..], d)));
    }
  }

  lemma NestCalls(funcs: seq<StructuredFunc>, outer: seq<bool>, d: nat)
    ensures SeqCallsOk(funcs, NestBody(outer, d))
  {
    NestOfCalls(funcs, outer, d);
    SingleCalls(funcs, Plain(LocalGet(1)));
    CallsOfBoth(funcs, Nest(outer, d), [Plain(LocalGet(1))]);
  }

  /** The reference returns a nest's argument. */
  lemma NestMeans<W(!new)>(
    e: StackEnv<W>, funcs: seq<StructuredFunc>, rt: Runtime<W>, g: nat, outer: seq<bool>, d: nat, v: Value, w: W)
    requires 0 < d && g < |funcs| && funcs[g] == NestFunction(outer, d)
    ensures MeaningOf(e, funcs, rt, 0, g, StackStore([v], w)) == Answered([v], w)
  {
    hide RunSeq, NestBody;
    var fx := Within(funcs, rt, 0, Remaining(e.maxDepth, 1));
    StackMachineKeepsArgument(fx, 0, outer, d, v, Here(w));
    assert [v] + Zeros([I32, I32][1..]) == [v, 0];
    CallIs(funcs, rt, 0, Remaining(e.maxDepth, 1), g, [v], w);
  }

  /** In `n` steps the lowered body, called with `v`, comes to its end, and its one result is 0. */
  ghost predicate ReturnsZero<W>(fx: FileEffects<W>, f: LoweredBlocks, v: Value, w: W, n: nat) {
    && 2 <= f.layout.registers
    && var pt := Steps(fx, f.layout, 0, f.code, n, At(0, EnterRegs([v], 1, [I32, I32], 0, f.layout), w));
      && pt.At? && pt.pc == |f.code| && OperandStart(f.layout) + 1 <= |pt.regs|
      && ExitRegs(pt.regs, 1, 0, f.layout)[..1] == [0]
  }

  /**
   Without the condition the machines are not interchangeable.  Wherever the check on the source
   refuses a branch there is a validated program with a branch in that place, which both passes
   accept, and on which they disagree: the stack machine returns the argument `v` and the register
   machine's code ends with 0 for a result.
   */
  lemma MachinesDisagree<W(!new)>(
    e: StackEnv<W>, funcs: seq<StructuredFunc>, decode: Instr -> StackInstr, rt: Runtime<W>, outer: seq<bool>,
    d: nat, v: Value, w: W, fx: FileEffects<W>)
    returns (n: nat)
    requires 0 < d && funcs == [NestFunction(outer, d)]
    ensures StackProgramOk(funcs) && BodyValid(NestBody(outer, d), 2, 1)
    ensures RealizesStack(e, funcs, decode, rt) ==> OffsetsParallel(e.program)
    ensures RealizesStack(e, funcs, decode, rt) ==>
      forall y :: Ends(e, 0, ENTRY_BASE, StackStore([v], w), y) <==> y == Completed(StackStore([v], w))
    ensures LowerStructured(NestBody(outer, d), 2, 1).Ok?
    ensures ReturnsZero(fx, LowerStructured(NestBody(outer, d), 2, 1).value, v, w, n)
  {
    hide NestBody, BodyValid, LowerStructured, Steps, EnterRegs, NestCode, StackProgramOk, RealizesStack, MeaningOf,
         NativeEnds, FrameEnds, ExitRegs, RunSeq;
    NestProgramOk(outer, d);
    n := OutwardPlacesGoWrong(fx, outer, d, v, w, 0);
    if RealizesStack(e, funcs, decode, rt) {
      var s, y := StackStore([v], w), Completed(StackStore([v], w));
      NestMeans(e, funcs, rt, 0, outer, d, v, w);
      StackBodyFacts(e, funcs, decode, rt, 0);
      var y' := MeaningEndsDrivers(e, funcs, decode, rt, 0, 0, s);
      forall z | Ends(e, 0, ENTRY_BASE, s, z) ensures z == y {
        StackProgramRuns(e, funcs, decode, rt, 0, s, z);
        OneEnd(e, 0, ENTRY_BASE, s, y, z);
      }
    }
  }
}
