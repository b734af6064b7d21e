/**
 A call from outside to a lowered program of structured functions
 (`TraceVM::run`, `tracewasm-core/src/runtime/mod.rs`).
 */
module BlockInvocation {
  import opened Values
  import opened Drivers
  import opened DriverAgreement
  import opened DriverTraces
  import opened RegisterFrame
  import opened RegisterLayout
  import opened LoweredPrograms
  import opened LoweredDrivers
  import opened BlockMachine
  import opened BlockCalls
  import opened BlockPrograms
  import opened BlockDrivers
  import Invocation

  /** The stack machine's answer re-tagged by the declared types, or an error with a complete backtrace. */
  ghost predicate Tells<W>(reply: Invocation.Reply, answer: Reply<W>, tys: seq<ValType>, f: nat) {
    match answer
    case Answered(rs, _) => |rs| == |tys| && reply == Invocation.Answered(RetagAll(rs, tys))
    case Stuck(_) => reply.Raised? && LinkedTrace(reply.trace, f)
    case Unfinished => false
  }

  /**
   Once the stack machine has answered, with some fuel, the call from outside settles on a reply
   that tells that answer, whatever the register file held before.
   */
  lemma StructuredRunAnswers<W(!new)>(
    e: Env<RegLayout, nat, RegStore<W>>, funcs: seq<StructuredFunc>, decode: Instr -> FrameCtl, rt: Runtime<W>,
    fuel: nat,
    g: nat, params: seq<Val>, regs: seq<Value>, rest: W)
    returns (reply: Invocation.Reply)
    requires StructuredProgramOk(funcs) && RealizesBlocks(e, funcs, decode, rt) && g < |funcs| && funcs[g].Function?
    requires |params| == funcs[g].params
    requires !CallWithin(funcs, rt, fuel, Remaining(e.maxDepth, 1), g, UntagAll(params), rest).Unfinished?
    ensures OffsetsParallel(e.program) && g < |e.program.signatures|
    ensures Invocation.Settles(e, Invocation.RegEntry(), g, params, RegStore(regs, rest), reply)
    ensures Tells(reply, CallWithin(funcs, rt, fuel, Remaining(e.maxDepth, 1), g, UntagAll(params), rest),
                  e.program.signatures[g].results, g)
  {
    hide StructuredProgramOk, RealizesBlocks, CallWithin, NativeCall, LinkedTrace, CallReturns, CallFails;
    BodyInPlace(e, funcs, decode, rt, g);
    var args := UntagAll(params);
    var s := RegStore(args, rest);
    CallDrives(e, funcs, decode, rt, fuel, g, 0, s, 0);
    assert args[0..0 + funcs[g].params] == args;
    Invocation.StagingForgets(args, regs, rest);
    var n: nat;
    match CallWithin(funcs, rt, fuel, Remaining(e.maxDepth, 1), g, args, rest) {
      case Answered(rs, w) =>
        n :| CallReturns(e, n, funcs[g].results, g, 0, s, 0, rs, w);
        ReturnTells(e, n, funcs[g].results, g, s, rs, w);
      case Stuck(w) =>
        n :| CallFails(e, n, g, 0, s, 0, w);
        FailTells(e, n, g, s, w);
    }
    reply := Invocation.RunReply(e, Invocation.RegEntry(), n, g, params, RegStore(regs, rest));
    forall m: nat | n <= m
      ensures Invocation.RunReply(e, Invocation.RegEntry(), m, g, params, RegStore(regs, rest)) == reply
    {
      MoreFuel(e, n, m, g, 0, s, 0);
    }
    assert Invocation.SettledBy(e, Invocation.RegEntry(), n, g, params, RegStore(regs, rest), reply);
  }

  lemma ReturnTells<W>(
    e: Env<RegLayout, nat, RegStore<W>>, n: nat, results: nat, g: nat, s: RegStore<W>, rs: seq<Value>, w: W)
    requires OffsetsParallel(e.program) && g < |e.program.signatures| && |e.program.signatures[g].results| == results
    requires CallReturns(e, n, results, g, 0, s, 0, rs, w)
    ensures var r := NativeCall(e, n, g, 0, s, 0);
      !r.OutOfFuel? && |rs| == results
      && Invocation.ReplyOf(e, Invocation.RegEntry(), g, r) ==
         Invocation.Answered(RetagAll(rs, e.program.signatures[g].results))
  {
    hide NativeCall;
    var t := NativeCall(e, n, g, 0, s, 0).store;
    assert t.regs[0..0 + results] == t.regs[..results];
  }

  lemma FailTells<W>(e: Env<RegLayout, nat, RegStore<W>>, n: nat, g: nat, s: RegStore<W>, w: W)
    requires OffsetsParallel(e.program) && CallFails(e, n, g, 0, s, 0, w)
    ensures var r := NativeCall(e, n, g, 0, s, 0);
      var reply := Invocation.ReplyOf(e, Invocation.RegEntry(), g, r);
      !r.OutOfFuel? && reply.Raised? && LinkedTrace(reply.trace, g)
  {
    hide NativeCall, LinkedTrace;
    NativeErrorTrace(e, n, g, 0, s);
  }

  /** A call that the stack machine has not answered with some fuel is unfinished with as much. */
  lemma StructuredRunGoesOn<W(!new)>(
    e: Env<RegLayout, nat, RegStore<W>>, funcs: seq<StructuredFunc>, decode: Instr -> FrameCtl, rt: Runtime<W>,
    fuel: nat,
    g: nat, params: seq<Val>, regs: seq<Value>, rest: W)
    requires StructuredProgramOk(funcs) && RealizesBlocks(e, funcs, decode, rt) && g < |funcs| && funcs[g].Function?
    requires |params| == funcs[g].params
    requires CallWithin(funcs, rt, fuel, Remaining(e.maxDepth, 1), g, UntagAll(params), rest).Unfinished?
    ensures OffsetsParallel(e.program)
    ensures Invocation.RunReply(e, Invocation.RegEntry(), fuel, g, params, RegStore(regs, rest))
      == Invocation.Unfinished
  {
    hide StructuredProgramOk, RealizesBlocks, CallWithin, NativeCall;
    var args := UntagAll(params);
    var s := RegStore(args, rest);
    StillRunning(e, funcs, decode, rt, fuel, g, s);
    assert args[..funcs[g].params] == args;
    Invocation.StagingForgets(args, regs, rest);
  }
}
