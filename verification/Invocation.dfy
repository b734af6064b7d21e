/**
 `TraceVM::run` (`tracewasm-core/src/runtime/mod.rs`): an export's call from outside, on either
 frame store, and what it amounts to for a lowered program.
 */
module Invocation {
  import opened Values
  import opened Drivers
  import opened DriverLoops
  import opened DriverTraces
  import opened RegisterFrame
  import opened RegisterLayout
  import opened OperandStack
  import opened LoweredBody
  import opened LoweredPrograms
  import opened LoweredDrivers

  /**
   What `run` asks of a frame store: `stage` resets it and stages the arguments, `base` is
   where the entry frame begins, `finals` reads the results off it.
   */
  datatype Entry<!S, +B> = Entry(stage: (seq<Value>, S) -> S, base: B, finals: (nat, S) -> Option<seq<Value>>)

  function RegEntry<W>(): Entry<RegStore<W>, nat> {
    Entry((args: seq<Value>, s: RegStore<W>) => s.(regs := args),
          0,
          (n: nat, s: RegStore<W>) => if n <= |s.regs| then Some(s.regs[..n]) else None)
  }

  function StackEntry<W>(): Entry<StackStore<W>, StackBase> {
    Entry((args: seq<Value>, s: StackStore<W>) => s.(slots := args),
          ENTRY_BASE,
          (n: nat, s: StackStore<W>) => if n <= |s.slots| then Some(s.slots[|s.slots| - n..]) else None)
  }

  /** `reset` and `set_initial_params` on the register file stage the arguments as `RegEntry` says. */
  method StageRegisters<W>(frame: RegFrame, params: seq<Val>, ghost rest: W)
    requires frame.Valid()
    modifies frame
    ensures frame.Valid()
    ensures RegEntry<W>().stage(UntagAll(params), RegStore(old(frame.registers), rest))
      == RegStore(frame.registers, rest)
  {
    frame.Reset();
    frame.SetInitialParams(params);
    assert frame.registers == UntagAll(params);
  }

  /** `get_final_results` on the register file reads what `RegEntry` says. */
  method FinalRegisters<W>(frame: RegFrame, n: nat, ghost rest: W) returns (ws: seq<Value>)
    requires n <= |frame.registers|
    ensures RegEntry<W>().finals(n, RegStore(frame.registers, rest)) == Some(ws)
  {
    ws := frame.GetFinalResults(n);
  }

  /** The same on the operand stack. */
  method StageStack<W>(s: Stack<Value>, params: seq<Val>, ghost rest: W)
    requires s.Valid()
    modifies s
    ensures s.Valid()
    ensures StackEntry<W>().stage(UntagAll(params), StackStore(old(s.Contents()), rest))
      == StackStore(s.Contents(), rest)
  {
    s.Reset();
    OperandStack.SetInitialParams(s, params);
    assert s.Contents() == UntagAll(params);
  }

  /** Taking the results off the stack consumes them. */
  method FinalStack<W>(s: Stack<Value>, n: nat, ghost rest: W) returns (ws: seq<Value>)
    requires s.Valid() && n <= |s.Contents()|
    modifies s
    ensures s.Valid() && s.Contents() == old(s.Contents())[..|old(s.Contents())| - n]
    ensures StackEntry<W>().finals(n, StackStore(old(s.Contents()), rest)) == Some(ws)
  {
    ghost var before := s.Contents();
    ws := s.PopsAndReverse(n);
    assert ws == before[|before| - n..] && s.Contents() == before[..|before| - n];
  }

  /** What the caller of an export gets; `Unfinished` stands for a run longer than its fuel. */
  datatype Reply = Answered(results: seq<Val>) | Raised(trace: seq<TraceRecord>) | Aborted | Unfinished

  function ReplyOf<L, B, S>(e: Env<L, B, S>, entry: Entry<S, B>, f: nat, r: Native<S>): Reply {
    match r
    case OutOfFuel => Unfinished
    case Panicked(_) => Aborted
    case Unwound(trace, _, _) => Raised(trace)
    case Returned(s, _) =>
      if |e.program.signatures| <= f then Aborted
      else
        var tys := e.program.signatures[f].results;
        match entry.finals(|tys|, s)
        case Some(ws) => if |ws| == |tys| then Answered(RetagAll(ws, tys)) else Aborted
        case None => Aborted
  }

  /** The reply of a run. */
  ghost function RunReply<L, B, S>(e: Env<L, B, S>, entry: Entry<S, B>, fuel: nat, f: nat, params: seq<Val>,
    store: S): Reply
    requires OffsetsParallel(e.program)
  {
    ReplyOf(e, entry, f, NativeCall(e, fuel, f, entry.base, entry.stage(UntagAll(params), store), 0))
  }

  method Run<L, B, S>(e: Env<L, B, S>, entry: Entry<S, B>, instance: Instance<S>, fuel: nat, f: nat, params: seq<Val>)
    returns (reply: Reply)
    requires OffsetsParallel(e.program)
    modifies instance
    ensures reply == RunReply(e, entry, fuel, f, params, old(instance.store))
  {
    instance.store := entry.stage(UntagAll(params), instance.store);
    var verdict, _ := ExecuteOnNativeStack(e, instance, fuel, f, entry.base, 0);
    match verdict
    case Exhausted => reply := Unfinished;
    case Panic => reply := Aborted;
    case Unwind(trace) => reply := Raised(trace);
    case Success =>
      if |e.program.signatures| <= f {
        return Aborted;
      }
      var tys := e.program.signatures[f].results;
      var finals := entry.finals(|tys|, instance.store);
      if finals.None? || |finals.value| != |tys| {
        return Aborted;
      }
      var results: seq<Val> := [];
      for i := 0 to |tys|
        invariant results == RetagAll(finals.value, tys)[..i]
      {
        results := results + [Retag(finals.value[i], tys[i])];
      }
      reply := Answered(results);
  }

  /**
   On either frame store, whatever the program: an answer has the declared types, and an error
   carries a linked backtrace that ends at the entry function, no longer than the depth limit.
   */
  lemma ReplyIsTyped<L, B, S>(e: Env<L, B, S>, entry: Entry<S, B>, fuel: nat, f: nat, params: seq<Val>, store: S)
    requires OffsetsParallel(e.program)
    ensures match RunReply(e, entry, fuel, f, params, store)
      case Answered(results) => f < |e.program.signatures| && AllHaveType(results, e.program.signatures[f].results)
      case Raised(trace) => LinkedTrace(trace, f) && Located(e.program, trace) && |trace| <= Max(1, e.maxDepth)
      case _ => true
  {
    hide NativeCall, LinkedTrace, Located;
    var staged := entry.stage(UntagAll(params), store);
    NativeErrorTrace(e, fuel, f, entry.base, staged);
    var reply := RunReply(e, entry, fuel, f, params, store);
    if reply.Answered? {
      var tys := e.program.signatures[f].results;
      var ws := entry.finals(|tys|, NativeCall(e, fuel, f, entry.base, staged, 0).store).value;
      RetaggedHaveType(ws, tys);
    }
  }

  lemma RetaggedHaveType(ws: seq<Value>, tys: seq<ValType>)
    requires |ws| == |tys|
    ensures AllHaveType(RetagAll(ws, tys), tys)
  {
  }

  /** From some amount of fuel on, the reply is `reply`. */
  ghost predicate Settles<L, B, S>(e: Env<L, B, S>, entry: Entry<S, B>, f: nat, params: seq<Val>, store: S,
    reply: Reply)
    requires OffsetsParallel(e.program)
  {
    exists n: nat :: SettledBy(e, entry, n, f, params, store, reply)
  }

  ghost predicate SettledBy<L, B, S>(
    e: Env<L, B, S>, entry: Entry<S, B>, n: nat, f: nat, params: seq<Val>, store: S, reply: Reply)
    requires OffsetsParallel(e.program)
  {
    forall fuel: nat :: n <= fuel ==> RunReply(e, entry, fuel, f, params, store) == reply
  }

  /** The answer re-tagged by the declared types, or an error with a complete backtrace. */
  ghost predicate Conveys(reply: Reply, answer: Option<seq<Value>>, tys: seq<ValType>, f: nat) {
    if answer.Some? then |answer.value| == |tys| && reply == Answered(RetagAll(answer.value, tys))
    else reply.Raised? && LinkedTrace(reply.trace, f)
  }

  /**
   A call from outside to a lowered program always ends, and its reply conveys the stack
   machine's answer.  It depends on the arguments and on the rest of the instance, and on
   nothing an earlier call left in the register file.
   */
  lemma RunAnswers<W(!new)>(
    e: Env<RegLayout, nat, RegStore<W>>, funcs: seq<Func>, decode: Instr -> FrameOp, rt: Runtime<W>,
    g: nat, params: seq<Val>, rest: W)
    requires ProgramOk(funcs) && Realizes(e, funcs, decode, rt) && g < |funcs| && funcs[g].Function?
    requires |params| == funcs[g].params
    ensures exists reply ::
      && Conveys(reply, StackCall(funcs, rt, Remaining(e.maxDepth, 1), g, UntagAll(params), rest).0,
                 e.program.signatures[g].results, g)
      && forall regs :: Settles(e, RegEntry(), g, params, RegStore(regs, rest), reply)
  {
    hide ProgramOk, StackCall, NativeCall, FuncRealized, Conveys, ReplyOf, RegEntry;
    var n, reply := StagedAnswers(e, funcs, decode, rt, g, params, rest);
    forall regs ensures Settles(e, RegEntry(), g, params, RegStore(regs, rest), reply) {
      StagingForgets(UntagAll(params), regs, rest);
      assert SettledBy(e, RegEntry(), n, g, params, RegStore(regs, rest), reply);
    }
  }

  /** Staging the arguments discards whatever the file held. */
  lemma StagingForgets<W>(args: seq<Value>, regs: seq<Value>, rest: W)
    ensures RegEntry<W>().stage(args, RegStore(regs, rest)) == RegStore(args, rest)
    ensures RegEntry<W>().base == 0
  {
  }

  lemma StagedAnswers<W(!new)>(
    e: Env<RegLayout, nat, RegStore<W>>, funcs: seq<Func>, decode: Instr -> FrameOp, rt: Runtime<W>,
    g: nat, params: seq<Val>, rest: W)
    returns (n: nat, reply: Reply)
    requires ProgramOk(funcs) && Realizes(e, funcs, decode, rt) && g < |funcs| && funcs[g].Function?
    requires |params| == funcs[g].params
    ensures Conveys(reply, StackCall(funcs, rt, Remaining(e.maxDepth, 1), g, UntagAll(params), rest).0,
                    e.program.signatures[g].results, g)
    ensures forall fuel: nat :: n <= fuel ==>
      ReplyOf(e, RegEntry(), g, NativeCall(e, fuel, g, 0, RegStore(UntagAll(params), rest), 0)) == reply
  {
    hide ProgramOk, RegCall, StackCall, NativeCall, FuncRealized, LinkedTrace;
    var staged := RegStore(UntagAll(params), rest);
    RealizedBody(e, funcs, decode, rt, g);
    var r;
    n, r := CallRuns(e, funcs, decode, rt, g, 0, staged, 0);
    assert staged.regs[0..0 + funcs[g].params] == UntagAll(params);
    CallMeets(funcs, rt, Remaining(e.maxDepth, 1), g, 0, staged.regs, rest);
    reply := ReplyOf(e, RegEntry(), g, r);
    assert NativeCall(e, n, g, 0, staged, 0) == r;
    NativeErrorTrace(e, n, g, 0, staged);
    if r.Returned? {
      assert r.store.regs[0..funcs[g].results] == r.store.regs[..funcs[g].results];
    }
  }
}
