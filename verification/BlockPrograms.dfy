/**
 Whole programs of functions with structured control that call one another, as the stack
 machine runs them.  A callee may loop for ever, so a call takes fuel and may be unfinished.
 */
module BlockPrograms {
  import opened Values
  import opened RegisterLayout
  import opened StackCode
  import opened BlockCode
  import opened RegisterLowering
  import opened LoweredBody
  import opened LoweredPrograms
  import opened BlockLowering
  import opened BlockMachine
  import opened BlockCalls
  import opened BlockRuns
  import opened BlockBody
  import opened BlockShape

  /** The rest of the instance, or the mark a callee leaves that was still running when its fuel ran out. */
  datatype World<+W> = Here(world: W) | Lost

  datatype Reply<+W> = Answered(results: seq<Value>, world: W) | Stuck(world: W) | Unfinished

  /** Validated, accepted by the pass, and strands no operand. */
  ghost predicate StructuredOk(funcs: seq<StructuredFunc>, f: StructuredFunc)
    requires f.Function?
  {
    && f.params <= |f.locals| && BodyValid(f.body, |f.locals|, f.results)
    && LowerStructured(f.body, |f.locals|, f.results).Ok? && NoOperandStranded(f.body, |f.locals|, f.results)
    && SeqCallsOk(funcs, f.body)
  }

  ghost predicate StructuredProgramOk(funcs: seq<StructuredFunc>) {
    forall g :: 0 <= g < |funcs| && funcs[g].Function? ==> StructuredOk(funcs, funcs[g])
  }

  ghost function LowerFunc(funcs: seq<StructuredFunc>, g: nat): LoweredBlocks
    requires StructuredProgramOk(funcs) && g < |funcs| && funcs[g].Function?
  {
    assert StructuredOk(funcs, funcs[g]);
    LowerStructured(funcs[g].body, |funcs[g].locals|, funcs[g].results).value
  }

  lemma StructuredFacts(funcs: seq<StructuredFunc>, g: nat)
    requires StructuredProgramOk(funcs) && g < |funcs| && funcs[g].Function?
    ensures var f := funcs[g];
      && StructuredOk(funcs, f)
      && LowerStructured(f.body, |f.locals|, f.results) == Lowered<LoweredBlocks>.Ok(LowerFunc(funcs, g))
  {
    hide StructuredOk, LowerStructured;
    assert StructuredOk(funcs, funcs[g]);
    assert LowerStructured(funcs[g].body, |funcs[g].locals|, funcs[g].results).Ok? by { SplitOk(funcs, funcs[g]); }
  }

  lemma SplitOk(funcs: seq<StructuredFunc>, f: StructuredFunc)
    requires f.Function? && StructuredOk(funcs, f)
    ensures BodyValid(f.body, |f.locals|, f.results) && LowerStructured(f.body, |f.locals|, f.results).Ok?
  {
  }

  // ------------------------------------------------------------------ the stack machine

  /** A call, with at most `d` activations at a time and `fuel` returns to the head of each loop. */
  ghost function CallWithin<W>(
    funcs: seq<StructuredFunc>, rt: Runtime<W>, fuel: nat, d: nat, g: nat, args: seq<Value>, w: W): Reply<W>
    decreases d, 1
  {
    if d == 0 || |funcs| <= g || funcs[g].Import? || |args| != funcs[g].params then Stuck(w)
    else if |funcs[g].locals| < funcs[g].params then Stuck(w)
    else
      var f := funcs[g];
      ReplyOf(RunSeq(Within(funcs, rt, fuel, d), fuel, f.body,
        State(args + Zeros(f.locals[f.params..]), [], Here(w))),
              f.results)
  }

  function ReplyOf<W>(f: Flow<World<W>>, results: nat): Reply<W> {
    match f
    case Stopped(Here(w)) => Stuck(w)
    case Fall(State(_, stack, Here(w))) => TopOf(stack, results, w)
    case Jump(_, State(_, stack, Here(w))) => TopOf(stack, results, w)
    case _ => Unfinished
  }

  function TopOf<W>(stack: seq<Value>, results: nat, w: W): Reply<W> {
    if results <= |stack| then Answered(stack[|stack| - results..], w) else Unfinished
  }

  /** What operators and calls mean inside an activation that is one of at most `d`. */
  ghost function Within<W>(funcs: seq<StructuredFunc>, rt: Runtime<W>, fuel: nat, d: nat): Effects<World<W>>
    requires 0 < d
    decreases d, 0
  {
    Effects(
      (code: int, args: seq<Value>, x: World<W>) => Lifted(rt, code, args, x),
      (g: nat, args: seq<Value>, x: World<W>) =>
        match x
        case Lost => (None, Lost)
        case Here(w) =>
          if Imported(funcs, g) then (rt.host(g, args, w).0, Here(rt.host(g, args, w).1))
          else Delivery(CallWithin(funcs, rt, fuel, d - 1, g, args, w)))
  }

  function Lifted<W>(rt: Runtime<W>, code: int, args: seq<Value>, x: World<W>): (Option<seq<Value>>, World<W>) {
    match x
    case Lost => (None, Lost)
    case Here(w) => (rt.apply(code, args, w).0, Here(rt.apply(code, args, w).1))
  }

  /** What a caller makes of a callee's reply. */
  function Delivery<W>(r: Reply<W>): (Option<seq<Value>>, World<W>) {
    match r
    case Answered(rs, w) => (Some(rs), Here(w))
    case Stuck(w) => (None, Here(w))
    case Unfinished => (None, Lost)
  }

  lemma CallIs<W>(
    funcs: seq<StructuredFunc>, rt: Runtime<W>, fuel: nat, d: nat, g: nat, args: seq<Value>, w: W)
    requires 0 < d && g < |funcs| && funcs[g].Function? && |args| == funcs[g].params <= |funcs[g].locals|
    ensures var f := funcs[g];
      CallWithin(funcs, rt, fuel, d, g, args, w) ==
      ReplyOf(RunSeq(Within(funcs, rt, fuel, d), fuel, f.body,
        State(args + Zeros(f.locals[f.params..]), [], Here(w))),
              f.results)
  {
  }

  // ------------------------------------------------------------------ the lowered functions

  /** A lowered function: its frame fits 16 bits, it ends with its end, and its calls name functions of the program. */
  lemma LoweredFuncShape(funcs: seq<StructuredFunc>, g: nat)
    requires StructuredProgramOk(funcs) && g < |funcs| && funcs[g].Function?
    ensures var f, lowered := funcs[g], LowerFunc(funcs, g);
      && f.params <= |f.locals| == lowered.layout.localsCount <= lowered.layout.registers
      && lowered.layout.localsCount + f.results <= lowered.layout.registers && Width(lowered.layout) <= MAX_U16
      && lowered.code != [] && lowered.code[|lowered.code| - 1] == FMark
      && forall j :: 0 <= j < |lowered.code| ==>
        StepCallsOk(funcs, lowered.code[j]) && CtlShaped(lowered.layout, lowered.code[j], |lowered.code|)
  {
    hide StructuredProgramOk, LowerStructured, NoOperandStranded, BodyPasses, StepCallsOk, OutCallsOk, LowerFunc,
         SeqCallsOk, SeqReady, StructuredOk, BodyValid, CtlShaped;
    StructuredFacts(funcs, g);
    FuncParts(funcs, funcs[g]);
    var f, lowered := funcs[g], LowerFunc(funcs, g);
    var p1, p2 := BodyReady(f.body, |f.locals|, f.results, lowered);
    BodyCallsOk(funcs, f, p1, p2);
    RoomForResults(f, p1, p2);
    ResolvedStepsOk(funcs, lowered, p2);
    StructuredShape(f.body, |f.locals|, f.results, lowered);
  }

  lemma FuncParts(funcs: seq<StructuredFunc>, f: StructuredFunc)
    requires f.Function? && StructuredOk(funcs, f)
    ensures f.params <= |f.locals| && BodyValid(f.body, |f.locals|, f.results) && SeqCallsOk(funcs, f.body)
    ensures LowerStructured(f.body, |f.locals|, f.results).Ok? && NoOperandStranded(f.body, |f.locals|, f.results)
  {
  }

  /** The results, forced into registers, are registers of the frame. */
  lemma RoomForResults(f: StructuredFunc, p1: Pass, p2: Pass)
    requires f.Function? && BodyValid(f.body, |f.locals|, f.results)
    requires BodyPasses(f.body, |f.locals|, f.results) == Lowered<(Pass, Pass)>.Ok((p1, p2))
    requires forall j :: 0 <= j < |p2.sim.stack| ==> p2.sim.stack[j].SReg?
    requires |f.locals| == LayoutOf(p2.sim).localsCount
    ensures |f.locals| + f.results <= LayoutOf(p2.sim).registers
  {
    hide BodyValid, BodyPasses, MaterializeP, Onward, SpillsOk, OriginsOk, StackOk;
    AllRegisters(p2.sim);
  }

  predicate StepCallsOk(funcs: seq<StructuredFunc>, op: FrameCtl) {
    op.FDo? ==> FrameCallsOk(funcs, op.op)
  }

  lemma BodyCallsOk(funcs: seq<StructuredFunc>, f: StructuredFunc, p1: Pass, p2: Pass)
    requires f.Function? && BodyValid(f.body, |f.locals|, f.results) && SeqCallsOk(funcs, f.body)
    requires BodyPasses(f.body, |f.locals|, f.results) == Lowered<(Pass, Pass)>.Ok((p1, p2))
    ensures OutCallsOk(funcs, PatchAll(p2.out, 0, |p2.out|) + [Mark])
  {
    hide LowerSeq, MaterializeP, Lowers, Onward, OutCallsOk, SeqCallsOk, HeightAfterSeq, PassOk;
    var labels := FuncLabels(f.results);
    StartReady(|f.locals|, f.results);
    NothingCalled(funcs, |f.locals|);
    EverySeqCallsOk(funcs, StartPass(|f.locals|), labels, [ToLabel(0)], f.body);
    MaterializePCallsOk(funcs, p1, labels, f.results);
    PatchedCallsOk(funcs, p2.out, 0, |p2.out|);
  }

  lemma NothingCalled(funcs: seq<StructuredFunc>, locals: nat)
    ensures OutCallsOk(funcs, StartPass(locals).out)
  {
  }

  lemma ResolvedStepsOk(funcs: seq<StructuredFunc>, lowered: LoweredBlocks, p2: Pass)
    requires OutCallsOk(funcs, PatchAll(p2.out, 0, |p2.out|) + [Mark])
    requires lowered.code == ResolveBody(lowered.layout, PatchAll(p2.out, 0, |p2.out|) + [Mark])
    ensures forall j :: 0 <= j < |lowered.code| ==> StepCallsOk(funcs, lowered.code[j])
    ensures lowered.code != [] && lowered.code[|lowered.code| - 1] == FMark
  {
    var out := PatchAll(p2.out, 0, |p2.out|) + [Mark];
    forall j | 0 <= j < |lowered.code| ensures StepCallsOk(funcs, lowered.code[j]) {
      assert EmittedOk(funcs, out[j]) && lowered.code[j] == ResolveCtl(lowered.layout, [], out[j]);
    }
    assert out[|out| - 1] == Mark;
  }
}
