/**
 The register machine's frame store (`tracewasm-core/src/runtime/reg.rs`): one file of slots
 shared by the whole call tree, in which every frame has its own consecutive regions.
 */
module RegisterFrame {
  import opened Values
  import opened Drivers
  import opened FrameConvention
  import opened RegisterLayout

  function MaxOf(ends: seq<nat>): nat {
    if ends == [] then 0
    else
      var m := MaxOf(ends[..|ends| - 1]);
      if m < ends[|ends| - 1] then ends[|ends| - 1] else m
  }

  // ------------------------------------------------------------------ the store itself

  /** `RegFrame`: the file, and a record of where every frame entered since `reset` ended. */
  class RegFrame {
    var registers: seq<Value>
    ghost var ends: seq<nat>

    /** The file is exactly as long as the highest frame entered since the last reset. */
    ghost predicate Valid()
      reads this
    {
      |registers| == MaxOf(ends)
    }

    constructor ()
      ensures Valid() && registers == []
    {
      registers, ends := [], [];
    }

    method Reset()
      modifies this
      ensures Valid() && registers == [] && ends == []
    {
      registers, ends := [], [];
    }

    /** Pushes the entry function's arguments; they land at slot 0 because the file is empty. */
    method SetInitialParams(params: seq<Val>)
      requires Valid()
      modifies this
      ensures Valid() && registers == old(registers) + UntagAll(params)
      ensures ends == old(ends) + [|registers|]
    {
      ghost var before := registers;
      for i := 0 to |params|
        invariant registers == before + UntagAll(params)[..i] && ends == old(ends)
      {
        registers := registers + [Untag(params[i])];
      }
      ends := ends + [|registers|];
    }

    /** Sizes the file for the callee, zeroes its declared locals and writes its constant pool. */
    method EnterFrame(params: nat, locals: seq<ValType>, base: nat, l: RegLayout)
      requires Valid() && params <= |locals| <= l.registers
      modifies this
      ensures Valid()
      ensures registers == EnterRegs(old(registers), params, locals, base, l)
      ensures ends == old(ends) + [base + Width(l)]
    {
      if |registers| < base + Width(l) {
        registers := registers + seq(base + Width(l) - |registers|, _ => 0);
      }
      assert registers == Grown(old(registers), base + Width(l));
      ZeroLocals(params, locals, base);
      WriteConsts(base + |locals|, l.consts);
      ends := ends + [base + Width(l)];
    }

    /** The declared locals start at zero; the slots hold whatever an earlier activation left. */
    method ZeroLocals(params: nat, locals: seq<ValType>, base: nat)
      requires params <= |locals| && base + |locals| <= |registers|
      modifies `registers
      ensures registers == Overwrite(old(registers), base + params, Zeros(locals[params..]))
    {
      hide Patched;
      ghost var zeros, before := Zeros(locals[params..]), registers;
      PatchNone(before, base + params, zeros);
      for i := 0 to |locals| - params
        invariant registers == Patched(before, base + params, zeros, i)
      {
        PatchOne(before, base + params, zeros, i);
        registers := registers[base + params + i := ZeroOf(locals[i + params])];
      }
    }

    method WriteConsts(start: nat, consts: seq<Val>)
      requires start + |consts| <= |registers|
      modifies `registers
      ensures registers == Overwrite(old(registers), start, UntagAll(consts))
    {
      hide Patched;
      ghost var pool, before := UntagAll(consts), registers;
      PatchNone(before, start, pool);
      for i := 0 to |consts|
        invariant registers == Patched(before, start, pool, i)
      {
        PatchOne(before, start, pool, i);
        registers := registers[start + i := Untag(consts[i])];
      }
    }

    /** Copies the results down to the frame base, through a temporary because the ranges may overlap. */
    method ExitFrame(results: nat, base: nat, l: RegLayout)
      requires Valid() && base + OperandStart(l) + results <= |registers|
      modifies this
      ensures Valid() && ends == old(ends)
      ensures registers == ExitRegs(old(registers), results, base, l)
    {
      var temp: seq<Value> := [];
      var from := base + OperandStart(l);
      for i := 0 to results
        invariant temp == registers[from..from + i] && registers == old(registers) && ends == old(ends)
      {
        temp := temp + [registers[from + i]];
      }
      PatchNone(registers, base, temp);
      hide Patched;
      for i := 0 to results
        invariant registers == Patched(old(registers), base, temp, i) && ends == old(ends)
      {
        PatchOne(old(registers), base, temp, i);
        registers := registers[base + i := temp[i]];
      }
      ExitIsPatched(old(registers), results, base, l);
    }

    method GetParamsForImportCall(params: nat, base: nat) returns (ws: seq<Value>)
      requires base + params <= |registers|
      ensures ws == registers[base..base + params]
    {
      ws := [];
      for i := 0 to params
        invariant ws == registers[base..base + i]
      {
        ws := ws + [registers[base + i]];
      }
    }

    method SetResultsFromImportCall(results: seq<Val>, base: nat)
      requires Valid() && base + |results| <= |registers|
      modifies this
      ensures Valid() && ends == old(ends)
      ensures registers == Overwrite(old(registers), base, UntagAll(results))
    {
      hide Patched;
      ghost var ws, before := UntagAll(results), registers;
      PatchNone(before, base, ws);
      for i := 0 to |results|
        invariant registers == Patched(before, base, ws, i) && ends == old(ends)
      {
        PatchOne(before, base, ws, i);
        registers := registers[base + i := Untag(results[i])];
      }
    }

    method GetFinalResults(results: nat) returns (ws: seq<Value>)
      requires results <= |registers|
      ensures ws == registers[..results]
    {
      ws := [];
      for i := 0 to results
        invariant ws == registers[..i]
      {
        ws := ws + [registers[i]];
      }
    }
  }

  // ------------------------------------------------------------------ the convention

  /** A store in the drivers' sense: the register file, and whatever else instructions touch. */
  datatype RegStore<+W> = RegStore(regs: seq<Value>, rest: W)

  predicate RegWellFormed(body: Body<RegLayout>, ty: FuncType) {
    && |ty.params| <= |body.locals| == body.layout.localsCount
    && body.layout.localsCount + |ty.results| <= body.layout.registers
  }

  /** The register file as the convention sees it; an intact frame still holds its constant pool. */
  function RegView<W>(): View<RegLayout, nat, RegStore<W>> {
    View(
      (s: RegStore<W>) => s.regs,
      (s: RegStore<W>) => |s.regs|,
      (b: nat) => b,
      (body: Body<RegLayout>, b: nat) => b + OperandStart(body.layout),
      (body: Body<RegLayout>, b: nat, s: RegStore<W>) => RegIntact(body.layout, b, s.regs),
      (ty: FuncType, b: nat, s: RegStore<W>) => b + |ty.params| <= |s.regs|,
      (body: Body<RegLayout>, n: nat, b: nat, s: RegStore<W>) => b + OperandStart(body.layout) + n <= |s.regs|,
      (body: Body<RegLayout>, n: nat, b: nat, s: RegStore<W>) =>
        var from := b + OperandStart(body.layout);
        if from + n <= |s.regs| then s.regs[from..from + n] else [],
      (end: nat, s: RegStore<W>) => end <= |s.regs|,
      (body: Body<RegLayout>, ty: FuncType) => RegWellFormed(body, ty))
  }

  /** What the view says of a frame, in terms of the file. */
  lemma RegViewIs<W>(body: Body<RegLayout>, ty: FuncType, n: nat, b: nat, s: RegStore<W>)
    ensures var v := RegView<W>();
      && v.slots(s) == s.regs && v.reserved(s) == |s.regs| && v.baseOf(b) == b
      && v.operandBase(body, b) == b + OperandStart(body.layout)
      && v.intact(body, b, s) == RegIntact(body.layout, b, s.regs)
      && v.staged(ty, b, s) == (b + |ty.params| <= |s.regs|)
      && v.wellFormed(body, ty) == RegWellFormed(body, ty)
      && (forall end: nat :: v.endsAt(end, s) == (end <= |s.regs|))
      && v.ready(body, n, b, s) == (b + OperandStart(body.layout) + n <= |s.regs|)
      && (v.ready(body, n, b, s) ==>
        v.results(body, n, b, s) == s.regs[b + OperandStart(body.layout)..b + OperandStart(body.layout) + n])
  {
    hide RegIntact;
  }

  /** The register machine: any instruction set over this store. */
  function RegMachine<W>(execute: (Instr, RegLayout, nat, RegStore<W>) -> Exec<nat, RegStore<W>>)
    : Machine<RegLayout, nat, RegStore<W>>
  {
    Machine(
      execute,
      (n: nat, tys: seq<ValType>, b: nat, l: RegLayout, s: RegStore<W>) =>
        (b, if n <= |tys| <= l.registers then s.(regs := EnterRegs(s.regs, n, tys, b, l)) else s),
      (n: nat, b: nat, l: RegLayout, s: RegStore<W>) =>
        if b + OperandStart(l) + n <= |s.regs| then s.(regs := ExitRegs(s.regs, n, b, l)) else s)
  }

  lemma RegStable<W>(body: Body<RegLayout>, b: nat, s: RegStore<W>, t: RegStore<W>)
    ensures StableLaw(RegView<W>(), body, b, s, t)
  {
    if RegIntact(body.layout, b, s.regs) && Keeps(RegView<W>(), b + OperandStart(body.layout), s, t) {
      IntactBelow(body.layout, b, b + OperandStart(body.layout), s.regs, t.regs);
    }
  }

  /** What the convention asks of two files, in terms of the files. */
  lemma KeptRegs<W>(limit: nat, s: RegStore<W>, t: RegStore<W>)
    requires limit <= |s.regs| <= |t.regs| && t.regs[..limit] == s.regs[..limit]
    ensures Keeps(RegView<W>(), limit, s, t)
  {
  }

  lemma WholeFrame<W>(body: Body<RegLayout>, b: nat, s: RegStore<W>)
    requires RegIntact(body.layout, b, s.regs) && body.layout.localsCount <= body.layout.registers
    ensures FrameOk(RegView<W>(), body, b, s)
  {
  }

  lemma MachineEnters<W>(
    execute: (Instr, RegLayout, nat, RegStore<W>) -> Exec<nat, RegStore<W>>, n: nat, tys: seq<ValType>, b: nat,
    l: RegLayout,
    s: RegStore<W>)
    requires n <= |tys| <= l.registers
    ensures RegMachine(execute).enter(n, tys, b, l, s) == (b, s.(regs := EnterRegs(s.regs, n, tys, b, l)))
  {
  }

  lemma RegExits<W>(
    execute: (Instr, RegLayout, nat, RegStore<W>) -> Exec<nat, RegStore<W>>, body: Body<RegLayout>, ty: FuncType,
    b: nat,
    s: RegStore<W>)
    ensures ExitLaw(RegView<W>(), RegMachine(execute), body, ty, b, s)
  {
    hide ExitRegs, Keeps, RegIntact, RegView;
    var n := |ty.results|;
    RegViewIs(body, ty, n, b, s);
    if b + OperandStart(body.layout) + n <= |s.regs| {
      ExitRegsShape(s.regs, n, b, body.layout);
      var t := s.(regs := ExitRegs(s.regs, n, b, body.layout));
      RegViewIs(body, ty, n, b, t);
      KeptRegs(b, s, t);
    }
  }

  lemma RegEnters<W>(
    execute: (Instr, RegLayout, nat, RegStore<W>) -> Exec<nat, RegStore<W>>, body: Body<RegLayout>, ty: FuncType,
    b: nat,
    s: RegStore<W>)
    ensures EnterLaw(RegView<W>(), RegMachine(execute), body, ty, b, s)
  {
    hide EnterRegs, Keeps, FrameOk, RegIntact, RegMachine, RegView;
    RegViewIs(body, ty, 0, b, s);
    if RegWellFormed(body, ty) && b + |ty.params| <= |s.regs| {
      EnterRegsShape(s.regs, |ty.params|, body.locals, b, body.layout);
      MachineEnters(execute, |ty.params|, body.locals, b, body.layout, s);
      var t := s.(regs := EnterRegs(s.regs, |ty.params|, body.locals, b, body.layout));
      RegViewIs(body, ty, 0, b, t);
      KeptRegs(b + |ty.params|, s, t);
      WholeFrame(body, b, t);
    }
  }

  /** The register file implements the calling convention, whatever its instructions do. */
  lemma RegImplements<W(!new)>(execute: (Instr, RegLayout, nat, RegStore<W>) -> Exec<nat, RegStore<W>>)
    ensures Implements(RegView<W>(), RegMachine(execute))
  {
    var v, m := RegView<W>(), RegMachine(execute);
    forall body, ty, b, s ensures EnterLaw(v, m, body, ty, b, s) {
      RegEnters(execute, body, ty, b, s);
    }
    forall body, ty, b, s ensures ExitLaw(v, m, body, ty, b, s) {
      RegExits(execute, body, ty, b, s);
    }
    forall body, b, s, t ensures StableLaw(v, body, b, s, t) {
      RegStable(body, b, s, t);
    }
  }
}

/** What the layout of the register file buys: no tree of calls reaches what a caller still needs. */
module RegisterCallTrees {
  import opened Values
  import opened Drivers
  import opened DriverAgreement
  import opened DriverTraces
  import opened FrameConvention
  import opened FrameInvariant
  import opened RegisterFrame
  import opened RegisterLayout

  /** Slot `i` belongs to the locals, spills or operand registers of the frame at `b`. */
  predicate Writable(l: RegLayout, b: nat, i: int) {
    b <= i < b + l.localsCount || b + l.localsCount + |l.consts| <= i < b + Width(l)
  }

  /**
   One register instruction: it writes only its own writable slots, calls from its operand region
   and branches within its body.
   */
  ghost predicate RegStepOk<W>(e: Env<RegLayout, nat, RegStore<W>>, f: nat, pc: nat, b: nat, s: RegStore<W>)
    requires IsLocal(e.program, f) && pc < |BodyOf(e.program, f).instructions|
  {
    var body := BodyOf(e.program, f);
    var l := body.layout;
    b + Width(l) <= |s.regs| ==>
      var x := e.machine.execute(body.instructions[pc], l, b, s);
      && |x.store.regs| == |s.regs|
      && (forall i :: 0 <= i < |s.regs| && x.store.regs[i] != s.regs[i] ==> Writable(l, b, i))
      && (ReportsCall(x) && IsLocal(e.program, x.step.callee) ==>
        b + OperandStart(l) <= x.step.base
        && x.step.base + |e.program.signatures[x.step.callee].params| <= b + Width(l))
      && (ReportsCall(x) ==> b + OperandStart(l) <= x.step.base)
      && (x.Ok? && x.step.JumpTo? ==> x.step.target < |body.instructions|)
  }

  /** A program lowered for the register machine, with the instructions it runs on. */
  ghost predicate RegDisciplined<W(!new)>(e: Env<RegLayout, nat, RegStore<W>>) {
    && (exists x :: e.machine == RegMachine(x))
    && NeverCallsLast(e)
    && (forall f: nat :: IsLocal(e.program, f) ==> RegWellFormed(BodyOf(e.program, f), e.program.signatures[f]))
    && forall f: nat, pc: nat, b: nat, s :: IsLocal(e.program, f) && pc < |BodyOf(e.program, f).instructions| ==>
        RegStepOk(e, f, pc, b, s)
  }

  /** An instruction of the register machine names its slots, so every state will do. */
  function AnyState<W>(): Known<nat, RegStore<W>> {
    (f: nat, pc: nat, b: nat, s: RegStore<W>) => true
  }

  lemma AlwaysResumes<W(!new)>(f: nat, pc: nat, b: nat, base: nat, n: nat, s: RegStore<W>)
    ensures Resumes(RegView<W>(), AnyState<W>(), f, pc, b, base, n, s)
  {
    hide RegView, Keeps;
  }

  lemma RegStepDisciplined<W(!new)>(e: Env<RegLayout, nat, RegStore<W>>, f: nat, pc: nat, b: nat, s: RegStore<W>)
    requires IsLocal(e.program, f) && pc < |BodyOf(e.program, f).instructions|
    requires RegWellFormed(BodyOf(e.program, f), e.program.signatures[f]) && RegStepOk(e, f, pc, b, s)
    ensures StepDisciplined(RegView<W>(), e, AnyState(), f, pc, b, s)
  {
    hide RegView, AnyState, RegIntact, StepLands, Keeps, Writable;
    var body := BodyOf(e.program, f);
    var x := e.machine.execute(body.instructions[pc], body.layout, b, s);
    RegViewIs(body, e.program.signatures[f], 0, b, s);
    if FrameOk(RegView<W>(), body, b, s) {
      FrameInFile(body, b, s);
      OwnWritesOnly(body.layout, b, s.regs, x.store.regs);
      KeptRegs(b, s, x.store);
      WholeFrame(body, b, x.store);
      if x.Ok? {
        RegStepLands(e, f, pc, b, x.step, x.store);
      }
    }
  }

  /** Where a register instruction leads: its frame has room for the results, a callee's arguments are in the file. */
  lemma RegStepLands<W(!new)>(
    e: Env<RegLayout, nat, RegStore<W>>, f: nat, pc: nat, b: nat, step: Step<nat>, t: RegStore<W>)
    requires IsLocal(e.program, f) && RegWellFormed(BodyOf(e.program, f), e.program.signatures[f])
    requires pc < |BodyOf(e.program, f).instructions|
    requires step.JumpTo? ==> step.target < |BodyOf(e.program, f).instructions|
    requires b + Width(BodyOf(e.program, f).layout) <= |t.regs|
    requires step.Call? ==> b + OperandStart(BodyOf(e.program, f).layout) <= step.base
    requires step.Call? && IsLocal(e.program, step.callee) ==>
      step.base + |e.program.signatures[step.callee].params| <= b + Width(BodyOf(e.program, f).layout)
    ensures StepLands(RegView<W>(), e, AnyState(), f, pc, b, step, t)
  {
    hide RegView, RegIntact, Resumes;
    var body := BodyOf(e.program, f);
    RegViewIs(body, e.program.signatures[f], ResultCount(e.program, f), b, t);
    if step.Call? && IsLocal(e.program, step.callee) {
      RegViewIs(body, e.program.signatures[step.callee], 0, step.base, t);
      AlwaysResumes(f, pc, b, RegView<W>().baseOf(step.base), ResultCount(e.program, step.callee), t);
    } else if step.Call? {
      RegViewIs(body, e.program.signatures[f], 0, step.base, t);
    }
  }

  lemma OwnWritesOnly(l: RegLayout, b: nat, regs: seq<Value>, regs': seq<Value>)
    requires RegIntact(l, b, regs) && |regs'| == |regs|
    requires forall i :: 0 <= i < |regs| && regs'[i] != regs[i] ==> Writable(l, b, i)
    ensures regs'[..b] == regs[..b] && RegIntact(l, b, regs')
  {
    var lo, hi := b + l.localsCount, b + l.localsCount + |l.consts|;
    forall i | 0 <= i < |regs| && !Writable(l, b, i)
      ensures regs'[i] == regs[i]
    {
    }
    assert regs'[lo..hi] == regs[lo..hi];
  }

  lemma FitsView<W>(body: Body<RegLayout>, ty: FuncType)
    ensures RegView<W>().wellFormed(body, ty) == RegWellFormed(body, ty)
  {
  }

  lemma RegDisciplineHolds<W(!new)>(e: Env<RegLayout, nat, RegStore<W>>)
    requires RegDisciplined(e)
    ensures Implements(RegView<W>(), e.machine) && Disciplined(RegView<W>(), e, AnyState())
  {
    hide StepDisciplined, RegStepOk, RegView, Implements, RegWellFormed;
    var x :| e.machine == RegMachine(x);
    RegImplements(x);
    var v := RegView<W>();
    forall f: nat, pc: nat, b: nat, s | IsLocal(e.program, f) && pc < |BodyOf(e.program, f).instructions|
      ensures StepDisciplined(v, e, AnyState(), f, pc, b, s)
    {
      RegStepDisciplined(e, f, pc, b, s);
    }
    forall f: nat | IsLocal(e.program, f)
      ensures v.wellFormed(BodyOf(e.program, f), e.program.signatures[f])
    {
      FitsView<W>(BodyOf(e.program, f), e.program.signatures[f]);
    }
  }

  /**
   A call that returns, whatever tree of calls it made, changed nothing below its base, never
   shortened the file, and left at its base what its own activation ended with in its first
   operand registers.
   */
  lemma CallTreeKeepsFile<W(!new)>(e: Env<RegLayout, nat, RegStore<W>>, fuel: nat, g: nat, base: nat, s: RegStore<W>,
    depth: nat)
    requires OffsetsParallel(e.program) && RegDisciplined(e) && IsLocal(e.program, g)
    requires base + |e.program.signatures[g].params| <= |s.regs|
    ensures var r, end := NativeCall(e, fuel, g, base, s, depth), CallEnding(e, fuel, g, base, s, depth);
      var n, from := ResultCount(e.program, g), base + OperandStart(BodyOf(e.program, g).layout);
      r.Returned? ==>
        && |s.regs| <= |r.store.regs| && base + n <= |r.store.regs|
        && r.store.regs[..base] == s.regs[..base]
        && end.Some? && from + n <= |end.value.store.regs|
        && r.store.regs[base..base + n] == end.value.store.regs[from..from + n]
  {
    hide NativeCall, CallEnding, CallDone, RegDisciplined, Implements, Disciplined, RegView;
    RegDisciplineHolds(e);
    RegStaged<W>(e.program.signatures[g], base, s);
    CallKeeps(RegView<W>(), e, AnyState(), fuel, g, base, s, depth);
    var r := NativeCall(e, fuel, g, base, s, depth);
    if r.Returned? {
      RegDone(e, g, base, CallEnding(e, fuel, g, base, s, depth).value, s, r.store);
    }
  }

  lemma RegStaged<W>(ty: FuncType, base: nat, s: RegStore<W>)
    requires base + |ty.params| <= |s.regs|
    ensures RegView<W>().staged(ty, base, s)
  {
    hide RegIntact;
  }

  /** A finished call, in terms of the file. */
  lemma RegDone<W>(
    e: Env<RegLayout, nat, RegStore<W>>, g: nat, base: nat, end: Ending<nat, RegStore<W>>, s: RegStore<W>,
    t: RegStore<W>)
    requires IsLocal(e.program, g) && CallDone(RegView<W>(), e, g, end, s, t)
    requires RegView<W>().baseOf(end.base) == RegView<W>().baseOf(base)
    ensures var n, from := ResultCount(e.program, g), base + OperandStart(BodyOf(e.program, g).layout);
      && |s.regs| <= |t.regs| && base + n <= |t.regs| && t.regs[..base] == s.regs[..base]
      && from + n <= |end.store.regs| && t.regs[base..base + n] == end.store.regs[from..from + n]
  {
    hide RegIntact, FrameOk, RegMachine, RegView;
    var n, body := ResultCount(e.program, g), BodyOf(e.program, g);
    RegViewIs(body, e.program.signatures[g], n, base, s);
    RegViewIs(body, e.program.signatures[g], n, base, t);
    RegViewIs(body, e.program.signatures[g], n, end.base, end.store);
  }

  /**
   Across a call made by a live activation of `f` at `b`, however deep it goes, the locals,
   constants and spills of that activation, and of every caller below it, are untouched.
   */
  lemma CallerSurvivesCall<W(!new)>(
    e: Env<RegLayout, nat, RegStore<W>>, fuel: nat, f: nat, b: nat, g: nat, base: nat, s: RegStore<W>, depth: nat)
    requires OffsetsParallel(e.program) && RegDisciplined(e) && IsLocal(e.program, f) && IsLocal(e.program, g)
    requires RegIntact(BodyOf(e.program, f).layout, b, s.regs)
    requires b + OperandStart(BodyOf(e.program, f).layout) <= base
    requires base + |e.program.signatures[g].params| <= |s.regs|
    ensures var r := NativeCall(e, fuel, g, base, s, depth);
      var limit := b + OperandStart(BodyOf(e.program, f).layout);
      r.Returned? ==>
        && limit <= |r.store.regs| && r.store.regs[..limit] == s.regs[..limit]
        && RegIntact(BodyOf(e.program, f).layout, b, r.store.regs)
  {
    hide NativeCall, RegDisciplined;
    CallTreeKeepsFile(e, fuel, g, base, s, depth);
    var r := NativeCall(e, fuel, g, base, s, depth);
    if r.Returned? {
      IntactBelow(BodyOf(e.program, f).layout, b, base, s.regs, r.store.regs);
    }
  }

  lemma WholeInFile<W>(e: Env<RegLayout, nat, RegStore<W>>, c: Config<RegLayout, nat, RegStore<W>>, i: nat)
    requires AllWhole(RegView<W>(), e, c) && i <= |c.frames|
    ensures IsLocal(e.program, FuncAt(c, i)) && RegIntact(BodyOf(e.program, FuncAt(c, i)).layout, BaseAt(c, i),
      c.store.regs)
    ensures i < |c.frames| ==>
      BaseAt(c, i) + OperandStart(BodyOf(e.program, FuncAt(c, i)).layout) <= BaseAt(c, i + 1)
  {
    hide RegIntact, RegView;
    assert WholeAt(RegView<W>(), e, c, i, c.store);
    RegViewIs(BodyOf(e.program, FuncAt(c, i)), FuncType([], []), 0, BaseAt(c, i), c.store);
    if i < |c.frames| {
      RegViewIs(BodyOf(e.program, FuncAt(c, i)), FuncType([], []), 0, BaseAt(c, i + 1), c.store);
      assert OperandBaseAt(RegView<W>(), e, c, i) <= RegView<W>().baseOf(BaseAt(c, i + 1));
    }
  }

  /**
   In every state of every run, each activation on the call stack has its whole frame in the
   file and its constant pool in place.
   */
  lemma ConstantsInPlace<W(!new)>(e: Env<RegLayout, nat, RegStore<W>>, n: nat, f: nat, s: RegStore<W>, i: nat)
    requires OffsetsParallel(e.program) && RegDisciplined(e) && IsLocal(e.program, f)
    requires |e.program.signatures[f].params| <= |s.regs|
    requires FrameDriver(e, n, f, 0, s).Running? && i <= |FrameDriver(e, n, f, 0, s).config.frames|
    ensures var c := FrameDriver(e, n, f, 0, s).config;
      && IsLocal(e.program, FuncAt(c, i))
      && RegIntact(BodyOf(e.program, FuncAt(c, i)).layout, BaseAt(c, i), c.store.regs)
      && (i < |c.frames| ==>
        BaseAt(c, i) + OperandStart(BodyOf(e.program, FuncAt(c, i)).layout) <= BaseAt(c, i + 1))
  {
    hide FrameRun, RunOn, FrameStep, RegDisciplined, Implements, Disciplined, AllWhole, RegIntact, CallChain, RegView;
    RegStaged<W>(e.program.signatures[f], 0, s);
    RegDisciplineHolds(e);
    var v := RegView<W>();
    DriverKeepsWhole(v, e, AnyState(), n, f, 0, s);
    var c := FrameDriver(e, n, f, 0, s).config;
    WholeInFile(e, c, i);
  }

  // ------------------------------------------------------------------ how long the file is

  function StoreOf<L, B, S>(r: Run<L, B, S>): S {
    match r
    case Running(c) => c.store
    case Finished(s) => s
    case Failed(_, s) => s
    case Crashed(s) => s
  }

  /** Where the frame that this iteration entered ends, if it entered one. */
  function EndIfEntered<W>(c: Config<RegLayout, nat, RegStore<W>>, r: Run<RegLayout, nat, RegStore<W>>): seq<nat> {
    if r.Running? && |c.frames| < |r.config.frames| then [r.config.base + Width(r.config.layout)] else []
  }

  /** The ends of the frames entered in up to `n` iterations from `c`, in order. */
  ghost function EndsEntered<W>(
    e: Env<RegLayout, nat, RegStore<W>>, entry: nat, results: nat, n: nat,
    c: Config<RegLayout, nat, RegStore<W>>): seq<nat>
    requires OffsetsParallel(e.program) && ConfigParallel(c)
  {
    if n == 0 then []
    else
      StepKeepsParallel(e, entry, results, c);
      var r := FrameStep(e, entry, results, c);
      EndIfEntered(c, r) + if r.Running? then EndsEntered(e, entry, results, n - 1, r.config) else []
  }

  lemma {:induction false} MaxOfBoth(xs: seq<nat>, ys: seq<nat>)
    ensures MaxOf(xs + ys) == Max(MaxOf(xs), MaxOf(ys))
    decreases |ys|
  {
    if ys == [] {
      assert xs + ys == xs;
    } else {
      assert (xs + ys)[..|xs + ys| - 1] == xs + ys[..|ys| - 1];
      MaxOfBoth(xs, ys[..|ys| - 1]);
    }
  }

  /** Leaving a frame gives no slot back. */
  lemma AdvanceKeepsLength<W(!new)>(
    e: Env<RegLayout, nat, RegStore<W>>, results: nat, c: Config<RegLayout, nat, RegStore<W>>, pc: nat, s: RegStore<W>)
    requires RegDisciplined(e)
    ensures var r := FrameAdvance(e, results, c.(pc := pc, store := s));
      |StoreOf(r).regs| == |s.regs| && EndIfEntered(c, r) == []
  {
    hide ExitRegs, RegStepOk;
    var x :| e.machine == RegMachine(x);
  }

  /** The running frame lies in the file, so its instruction keeps the file's length. */
  lemma ExecuteKeepsLength<W(!new)>(
    e: Env<RegLayout, nat, RegStore<W>>, entry: nat, c: Config<RegLayout, nat, RegStore<W>>)
    requires RegDisciplined(e) && Sound(RegView<W>(), e, AnyState(), entry, c) && c.pc < |c.instructions|
    ensures |e.machine.execute(c.instructions[c.pc], c.layout, c.base, c.store).store.regs| == |c.store.regs|
  {
    hide Writable, RegView, RegIntact;
    assert WholeAt(RegView<W>(), e, c, |c.frames|, c.store);
    FrameInFile(BodyOf(e.program, c.func), c.base, c.store);
    assert RegStepOk(e, c.func, c.pc, c.base, c.store);
  }

  lemma FrameInFile<W>(body: Body<RegLayout>, b: nat, s: RegStore<W>)
    requires FrameOk(RegView<W>(), body, b, s)
    ensures b + Width(body.layout) <= |s.regs|
  {
    hide RegView;
    RegViewIs(body, FuncType([], []), 0, b, s);
  }

  /** An instruction of a live frame changes the length of the file only by entering a callee's frame. */
  lemma StepLength<W(!new)>(e: Env<RegLayout, nat, RegStore<W>>, entry: nat, c: Config<RegLayout, nat, RegStore<W>>)
    requires OffsetsParallel(e.program) && RegDisciplined(e) && IsLocal(e.program, entry)
    requires Sound(RegView<W>(), e, AnyState(), entry, c) && ConfigParallel(c)
    ensures var r := FrameStep(e, entry, ResultCount(e.program, entry), c);
      |StoreOf(r).regs| == Max(|c.store.regs|, MaxOf(EndIfEntered(c, r)))
  {
    hide RegDisciplined, FrameAdvance, FrameTrace, Sound, EnterConfig, RegView;
    if c.pc < |c.instructions| {
      ExecuteKeepsLength(e, entry, c);
      var x := e.machine.execute(c.instructions[c.pc], c.layout, c.base, c.store);
      if x.Ok? && !x.step.Call? {
        AdvanceKeepsLength(e, ResultCount(e.program, entry), c, if x.step.Next? then c.pc + 1 else x.step.target,
          x.store);
      } else if x.Ok? {
        CallLength(e, entry, c, x.step.callee, x.step.base, x.step.table, x.store);
      }
    }
  }

  lemma CallLength<W(!new)>(
    e: Env<RegLayout, nat, RegStore<W>>, entry: nat, c: Config<RegLayout, nat, RegStore<W>>, g: nat, base: nat,
    table: Option<nat>,
    s: RegStore<W>)
    requires RegDisciplined(e) && IsLocal(e.program, entry) && ConfigParallel(c) && c.pc < |c.instructions|
    requires e.machine.execute(c.instructions[c.pc], c.layout, c.base, c.store) == Ok(Call(g, base, table), s)
    ensures var r := FrameStep(e, entry, ResultCount(e.program, entry), c);
      |StoreOf(r).regs| == Max(|s.regs|, MaxOf(EndIfEntered(c, r)))
  {
    hide RegDisciplined, FrameTrace, EnterConfig;
    if |c.frames| + 1 < e.maxDepth && IsLocal(e.program, g) {
      var frame := Frame(c.func, c.instructions, c.pc, c.base, c.layout, c.offsets, ResultCount(e.program, g), g,
        table);
      EnterLength(e, c.frames + [frame], g, base, s);
      MaxOfOne(base + Width(BodyOf(e.program, g).layout));
    }
  }

  lemma MaxOfOne(end: nat)
    ensures MaxOf([end]) == end
  {
  }

  lemma EnterLength<W(!new)>(
    e: Env<RegLayout, nat, RegStore<W>>, frames: seq<Frame<RegLayout, nat>>, g: nat, base: nat, s: RegStore<W>)
    requires RegDisciplined(e) && IsLocal(e.program, g)
    ensures var c := EnterConfig(e, frames, g, base, s);
      && c.frames == frames && c.base == base && c.layout == BodyOf(e.program, g).layout
      && |c.store.regs| == Max(|s.regs|, base + Width(c.layout))
  {
    hide RegStepOk;
    var x :| e.machine == RegMachine(x);
    var body := BodyOf(e.program, g);
    MachineEnters(x, |e.program.signatures[g].params|, body.locals, base, body.layout, s);
  }

  lemma {:induction false} RunLength<W(!new)>(
    e: Env<RegLayout, nat, RegStore<W>>, entry: nat, n: nat, c: Config<RegLayout, nat, RegStore<W>>)
    requires OffsetsParallel(e.program) && RegDisciplined(e) && IsLocal(e.program, entry)
    requires Sound(RegView<W>(), e, AnyState(), entry, c) && ConfigParallel(c)
    ensures var results := ResultCount(e.program, entry);
      |StoreOf(FrameRun(e, entry, results, n, c)).regs| == Max(|c.store.regs|,
        MaxOf(EndsEntered(e, entry, results, n, c)))
    decreases n
  {
    hide RegDisciplined, Sound, FrameStep, Implements, Disciplined, RegView;
    if n != 0 {
      var results := ResultCount(e.program, entry);
      var r := FrameStep(e, entry, results, c);
      StepKeepsParallel(e, entry, results, c);
      StepLength(e, entry, c);
      if r.Running? {
        RegDisciplineHolds(e);
        StepKeepsSound(RegView<W>(), e, AnyState(), entry, c);
        RunLength(e, entry, n - 1, r.config);
        MaxOfBoth(EndIfEntered(c, r), EndsEntered(e, entry, results, n - 1, r.config));
      } else {
        assert EndIfEntered(c, r) + [] == EndIfEntered(c, r);
      }
    }
  }

  /**
   The high-water mark of a run: whatever calls a run makes and however it ends, the file is
   exactly as long as the highest frame entered so far, the file it started with included.
   */
  lemma FileIsHighWater<W(!new)>(e: Env<RegLayout, nat, RegStore<W>>, n: nat, f: nat, s: RegStore<W>)
    requires OffsetsParallel(e.program) && RegDisciplined(e) && IsLocal(e.program, f)
    requires |e.program.signatures[f].params| <= |s.regs|
    ensures var c := EnterConfig(e, [], f, 0, s);
      |StoreOf(FrameDriver(e, n, f, 0, s)).regs|
        == MaxOf([|s.regs|, Width(BodyOf(e.program, f).layout)] + EndsEntered(e, f, ResultCount(e.program, f), n, c))
  {
    hide RegDisciplined, FrameStep, FrameRun, EndsEntered, Implements, Disciplined, Sound, EnterConfig, MaxOf, RegView;
    var c := EnterConfig(e, [], f, 0, s);
    var l := BodyOf(e.program, f).layout;
    StartsSound(e, f, s);
    EnterLength(e, [], f, 0, s);
    RunLength(e, f, n, c);
    MaxOfTwo(|s.regs|, Width(l));
    MaxOfBoth([|s.regs|, Width(l)], EndsEntered(e, f, ResultCount(e.program, f), n, c));
  }

  lemma MaxOfTwo(a: nat, b: nat)
    ensures MaxOf([a, b]) == Max(a, b)
  {
    assert [a, b] == [a] + [b];
    MaxOfBoth([a], [b]);
    MaxOfOne(a);
    MaxOfOne(b);
  }

  lemma StartsSound<W(!new)>(e: Env<RegLayout, nat, RegStore<W>>, f: nat, s: RegStore<W>)
    requires OffsetsParallel(e.program) && RegDisciplined(e) && IsLocal(e.program, f)
    requires |e.program.signatures[f].params| <= |s.regs|
    ensures var c := EnterConfig(e, [], f, 0, s);
      Sound(RegView<W>(), e, AnyState(), f, c) && ConfigParallel(c)
  {
    hide RegDisciplined, Implements, Disciplined, FrameStep, RegView;
    RegDisciplineHolds(e);
    RegStaged<W>(e.program.signatures[f], 0, s);
    DriverKeepsWhole(RegView<W>(), e, AnyState(), 0, f, 0, s);
  }
}
