/**
 The calling convention both frame stores implement (`tracewasm-core/src/instruction/mod.rs`,
 trait `RuntimeFrame`), and what it guarantees about every run of the drivers: whatever tree
 of calls a body makes, nothing below a callee's base changes, and the results are left where
 the arguments were.
 */
module FrameConvention {
  import opened Values
  import opened Drivers
  import opened DriverAgreement

  /**
   How a machine's store looks to the convention: a sequence of slots, how much of it is
   reserved for good, where a frame begins and where its operands begin, what must stay in a
   frame while it is live, when a callee's arguments are in place, where a finished body has
   left its results, and where the store must end once a callee has handed its results over.
   */
  datatype View<!L, !B, !S> = View(
    slots: S -> seq<Value>,
    reserved: S -> nat,
    baseOf: B -> nat,
    operandBase: (Body<L>, B) -> nat,
    intact: (Body<L>, B, S) -> bool,
    staged: (FuncType, B, S) -> bool,
    ready: (Body<L>, nat, B, S) -> bool,
    results: (Body<L>, nat, B, S) -> seq<Value>,
    endsAt: (nat, S) -> bool,
    wellFormed: (Body<L>, FuncType) -> bool)

  /** From `s` to `t` nothing below `limit` changed and nothing reserved was given back. */
  ghost predicate Keeps<L, B, S>(v: View<L, B, S>, limit: nat, s: S, t: S) {
    && limit <= |v.slots(s)| && limit <= |v.slots(t)|
    && v.slots(t)[..limit] == v.slots(s)[..limit]
    && v.reserved(s) <= v.reserved(t)
  }

  /** A live activation of `body`: its operands begin above its base, within the store. */
  ghost predicate FrameOk<L, B, S>(v: View<L, B, S>, body: Body<L>, b: B, s: S) {
    v.baseOf(b) <= v.operandBase(body, b) <= |v.slots(s)| && v.intact(body, b, s)
  }

  /** `enter_frame`: adopts the arguments in place and makes the declared locals zero. */
  ghost predicate EnterLaw<L, B, S>(v: View<L, B, S>, m: Machine<L, B, S>, body: Body<L>, ty: FuncType, b: B, s: S) {
    v.wellFormed(body, ty) && v.staged(ty, b, s) ==>
      var n := |ty.params|;
      var (b', s') := m.enter(n, body.locals, b, body.layout, s);
      && n <= |body.locals|
      && v.baseOf(b') == v.baseOf(b)
      && FrameOk(v, body, b', s')
      && Keeps(v, v.baseOf(b) + n, s, s')
      && v.baseOf(b) + |body.locals| <= |v.slots(s')|
      && v.slots(s')[v.baseOf(b) + n..v.baseOf(b) + |body.locals|] == Zeros(body.locals[n..])
  }

  /** `exit_frame`: leaves the results at the frame's base, and the store ending where its caller expects. */
  ghost predicate ExitLaw<L, B, S>(v: View<L, B, S>, m: Machine<L, B, S>, body: Body<L>, ty: FuncType, b: B, s: S) {
    v.wellFormed(body, ty) && FrameOk(v, body, b, s) && v.ready(body, |ty.results|, b, s) ==>
      var n := |ty.results|;
      var s' := m.exit(n, b, body.layout, s);
      && Keeps(v, v.baseOf(b), s, s')
      && v.baseOf(b) + n <= |v.slots(s')|
      && v.slots(s')[v.baseOf(b)..v.baseOf(b) + n] == v.results(body, n, b, s)
      && v.endsAt(v.baseOf(b) + n, s')
  }

  /** A frame stays intact as long as nothing below its operands changes. */
  ghost predicate StableLaw<L, B, S>(v: View<L, B, S>, body: Body<L>, b: B, s: S, t: S) {
    v.intact(body, b, s) && Keeps(v, v.operandBase(body, b), s, t) ==> v.intact(body, b, t)
  }

  /** The store half of a machine implements the convention. */
  ghost predicate Implements<L(!new), B(!new), S(!new)>(v: View<L, B, S>, m: Machine<L, B, S>) {
    && (forall body, ty, b, s :: EnterLaw(v, m, body, ty, b, s))
    && (forall body, ty, b, s :: ExitLaw(v, m, body, ty, b, s))
    && forall body, b, s, t :: StableLaw(v, body, b, s, t)
  }

  /**
   What validation knows of the store when control is at instruction `pc` of function `f`, in
   the frame based at `b`: on the operand stack, its height.
   */
  type Known<!B, !S> = (nat, nat, B, S) -> bool

  /**
   What lowering guarantees of one instruction of `f`, run in a live frame in a state that
   validation admits there: it writes nothing below its own frame and leaves the frame live; a
   call is based at or above the caller's operands with its arguments staged; the instruction
   that ends the body leaves the results; and wherever control goes next, be it from a callee
   that has returned, the state is one that validation admits there.
   */
  ghost predicate StepDisciplined<L, B, S(!new)>(
    v: View<L, B, S>, e: Env<L, B, S>, known: Known<B, S>, f: nat, pc: nat, b: B, s: S)
    requires IsLocal(e.program, f) && pc < |BodyOf(e.program, f).instructions|
  {
    var body := BodyOf(e.program, f);
    FrameOk(v, body, b, s) && known(f, pc, b, s) ==>
      var x := e.machine.execute(body.instructions[pc], body.layout, b, s);
      && Keeps(v, v.baseOf(b), s, x.store)
      && FrameOk(v, body, b, x.store)
      && (x.Ok? ==> StepLands(v, e, known, f, pc, b, x.step, x.store))
  }

  /** Where a step of `f` that left the store `t` takes control, and in what state. */
  ghost predicate StepLands<L, B, S(!new)>(
    v: View<L, B, S>, e: Env<L, B, S>, known: Known<B, S>, f: nat, pc: nat, b: B, step: Step<B>, t: S)
    requires IsLocal(e.program, f)
  {
    match step
    case Next => Lands(v, e, known, f, pc + 1, b, t)
    case JumpTo(target) => Lands(v, e, known, f, target, b, t)
    case Call(g, gBase, _) =>
      && v.operandBase(BodyOf(e.program, f), b) <= v.baseOf(gBase)
      && (IsLocal(e.program, g) ==>
        && v.staged(e.program.signatures[g], gBase, t)
        && Resumes(v, known, f, pc, b, v.baseOf(gBase), ResultCount(e.program, g), t))
  }

  /** Control at `pc` of the body, or at its end, and then the results are there. */
  ghost predicate Lands<L, B, S>(
    v: View<L, B, S>, e: Env<L, B, S>, known: Known<B, S>, f: nat, pc: nat, b: B, s: S)
    requires IsLocal(e.program, f)
  {
    var body := BodyOf(e.program, f);
    && pc <= |body.instructions|
    && if pc == |body.instructions| then v.ready(body, ResultCount(e.program, f), b, s) else known(f, pc, b, s)
  }

  /** However a callee based at `base` returns its `n` results, its caller resumes in a state validation admits. */
  ghost predicate Resumes<L, B, S(!new)>(
    v: View<L, B, S>, known: Known<B, S>, f: nat, pc: nat, b: B, base: nat, n: nat, s: S)
  {
    forall t :: Keeps(v, base, s, t) && base + n <= |v.slots(t)| && v.endsAt(base + n, t) ==> known(f, pc + 1, b, t)
  }

  /** Entering `f` reaches its first instruction in a state that validation admits there. */
  ghost predicate EntersKnown<L, B, S>(v: View<L, B, S>, e: Env<L, B, S>, known: Known<B, S>, f: nat, b: B, s: S)
    requires IsLocal(e.program, f)
  {
    var body, ty := BodyOf(e.program, f), e.program.signatures[f];
    v.staged(ty, b, s) ==>
      var (b', s') := e.machine.enter(|ty.params|, body.locals, b, body.layout, s);
      known(f, 0, b', s')
  }

  /** What lowering and validation guarantee of a whole program. */
  ghost predicate Disciplined<L, B(!new), S(!new)>(v: View<L, B, S>, e: Env<L, B, S>, known: Known<B, S>) {
    && NeverCallsLast(e)
    && (forall f: nat :: IsLocal(e.program, f) ==> v.wellFormed(BodyOf(e.program, f), e.program.signatures[f]))
    && (forall f: nat, b, s :: IsLocal(e.program, f) ==> EntersKnown(v, e, known, f, b, s))
    && forall f: nat, pc: nat, b, s :: IsLocal(e.program, f) && pc < |BodyOf(e.program, f).instructions| ==>
        StepDisciplined(v, e, known, f, pc, b, s)
  }

  lemma KeepsLower<L, B, S>(v: View<L, B, S>, low: nat, high: nat, s: S, t: S)
    requires low <= high && Keeps(v, high, s, t)
    ensures Keeps(v, low, s, t)
  {
    assert v.slots(t)[..low] == v.slots(t)[..high][..low];
    assert v.slots(s)[..low] == v.slots(s)[..high][..low];
  }

  lemma KeepsTrans<L, B, S>(v: View<L, B, S>, limit: nat, s: S, t: S, u: S)
    requires Keeps(v, limit, s, t) && Keeps(v, limit, t, u)
    ensures Keeps(v, limit, s, u)
  {
  }

  lemma FrameSurvives<L(!new), B(!new), S(!new)>(v: View<L, B, S>, m: Machine<L, B, S>, body: Body<L>, b: B, s: S, t: S)
    requires Implements(v, m) && FrameOk(v, body, b, s) && Keeps(v, v.operandBase(body, b), s, t)
    ensures FrameOk(v, body, b, t)
  {
    assert StableLaw(v, body, b, s, t);
  }

  // ------------------------------------------------------------------ the end of an activation

  /** The base and the store an activation hands to its own `exit_frame`. */
  datatype Ending<+B, +S> = Ending(base: B, store: S)

  /** How the activation that a call of `f` opens ends, if it does. */
  ghost function CallEnding<L, B, S>(e: Env<L, B, S>, fuel: nat, f: nat, base: B, store: S,
    depth: nat): Option<Ending<B, S>>
    requires OffsetsParallel(e.program)
  {
    if !IsLocal(e.program, f) then None else
    var body := BodyOf(e.program, f);
    var (b, s) := e.machine.enter(|e.program.signatures[f].params|, body.locals, base, body.layout, store);
    LoopEnding(e, fuel, f, 0, b, s, depth + 1)
  }

  /** The same from any instruction of the activation on; its callees run to their own ends in between. */
  ghost function LoopEnding<L, B, S>(
    e: Env<L, B, S>, fuel: nat, f: nat, pc: nat, base: B, store: S, depth: nat): Option<Ending<B, S>>
    requires OffsetsParallel(e.program) && IsLocal(e.program, f) && 1 <= depth
    decreases fuel, 0
  {
    var body := BodyOf(e.program, f);
    if fuel == 0 || |body.instructions| <= pc then None
    else match e.machine.execute(body.instructions[pc], body.layout, base, store)
      case Trap(_, _) => None
      case Ok(Next, s) => AdvanceEnding(e, fuel - 1, f, pc + 1, base, s, depth)
      case Ok(JumpTo(t), s) => AdvanceEnding(e, fuel - 1, f, t, base, s, depth)
      case Ok(Call(g, gBase, _), s) =>
        var r := NativeCall(e, fuel - 1, g, gBase, s, depth);
        if e.maxDepth <= depth || !r.Returned? then None
        else AdvanceEnding(e, fuel - 1, f, pc + 1, base, r.store, depth)
  }

  ghost function AdvanceEnding<L, B, S>(
    e: Env<L, B, S>, fuel: nat, f: nat, pc: nat, base: B, store: S, depth: nat): Option<Ending<B, S>>
    requires OffsetsParallel(e.program) && IsLocal(e.program, f) && 1 <= depth
    decreases fuel, 1
  {
    if pc == |BodyOf(e.program, f).instructions| then Some(Ending(base, store))
    else LoopEnding(e, fuel, f, pc, base, store, depth)
  }

  /**
   What a call of `f` that ended in `end` has done: below its base nothing changed, its results
   lie there in order as the body left them, and the store ends where its caller expects.
   */
  ghost predicate CallDone<L, B, S>(v: View<L, B, S>, e: Env<L, B, S>, f: nat, end: Ending<B, S>, s: S, t: S)
    requires IsLocal(e.program, f)
  {
    var body, n, base := BodyOf(e.program, f), ResultCount(e.program, f), v.baseOf(end.base);
    && FrameOk(v, body, end.base, end.store) && v.ready(body, n, end.base, end.store)
    && t == e.machine.exit(n, end.base, body.layout, end.store)
    && Keeps(v, base, s, t)
    && base + n <= |v.slots(t)|
    && v.slots(t)[base..base + n] == v.results(body, n, end.base, end.store)
    && v.endsAt(base + n, t)
  }

  lemma {:induction false} AdvanceKeeps<L(!new), B(!new), S(!new)>(
    v: View<L, B, S>, e: Env<L, B, S>, known: Known<B, S>, fuel: nat, f: nat, pc: nat, b: B, start: S, s: S,
    depth: nat)
    requires OffsetsParallel(e.program) && IsLocal(e.program, f) && 1 <= depth
    requires Implements(v, e.machine) && Disciplined(v, e, known)
    requires FrameOk(v, BodyOf(e.program, f), b, s) && Keeps(v, v.baseOf(b), start, s)
    requires Lands(v, e, known, f, pc, b, s)
    ensures var r, end := NativeAdvance(e, fuel, f, pc, b, s, depth), AdvanceEnding(e, fuel, f, pc, b, s, depth);
      r.Returned? ==> end.Some? && end.value.base == b && CallDone(v, e, f, end.value, start, r.store)
    decreases fuel, 1
  {
    var body := BodyOf(e.program, f);
    if pc == |body.instructions| {
      assert ExitLaw(v, e.machine, body, e.program.signatures[f], b, s);
    } else {
      LoopKeeps(v, e, known, fuel, f, pc, b, start, s, depth);
    }
  }

  /** The frame rule, for an activation in the middle of its body. */
  lemma {:induction false} LoopKeeps<L(!new), B(!new), S(!new)>(
    v: View<L, B, S>, e: Env<L, B, S>, known: Known<B, S>, fuel: nat, f: nat, pc: nat, b: B, start: S, s: S,
    depth: nat)
    requires OffsetsParallel(e.program) && IsLocal(e.program, f) && 1 <= depth
    requires Implements(v, e.machine) && Disciplined(v, e, known)
    requires FrameOk(v, BodyOf(e.program, f), b, s) && Keeps(v, v.baseOf(b), start, s)
    requires pc < |BodyOf(e.program, f).instructions| ==> known(f, pc, b, s)
    ensures var r, end := NativeLoop(e, fuel, f, pc, b, s, depth), LoopEnding(e, fuel, f, pc, b, s, depth);
      r.Returned? ==> end.Some? && end.value.base == b && CallDone(v, e, f, end.value, start, r.store)
    decreases fuel, 0
  {
    var body := BodyOf(e.program, f);
    if fuel == 0 || |body.instructions| <= pc {
      return;
    }
    assert StepDisciplined(v, e, known, f, pc, b, s);
    var x := e.machine.execute(body.instructions[pc], body.layout, b, s);
    KeepsTrans(v, v.baseOf(b), start, s, x.store);
    match x
    case Trap(_, _) =>
    case Ok(Next, s1) =>
      AdvanceKeeps(v, e, known, fuel - 1, f, pc + 1, b, start, s1, depth);
    case Ok(JumpTo(t), s1) =>
      AdvanceKeeps(v, e, known, fuel - 1, f, t, b, start, s1, depth);
    case Ok(Call(g, gBase, _), s1) =>
      CallStepKeeps(v, e, known, fuel, f, pc, b, start, s, depth);
  }

  /** The frame rule across a call: the callee's run, and then the caller's from after the call. */
  lemma {:induction false} CallStepKeeps<L(!new), B(!new), S(!new)>(
    v: View<L, B, S>, e: Env<L, B, S>, known: Known<B, S>, fuel: nat, f: nat, pc: nat, b: B, start: S, s: S,
    depth: nat)
    requires OffsetsParallel(e.program) && IsLocal(e.program, f) && 1 <= depth
    requires Implements(v, e.machine) && Disciplined(v, e, known)
    requires FrameOk(v, BodyOf(e.program, f), b, s) && Keeps(v, v.baseOf(b), start, s)
    requires 0 < fuel && pc < |BodyOf(e.program, f).instructions|
    requires ReportsCall(e.machine.execute(BodyOf(e.program, f).instructions[pc], BodyOf(e.program, f).layout, b, s))
    requires known(f, pc, b, s)
    ensures var r, end := NativeLoop(e, fuel, f, pc, b, s, depth), LoopEnding(e, fuel, f, pc, b, s, depth);
      r.Returned? ==> end.Some? && end.value.base == b && CallDone(v, e, f, end.value, start, r.store)
    decreases fuel - 1, 3
  {
    var body := BodyOf(e.program, f);
    assert StepDisciplined(v, e, known, f, pc, b, s);
    var Ok(Call(g, gBase, table), s1) := e.machine.execute(body.instructions[pc], body.layout, b, s);
    var r := NativeCall(e, fuel - 1, g, gBase, s1, depth);
    if depth < e.maxDepth && IsLocal(e.program, g) && r.Returned? {
      CallKeeps(v, e, known, fuel - 1, g, gBase, s1, depth);
      ResumeCaller(v, e, f, b, gBase, s1, r.store);
      KeepsTrans(v, v.baseOf(b), start, s, s1);
      KeepsTrans(v, v.baseOf(b), start, s1, r.store);
      assert pc + 1 != |body.instructions| by {
        assert pc + 1 == |body.instructions| ==> LastExec(e.machine, body, b, s) == Ok(Call(g, gBase, table), s1);
      }
      assert Lands(v, e, known, f, pc + 1, b, r.store);
      AdvanceKeeps(v, e, known, fuel - 1, f, pc + 1, b, start, r.store, depth);
    }
  }

  /** After a callee has returned, its caller's frame is as it was when it called. */
  lemma ResumeCaller<L(!new), B(!new), S(!new)>(
    v: View<L, B, S>, e: Env<L, B, S>, f: nat, b: B, gBase: B, s: S, t: S)
    requires IsLocal(e.program, f) && Implements(v, e.machine)
    requires FrameOk(v, BodyOf(e.program, f), b, s)
    requires v.operandBase(BodyOf(e.program, f), b) <= v.baseOf(gBase)
    requires Keeps(v, v.baseOf(gBase), s, t)
    ensures FrameOk(v, BodyOf(e.program, f), b, t)
    ensures Keeps(v, v.operandBase(BodyOf(e.program, f), b), s, t) && Keeps(v, v.baseOf(b), s, t)
  {
    var body := BodyOf(e.program, f);
    KeepsLower(v, v.operandBase(body, b), v.baseOf(gBase), s, t);
    KeepsLower(v, v.baseOf(b), v.baseOf(gBase), s, t);
    FrameSurvives(v, e.machine, body, b, s, t);
  }

  /**
   No call disturbs its callers: on any store that implements the convention, a call that
   returns, however deeply it nested, left every slot below its base as it found it, the
   results its own activation ended with in the slots at its base, and the store ending where
   its caller expects.
   */
  lemma {:induction false} CallKeeps<L(!new), B(!new), S(!new)>(
    v: View<L, B, S>, e: Env<L, B, S>, known: Known<B, S>, fuel: nat, g: nat, gBase: B, s: S, depth: nat)
    requires OffsetsParallel(e.program) && IsLocal(e.program, g)
    requires Implements(v, e.machine) && Disciplined(v, e, known)
    requires v.staged(e.program.signatures[g], gBase, s)
    ensures var r, end := NativeCall(e, fuel, g, gBase, s, depth), CallEnding(e, fuel, g, gBase, s, depth);
      r.Returned? ==>
        end.Some? && v.baseOf(end.value.base) == v.baseOf(gBase) && CallDone(v, e, g, end.value, s, r.store)
    decreases fuel, 2
  {
    var body := BodyOf(e.program, g);
    var ty := e.program.signatures[g];
    assert EnterLaw(v, e.machine, body, ty, gBase, s);
    var (b, s1) := e.machine.enter(|ty.params|, body.locals, gBase, body.layout, s);
    assert EntersKnown(v, e, known, g, gBase, s);
    KeepsLower(v, v.baseOf(gBase), v.baseOf(gBase) + |ty.params|, s, s1);
    LoopKeeps(v, e, known, fuel, g, 0, b, s, s1, depth + 1);
  }
}

/**
 The same convention seen from any state of the explicit driver: every activation on the
 call stack is still whole.
 */
module FrameInvariant {
  import opened Values
  import opened Drivers
  import opened DriverAgreement
  import opened DriverTraces
  import opened FrameConvention

  function BaseAt<L, B, S>(c: Config<L, B, S>, i: nat): B
    requires i <= |c.frames|
  {
    if i < |c.frames| then c.frames[i].base else c.base
  }

  /** Activation `i` of the call stack, counted from the entry function, is intact in `s`. */
  ghost predicate WholeAt<L, B, S>(v: View<L, B, S>, e: Env<L, B, S>, c: Config<L, B, S>, i: nat, s: S)
    requires i <= |c.frames| && IsLocal(e.program, FuncAt(c, i))
  {
    FrameOk(v, BodyOf(e.program, FuncAt(c, i)), BaseAt(c, i), s)
  }

  function OperandBaseAt<L, B, S>(v: View<L, B, S>, e: Env<L, B, S>, c: Config<L, B, S>, i: nat): nat
    requires i <= |c.frames| && IsLocal(e.program, FuncAt(c, i))
  {
    v.operandBase(BodyOf(e.program, FuncAt(c, i)), BaseAt(c, i))
  }

  ghost predicate AllLocal<L, B, S>(e: Env<L, B, S>, c: Config<L, B, S>) {
    forall i :: 0 <= i <= |c.frames| ==> IsLocal(e.program, FuncAt(c, i))
  }

  /** Every activation is intact, and each is based at or above its caller's operands. */
  ghost predicate AllWhole<L, B, S>(v: View<L, B, S>, e: Env<L, B, S>, c: Config<L, B, S>) {
    && AllLocal(e, c)
    && (forall i :: 0 <= i <= |c.frames| ==> WholeAt(v, e, c, i, c.store))
    && forall i :: 0 <= i < |c.frames| ==> OperandBaseAt(v, e, c, i) <= v.baseOf(BaseAt(c, i + 1))
  }

  /**
   The running activation is in a state that validation admits at its instruction, and every
   suspended one will be at the instruction after its call, however the activation above it returns.
   */
  ghost predicate AllKnown<L, B, S(!new)>(v: View<L, B, S>, known: Known<B, S>, c: Config<L, B, S>) {
    && (c.pc < |c.instructions| ==> known(c.func, c.pc, c.base, c.store))
    && forall i :: 0 <= i < |c.frames| ==> ResumesAt(v, known, c, i, c.store)
  }

  ghost predicate ResumesAt<L, B, S(!new)>(v: View<L, B, S>, known: Known<B, S>, c: Config<L, B, S>, i: nat, s: S)
    requires i < |c.frames|
  {
    var frame := c.frames[i];
    && frame.pc + 1 < |frame.instructions|
    && Resumes(v, known, frame.func, frame.pc, frame.base, v.baseOf(BaseAt(c, i + 1)), frame.calleeResults, s)
  }

  ghost predicate Sound<L, B, S(!new)>(
    v: View<L, B, S>, e: Env<L, B, S>, known: Known<B, S>, entry: nat, c: Config<L, B, S>)
  {
    CallChain(e, entry, c) && AllWhole(v, e, c) && AllKnown(v, known, c)
  }

  /** A suspended frame's operands lie below the base of every frame above it. */
  lemma {:induction false} Nested<L, B, S>(v: View<L, B, S>, e: Env<L, B, S>, c: Config<L, B, S>, i: nat, j: nat)
    requires AllWhole(v, e, c) && i < j <= |c.frames|
    ensures OperandBaseAt(v, e, c, i) <= v.baseOf(BaseAt(c, j))
    decreases j - i
  {
    if i + 1 < j {
      Nested(v, e, c, i + 1, j);
      assert WholeAt(v, e, c, i + 1, c.store);
    }
  }

  /** A change above the running frame's base leaves every suspended frame whole. */
  lemma SuspendedSurvive<L(!new), B(!new), S(!new)>(v: View<L, B, S>, e: Env<L, B, S>, c: Config<L, B, S>, t: S)
    requires Implements(v, e.machine) && AllWhole(v, e, c) && Keeps(v, v.baseOf(c.base), c.store, t)
    ensures forall i :: 0 <= i < |c.frames| ==> WholeAt(v, e, c, i, t)
  {
    forall i | 0 <= i < |c.frames|
      ensures WholeAt(v, e, c, i, t)
    {
      assert WholeAt(v, e, c, i, c.store);
      Nested(v, e, c, i, |c.frames|);
      KeepsLower(v, OperandBaseAt(v, e, c, i), v.baseOf(c.base), c.store, t);
      FrameSurvives(v, e.machine, BodyOf(e.program, FuncAt(c, i)), BaseAt(c, i), c.store, t);
    }
  }

  lemma WholeAfter<L, B, S>(v: View<L, B, S>, e: Env<L, B, S>, c: Config<L, B, S>, c': Config<L, B, S>, k: nat)
    requires AllWhole(v, e, c) && k <= |c.frames| && |c'.frames| == k
    requires c'.frames == c.frames[..k] && c'.func == FuncAt(c, k) && c'.base == BaseAt(c, k)
    requires forall i :: 0 <= i <= k ==> WholeAt(v, e, c, i, c'.store)
    ensures AllWhole(v, e, c')
  {
    forall i | 0 <= i <= k
      ensures FuncAt(c', i) == FuncAt(c, i) && BaseAt(c', i) == BaseAt(c, i)
    {
    }
    forall i | 0 <= i <= k
      ensures WholeAt(v, e, c', i, c'.store)
    {
      assert WholeAt(v, e, c, i, c'.store);
    }
    forall i | 0 <= i < k
      ensures OperandBaseAt(v, e, c', i) <= v.baseOf(BaseAt(c', i + 1))
    {
      assert OperandBaseAt(v, e, c, i) <= v.baseOf(BaseAt(c, i + 1));
    }
  }

  lemma AdvanceKeepsWhole<L(!new), B(!new), S(!new)>(
    v: View<L, B, S>, e: Env<L, B, S>, known: Known<B, S>, entry: nat, c: Config<L, B, S>, pc: nat, s: S)
    requires Implements(v, e.machine) && Disciplined(v, e, known) && IsLocal(e.program, entry)
    requires CallChain(e, entry, c) && AllWhole(v, e, c)
    requires Keeps(v, v.baseOf(c.base), c.store, s) && FrameOk(v, BodyOf(e.program, c.func), c.base, s)
    requires Lands(v, e, known, c.func, pc, c.base, s)
    ensures var r := FrameAdvance(e, ResultCount(e.program, entry), c.(pc := pc, store := s));
      r.Running? ==> AllWhole(v, e, r.config)
  {
    var body := BodyOf(e.program, c.func);
    var r := FrameAdvance(e, ResultCount(e.program, entry), c.(pc := pc, store := s));
    if pc != |c.instructions| {
      SuspendedSurvive(v, e, c, s);
      assert WholeAt(v, e, c, |c.frames|, s);
      WholeAfter(v, e, c, r.config, |c.frames|);
    } else if c.frames != [] {
      var k := |c.frames| - 1;
      assert c.frames[k].callee == FuncAt(c, k + 1) && Suspended(e.program, c.frames[k]);
      assert ExitLaw(v, e.machine, body, e.program.signatures[c.func], c.base, s);
      KeepsTrans(v, v.baseOf(c.base), c.store, s, r.config.store);
      SuspendedSurvive(v, e, c, r.config.store);
      WholeAfter(v, e, c, r.config, k);
    }
  }

  lemma PushKeepsWhole<L(!new), B(!new), S(!new)>(
    v: View<L, B, S>, e: Env<L, B, S>, known: Known<B, S>, c: Config<L, B, S>, frame: Frame<L, B>, g: nat, gBase: B,
    s: S)
    requires Implements(v, e.machine) && Disciplined(v, e, known) && AllWhole(v, e, c)
    requires IsLocal(e.program, g) && IsLocal(e.program, c.func)
    requires Keeps(v, v.baseOf(c.base), c.store, s) && FrameOk(v, BodyOf(e.program, c.func), c.base, s)
    requires frame.func == c.func && frame.base == c.base
    requires v.operandBase(BodyOf(e.program, c.func), c.base) <= v.baseOf(gBase)
    requires v.staged(e.program.signatures[g], gBase, s)
    ensures AllWhole(v, e, EnterConfig(e, c.frames + [frame], g, gBase, s))
  {
    var body := BodyOf(e.program, g);
    var ty := e.program.signatures[g];
    var c' := EnterConfig(e, c.frames + [frame], g, gBase, s);
    var k := |c.frames|;
    assert EnterLaw(v, e.machine, body, ty, gBase, s);
    KeepsLower(v, v.baseOf(gBase), v.baseOf(gBase) + |ty.params|, s, c'.store);
    KeepsLower(v, OperandBaseAt(v, e, c, k), v.baseOf(gBase), s, c'.store);
    KeepsLower(v, v.baseOf(c.base), v.baseOf(gBase), s, c'.store);
    KeepsTrans(v, v.baseOf(c.base), c.store, s, c'.store);
    SuspendedSurvive(v, e, c, c'.store);
    FrameSurvives(v, e.machine, BodyOf(e.program, c.func), c.base, s, c'.store);
    assert WholeAt(v, e, c, k, c'.store);
    forall i | 0 <= i <= k
      ensures FuncAt(c', i) == FuncAt(c, i) && BaseAt(c', i) == BaseAt(c, i)
    {
    }
    forall i | 0 <= i <= k + 1
      ensures WholeAt(v, e, c', i, c'.store)
    {
      if i <= k {
        assert WholeAt(v, e, c, i, c'.store);
      }
    }
    forall i | 0 <= i < k + 1
      ensures OperandBaseAt(v, e, c', i) <= v.baseOf(BaseAt(c', i + 1))
    {
      if i < k {
        assert OperandBaseAt(v, e, c, i) <= v.baseOf(BaseAt(c, i + 1));
      }
    }
  }

  lemma CallKeepsWhole<L(!new), B(!new), S(!new)>(
    v: View<L, B, S>, e: Env<L, B, S>, known: Known<B, S>, c: Config<L, B, S>, g: nat, gBase: B, table: Option<nat>,
    s: S)
    requires Implements(v, e.machine) && Disciplined(v, e, known) && AllWhole(v, e, c)
    requires IsLocal(e.program, c.func) && IsLocal(e.program, g) && c.pc < |BodyOf(e.program, c.func).instructions|
    requires var body := BodyOf(e.program, c.func);
      e.machine.execute(body.instructions[c.pc], body.layout, c.base, c.store) == Ok(Call(g, gBase, table), s)
    requires known(c.func, c.pc, c.base, c.store)
    ensures var frame := Frame(c.func, c.instructions, c.pc, c.base, c.layout, c.offsets, ResultCount(e.program, g), g,
      table);
      AllWhole(v, e, EnterConfig(e, c.frames + [frame], g, gBase, s))
  {
    assert WholeAt(v, e, c, |c.frames|, c.store);
    assert StepDisciplined(v, e, known, c.func, c.pc, c.base, c.store);
    var frame := Frame(c.func, c.instructions, c.pc, c.base, c.layout, c.offsets, ResultCount(e.program, g), g, table);
    PushKeepsWhole(v, e, known, c, frame, g, gBase, s);
  }

  /** What discipline says of the instruction that runs next. */
  lemma NextIsDisciplined<L(!new), B(!new), S(!new)>(
    v: View<L, B, S>, e: Env<L, B, S>, known: Known<B, S>, entry: nat, c: Config<L, B, S>)
    requires Disciplined(v, e, known) && Sound(v, e, known, entry, c) && c.pc < |c.instructions|
    ensures IsLocal(e.program, c.func) && c.instructions == BodyOf(e.program, c.func).instructions
    ensures c.layout == BodyOf(e.program, c.func).layout && known(c.func, c.pc, c.base, c.store)
    ensures var x := e.machine.execute(c.instructions[c.pc], c.layout, c.base, c.store);
      && Keeps(v, v.baseOf(c.base), c.store, x.store)
      && FrameOk(v, BodyOf(e.program, c.func), c.base, x.store)
      && (x.Ok? ==> StepLands(v, e, known, c.func, c.pc, c.base, x.step, x.store))
  {
    hide FrameOk, Keeps, StepLands, ResumesAt, Suspended;
    assert StepDisciplined(v, e, known, c.func, c.pc, c.base, c.store);
    assert WholeAt(v, e, c, |c.frames|, c.store);
  }

  lemma StepKeepsWhole<L(!new), B(!new), S(!new)>(
    v: View<L, B, S>, e: Env<L, B, S>, known: Known<B, S>, entry: nat, c: Config<L, B, S>)
    requires OffsetsParallel(e.program) && Implements(v, e.machine) && Disciplined(v, e, known)
    requires IsLocal(e.program, entry) && Sound(v, e, known, entry, c) && ConfigParallel(c)
    ensures var r := FrameStep(e, entry, ResultCount(e.program, entry), c);
      r.Running? ==> AllWhole(v, e, r.config)
  {
    hide Implements, Disciplined, AllWhole, AllKnown, CallChain, FrameOk, Keeps, FrameAdvance, EnterConfig;
    if c.pc < |c.instructions| {
      NextIsDisciplined(v, e, known, entry, c);
      var x := e.machine.execute(c.instructions[c.pc], c.layout, c.base, c.store);
      if ReportsCall(x) {
        if IsLocal(e.program, x.step.callee) {
          CallKeepsWhole(v, e, known, c, x.step.callee, x.step.base, x.step.table, x.store);
        }
      } else if x.Ok? {
        AdvanceKeepsWhole(v, e, known, entry, c, if x.step.Next? then c.pc + 1 else x.step.target, x.store);
      }
    }
  }

  /** A property that every iteration keeps holds in every state of a run. */
  lemma {:induction false} RunInduction<L(!new), B(!new), S(!new)>(
    e: Env<L, B, S>, entry: nat, results: nat, n: nat, c: Config<L, B, S>, keeps: Config<L, B, S> -> bool)
    requires OffsetsParallel(e.program) && ConfigParallel(c) && keeps(c)
    requires forall d :: ConfigParallel(d) && keeps(d) && FrameStep(e, entry, results, d).Running? ==>
      keeps(FrameStep(e, entry, results, d).config)
    ensures var r := FrameRun(e, entry, results, n, c);
      r.Running? ==> keeps(r.config)
  {
    if n != 0 {
      StepKeepsParallel(e, entry, results, c);
      var r := FrameStep(e, entry, results, c);
      if r.Running? {
        RunInduction(e, entry, results, n - 1, r.config, keeps);
      }
    }
  }

  // ------------------------------------------------------------------ what validation knows is kept

  lemma ResumesStill<L, B, S(!new)>(
    v: View<L, B, S>, known: Known<B, S>, f: nat, pc: nat, b: B, base: nat, n: nat, s: S, t: S)
    requires Resumes(v, known, f, pc, b, base, n, s) && Keeps(v, base, s, t)
    ensures Resumes(v, known, f, pc, b, base, n, t)
  {
    forall u | Keeps(v, base, t, u) && base + n <= |v.slots(u)| && v.endsAt(base + n, u)
      ensures known(f, pc + 1, b, u)
    {
      KeepsTrans(v, base, s, t, u);
    }
  }

  /** A change above the running frame's base leaves every suspended frame as ready to resume as it was. */
  lemma SuspendedResume<L(!new), B(!new), S(!new)>(
    v: View<L, B, S>, e: Env<L, B, S>, known: Known<B, S>, c: Config<L, B, S>, t: S)
    requires AllWhole(v, e, c) && AllKnown(v, known, c) && Keeps(v, v.baseOf(c.base), c.store, t)
    ensures forall i :: 0 <= i < |c.frames| ==> ResumesAt(v, known, c, i, t)
  {
    forall i | 0 <= i < |c.frames|
      ensures ResumesAt(v, known, c, i, t)
    {
      var frame, base := c.frames[i], v.baseOf(BaseAt(c, i + 1));
      assert ResumesAt(v, known, c, i, c.store);
      if i + 1 < |c.frames| {
        Nested(v, e, c, i + 1, |c.frames|);
        assert WholeAt(v, e, c, i + 1, c.store);
      }
      KeepsLower(v, base, v.baseOf(c.base), c.store, t);
      ResumesStill(v, known, frame.func, frame.pc, frame.base, base, frame.calleeResults, c.store, t);
    }
  }

  lemma KnownAfter<L, B, S(!new)>(
    v: View<L, B, S>, known: Known<B, S>, c: Config<L, B, S>, c': Config<L, B, S>, k: nat)
    requires k <= |c.frames| && |c'.frames| == k
    requires c'.frames == c.frames[..k] && v.baseOf(c'.base) == v.baseOf(BaseAt(c, k))
    requires forall i :: 0 <= i < k ==> ResumesAt(v, known, c, i, c'.store)
    requires c'.pc < |c'.instructions| ==> known(c'.func, c'.pc, c'.base, c'.store)
    ensures AllKnown(v, known, c')
  {
    forall i | 0 <= i < k
      ensures ResumesAt(v, known, c', i, c'.store)
    {
      assert ResumesAt(v, known, c, i, c'.store);
      assert c'.frames[i] == c.frames[i] && v.baseOf(BaseAt(c', i + 1)) == v.baseOf(BaseAt(c, i + 1));
    }
  }

  /** The running activation hands over its results and its caller resumes. */
  lemma PopKeepsKnown<L(!new), B(!new), S(!new)>(
    v: View<L, B, S>, e: Env<L, B, S>, known: Known<B, S>, c: Config<L, B, S>, n: nat, t: S)
    requires AllWhole(v, e, c) && AllKnown(v, known, c) && c.frames != []
    requires c.frames[|c.frames| - 1].calleeResults == n
    requires Keeps(v, v.baseOf(c.base), c.store, t)
    requires v.baseOf(c.base) + n <= |v.slots(t)| && v.endsAt(v.baseOf(c.base) + n, t)
    ensures var frame := c.frames[|c.frames| - 1];
      AllKnown(v, known, Config(c.frames[..|c.frames| - 1], frame.func, frame.instructions, frame.pc + 1, frame.base,
                                frame.layout, frame.offsets, t))
  {
    hide AllWhole;
    var k := |c.frames| - 1;
    var frame := c.frames[k];
    SuspendedResume(v, e, known, c, t);
    assert ResumesAt(v, known, c, k, c.store);
    assert c.frames[..k + 1] == c.frames;
    KnownAfter(v, known, c, Config(c.frames[..k], frame.func, frame.instructions, frame.pc + 1, frame.base,
                                   frame.layout, frame.offsets, t), k);
  }

  /** The end of the running activation's body: its results are handed over to the suspended one below. */
  lemma EndKeepsKnown<L(!new), B(!new), S(!new)>(
    v: View<L, B, S>, e: Env<L, B, S>, known: Known<B, S>, entry: nat, c: Config<L, B, S>, s: S)
    requires Implements(v, e.machine) && Disciplined(v, e, known) && IsLocal(e.program, entry)
    requires Sound(v, e, known, entry, c) && c.frames != []
    requires Keeps(v, v.baseOf(c.base), c.store, s) && FrameOk(v, BodyOf(e.program, c.func), c.base, s)
    requires v.ready(BodyOf(e.program, c.func), ResultCount(e.program, c.func), c.base, s)
    ensures var r := FrameAdvance(e, ResultCount(e.program, entry), c.(pc := |c.instructions|, store := s));
      r.Running? && AllKnown(v, known, r.config)
  {
    hide AllWhole, AllKnown, CallChain, Implements, Disciplined, ResumesAt, FrameOk, Keeps, IsLocal;
    CalleeOnTop(v, e, entry, c);
    var n := ResultCount(e.program, c.func);
    var t := e.machine.exit(n, c.base, c.layout, s);
    ExitHandsOver(v, e, known, c.func, c.base, c.store, s);
    PopKeepsKnown(v, e, known, c, n, t);
  }

  /** The last suspended frame called the running function, whose body is the one running. */
  lemma CalleeOnTop<L, B, S>(v: View<L, B, S>, e: Env<L, B, S>, entry: nat, c: Config<L, B, S>)
    requires CallChain(e, entry, c) && AllWhole(v, e, c)
    ensures IsLocal(e.program, c.func)
    ensures c.layout == BodyOf(e.program, c.func).layout && c.instructions == BodyOf(e.program, c.func).instructions
    ensures c.frames != [] ==> c.frames[|c.frames| - 1].calleeResults == ResultCount(e.program, c.func)
  {
    assert FuncAt(c, |c.frames|) == c.func;
    if c.frames != [] {
      var k := |c.frames| - 1;
      assert c.frames[k].callee == FuncAt(c, k + 1) && Suspended(e.program, c.frames[k]);
    }
  }

  lemma ExitHandsOver<L(!new), B(!new), S(!new)>(
    v: View<L, B, S>, e: Env<L, B, S>, known: Known<B, S>, f: nat, b: B, start: S, s: S)
    requires Implements(v, e.machine) && Disciplined(v, e, known) && IsLocal(e.program, f)
    requires Keeps(v, v.baseOf(b), start, s) && FrameOk(v, BodyOf(e.program, f), b, s)
    requires v.ready(BodyOf(e.program, f), ResultCount(e.program, f), b, s)
    ensures var n := ResultCount(e.program, f);
      var t := e.machine.exit(n, b, BodyOf(e.program, f).layout, s);
      Keeps(v, v.baseOf(b), start, t) && v.baseOf(b) + n <= |v.slots(t)| && v.endsAt(v.baseOf(b) + n, t)
  {
    var body := BodyOf(e.program, f);
    assert ExitLaw(v, e.machine, body, e.program.signatures[f], b, s);
    KeepsTrans(v, v.baseOf(b), start, s, e.machine.exit(ResultCount(e.program, f), b, body.layout, s));
  }

  lemma AdvanceKeepsKnown<L(!new), B(!new), S(!new)>(
    v: View<L, B, S>, e: Env<L, B, S>, known: Known<B, S>, entry: nat, c: Config<L, B, S>, pc: nat, s: S)
    requires Implements(v, e.machine) && Disciplined(v, e, known) && IsLocal(e.program, entry)
    requires Sound(v, e, known, entry, c)
    requires Keeps(v, v.baseOf(c.base), c.store, s) && FrameOk(v, BodyOf(e.program, c.func), c.base, s)
    requires Lands(v, e, known, c.func, pc, c.base, s)
    ensures var r := FrameAdvance(e, ResultCount(e.program, entry), c.(pc := pc, store := s));
      r.Running? ==> AllKnown(v, known, r.config)
  {
    hide AllKnown, FrameOk, Keeps, AllWhole, Implements, Disciplined, ResumesAt;
    if pc != |c.instructions| {
      SuspendedResume(v, e, known, c, s);
      assert c.frames[..|c.frames|] == c.frames;
      KnownAfter(v, known, c, c.(pc := pc, store := s), |c.frames|);
    } else if c.frames != [] {
      EndKeepsKnown(v, e, known, entry, c, s);
    }
  }

  lemma CallsNotLast<L(!new), B(!new), S(!new)>(
    e: Env<L, B, S>, c: Config<L, B, S>, g: nat, gBase: B, table: Option<nat>, s: S)
    requires NeverCallsLast(e) && IsLocal(e.program, c.func) && c.pc < |BodyOf(e.program, c.func).instructions|
    requires var body := BodyOf(e.program, c.func);
      e.machine.execute(body.instructions[c.pc], body.layout, c.base, c.store) == Ok(Call(g, gBase, table), s)
    ensures c.pc + 1 < |BodyOf(e.program, c.func).instructions|
  {
    var body := BodyOf(e.program, c.func);
    assert c.pc + 1 == |body.instructions| ==>
      LastExec(e.machine, body, c.base, c.store) == Ok(Call(g, gBase, table), s);
  }

  lemma CallKeepsKnown<L(!new), B(!new), S(!new)>(
    v: View<L, B, S>, e: Env<L, B, S>, known: Known<B, S>, c: Config<L, B, S>, g: nat, gBase: B, table: Option<nat>,
    s: S)
    requires Implements(v, e.machine) && Disciplined(v, e, known) && AllWhole(v, e, c) && AllKnown(v, known, c)
    requires IsLocal(e.program, c.func) && IsLocal(e.program, g) && c.pc < |BodyOf(e.program, c.func).instructions|
    requires known(c.func, c.pc, c.base, c.store) && c.instructions == BodyOf(e.program, c.func).instructions
    requires var body := BodyOf(e.program, c.func);
      e.machine.execute(body.instructions[c.pc], body.layout, c.base, c.store) == Ok(Call(g, gBase, table), s)
    ensures var frame := Frame(c.func, c.instructions, c.pc, c.base, c.layout, c.offsets, ResultCount(e.program, g), g,
      table);
      AllKnown(v, known, EnterConfig(e, c.frames + [frame], g, gBase, s))
  {
    var body, ty := BodyOf(e.program, g), e.program.signatures[g];
    var frame := Frame(c.func, c.instructions, c.pc, c.base, c.layout, c.offsets, ResultCount(e.program, g), g, table);
    var c' := EnterConfig(e, c.frames + [frame], g, gBase, s);
    var k := |c.frames|;
    assert WholeAt(v, e, c, k, c.store);
    assert StepDisciplined(v, e, known, c.func, c.pc, c.base, c.store);
    assert EnterLaw(v, e.machine, body, ty, gBase, s);
    assert EntersKnown(v, e, known, g, gBase, s);
    KeepsLower(v, v.baseOf(gBase), v.baseOf(gBase) + |ty.params|, s, c'.store);
    KeepsLower(v, v.baseOf(c.base), v.baseOf(gBase), s, c'.store);
    KeepsTrans(v, v.baseOf(c.base), c.store, s, c'.store);
    SuspendedResume(v, e, known, c, c'.store);
    CallsNotLast(e, c, g, gBase, table, s);
    ResumesStill(v, known, c.func, c.pc, c.base, v.baseOf(gBase), ResultCount(e.program, g), s, c'.store);
    forall i | 0 <= i <= k
      ensures ResumesAt(v, known, c', i, c'.store)
    {
      if i < k {
        assert ResumesAt(v, known, c, i, c'.store);
        assert c'.frames[i] == c.frames[i] && BaseAt(c', i + 1) == BaseAt(c, i + 1);
      }
    }
  }

  lemma StepKeepsKnown<L(!new), B(!new), S(!new)>(
    v: View<L, B, S>, e: Env<L, B, S>, known: Known<B, S>, entry: nat, c: Config<L, B, S>)
    requires OffsetsParallel(e.program) && Implements(v, e.machine) && Disciplined(v, e, known)
    requires IsLocal(e.program, entry) && Sound(v, e, known, entry, c) && ConfigParallel(c)
    ensures var r := FrameStep(e, entry, ResultCount(e.program, entry), c);
      r.Running? ==> AllKnown(v, known, r.config)
  {
    hide Implements, Disciplined, AllWhole, AllKnown, CallChain, FrameOk, Keeps, FrameAdvance, EnterConfig;
    if c.pc < |c.instructions| {
      NextIsDisciplined(v, e, known, entry, c);
      var x := e.machine.execute(c.instructions[c.pc], c.layout, c.base, c.store);
      if ReportsCall(x) {
        if IsLocal(e.program, x.step.callee) {
          CallKeepsKnown(v, e, known, c, x.step.callee, x.step.base, x.step.table, x.store);
        }
      } else if x.Ok? {
        AdvanceKeepsKnown(v, e, known, entry, c, if x.step.Next? then c.pc + 1 else x.step.target, x.store);
      }
    }
  }

  lemma StepKeepsSound<L(!new), B(!new), S(!new)>(
    v: View<L, B, S>, e: Env<L, B, S>, known: Known<B, S>, entry: nat, c: Config<L, B, S>)
    requires OffsetsParallel(e.program) && Implements(v, e.machine) && Disciplined(v, e, known)
    requires IsLocal(e.program, entry) && Sound(v, e, known, entry, c) && ConfigParallel(c)
    ensures var r := FrameStep(e, entry, ResultCount(e.program, entry), c);
      r.Running? ==> Sound(v, e, known, entry, r.config)
  {
    hide AllWhole, AllKnown, Implements, Disciplined, FrameStep;
    StepKeepsWhole(v, e, known, entry, c);
    StepKeepsKnown(v, e, known, entry, c);
    StepKeepsChain(e, entry, c);
  }

  /** The state in which a run begins. */
  lemma EntrySound<L(!new), B(!new), S(!new)>(
    v: View<L, B, S>, e: Env<L, B, S>, known: Known<B, S>, f: nat, base: B, store: S)
    requires Implements(v, e.machine) && Disciplined(v, e, known)
    requires IsLocal(e.program, f) && v.staged(e.program.signatures[f], base, store)
    ensures Sound(v, e, known, f, EnterConfig(e, [], f, base, store))
  {
    var c := EnterConfig(e, [], f, base, store);
    assert EnterLaw(v, e.machine, BodyOf(e.program, f), e.program.signatures[f], base, store);
    assert EntersKnown(v, e, known, f, base, store);
    assert WholeAt(v, e, c, 0, c.store);
  }

  /**
   In every state of every run, on any store that implements the convention, every activation
   on the call stack is intact and based at or above its caller's operands, the running one is
   in a state that validation admits, and each of the others will be when it resumes.
   */
  lemma DriverKeepsWhole<L(!new), B(!new), S(!new)>(
    v: View<L, B, S>, e: Env<L, B, S>, known: Known<B, S>, n: nat, f: nat, base: B, store: S)
    requires OffsetsParallel(e.program) && Implements(v, e.machine) && Disciplined(v, e, known)
    requires IsLocal(e.program, f) && v.staged(e.program.signatures[f], base, store)
    ensures var r := FrameDriver(e, n, f, base, store);
      r.Running? ==> CallChain(e, f, r.config) && AllWhole(v, e, r.config) && AllKnown(v, known, r.config)
  {
    hide AllWhole, AllKnown, Implements, Disciplined, FrameStep, EnterConfig;
    var c := EnterConfig(e, [], f, base, store);
    var results := ResultCount(e.program, f);
    EntrySound(v, e, known, f, base, store);
    forall d | ConfigParallel(d) && Sound(v, e, known, f, d) && FrameStep(e, f, results, d).Running?
      ensures Sound(v, e, known, f, FrameStep(e, f, results, d).config)
    {
      StepKeepsSound(v, e, known, f, d);
    }
    RunInduction(e, f, results, n, c, d => Sound(v, e, known, f, d));
  }

  // ------------------------------------------------------------------ no run panics

  /** In a state validation admits, the instruction does not panic and calls only functions that are there. */
  ghost predicate StepSafe<L, B, S>(
    v: View<L, B, S>, e: Env<L, B, S>, known: Known<B, S>, panic: ExecError, f: nat, pc: nat, b: B, s: S)
    requires IsLocal(e.program, f) && pc < |BodyOf(e.program, f).instructions|
  {
    var body := BodyOf(e.program, f);
    FrameOk(v, body, b, s) && known(f, pc, b, s) ==>
      match e.machine.execute(body.instructions[pc], body.layout, b, s)
      case Trap(err, _) => err != panic
      case Ok(Call(g, _, _), _) => IsLocal(e.program, g)
      case _ => true
  }

  ghost predicate AllSafe<L, B(!new), S(!new)>(
    v: View<L, B, S>, e: Env<L, B, S>, known: Known<B, S>, panic: ExecError)
  {
    && !panic.CallStackExhausted?
    && (forall f: nat :: IsLocal(e.program, f) ==> BodyOf(e.program, f).instructions != [])
    && forall f: nat, pc: nat, b, s :: IsLocal(e.program, f) && pc < |BodyOf(e.program, f).instructions| ==>
        StepSafe(v, e, known, panic, f, pc, b, s)
  }

  /** The run has not panicked, and is within the running function's body if it goes on. */
  ghost predicate Unharmed<L, B, S>(r: Run<L, B, S>, panic: ExecError) {
    match r
    case Running(c) => c.pc < |c.instructions|
    case Failed(trace, _) => trace != [] && trace[0].kind.NonCall? && trace[0].kind.err != panic
    case Finished(_) => true
    case Crashed(_) => false
  }

  lemma StepUnharmed<L(!new), B(!new), S(!new)>(
    v: View<L, B, S>, e: Env<L, B, S>, known: Known<B, S>, panic: ExecError, entry: nat, c: Config<L, B, S>)
    requires OffsetsParallel(e.program) && Implements(v, e.machine) && Disciplined(v, e, known)
    requires AllSafe(v, e, known, panic) && IsLocal(e.program, entry)
    requires Sound(v, e, known, entry, c) && ConfigParallel(c) && c.pc < |c.instructions|
    ensures Unharmed(FrameStep(e, entry, ResultCount(e.program, entry), c), panic)
  {
    hide AllKnown, Implements, CallChain, FrameTrace;
    var results := ResultCount(e.program, entry);
    RunningIs(v, e, known, entry, c);
    assert StepDisciplined(v, e, known, c.func, c.pc, c.base, c.store);
    assert StepSafe(v, e, known, panic, c.func, c.pc, c.base, c.store);
    var x := e.machine.execute(c.instructions[c.pc], c.layout, c.base, c.store);
    match x
    case Trap(err, s) => TraceHead(entry, c.frames, err, c.pc, c.offsets[c.pc]);
    case Ok(Next, s) => AdvanceUnharmed(v, e, known, panic, entry, c, c.pc + 1, s);
    case Ok(JumpTo(t), s) => AdvanceUnharmed(v, e, known, panic, entry, c, t, s);
    case Ok(Call(g, gBase, _), s) =>
      TraceHead(entry, c.frames, CallStackExhausted(e.maxDepth), c.pc, c.offsets[c.pc]);
  }

  lemma TraceHead<L, B>(entry: nat, frames: seq<Frame<L, B>>, err: ExecError, pc: nat, offset: nat)
    requires FramesParallel(frames)
    ensures var trace := FrameTrace(entry, frames, err, pc, offset);
      trace != [] && trace[0].kind == NonCall(err)
  {
  }

  /** What is known of the running activation. */
  lemma RunningIs<L, B, S(!new)>(
    v: View<L, B, S>, e: Env<L, B, S>, known: Known<B, S>, entry: nat, c: Config<L, B, S>)
    requires Sound(v, e, known, entry, c)
    ensures IsLocal(e.program, c.func) && FrameOk(v, BodyOf(e.program, c.func), c.base, c.store)
    ensures c.layout == BodyOf(e.program, c.func).layout && c.instructions == BodyOf(e.program, c.func).instructions
    ensures c.pc < |c.instructions| ==> known(c.func, c.pc, c.base, c.store)
  {
    hide FrameOk;
    CalleeOnTop(v, e, entry, c);
    assert WholeAt(v, e, c, |c.frames|, c.store);
  }

  lemma AdvanceUnharmed<L(!new), B(!new), S(!new)>(
    v: View<L, B, S>, e: Env<L, B, S>, known: Known<B, S>, panic: ExecError, entry: nat, c: Config<L, B, S>, pc: nat,
    s: S)
    requires Disciplined(v, e, known) && AllSafe(v, e, known, panic) && IsLocal(e.program, entry)
    requires Sound(v, e, known, entry, c) && IsLocal(e.program, c.func)
    requires c.instructions == BodyOf(e.program, c.func).instructions && pc <= |c.instructions|
    ensures Unharmed(FrameAdvance(e, ResultCount(e.program, entry), c.(pc := pc, store := s)), panic)
  {
    hide AllSafe, Disciplined, AllWhole, Resumes, CallChain;
    if pc == |c.instructions| && c.frames != [] {
      assert ResumesAt(v, known, c, |c.frames| - 1, c.store);
    }
  }

  /** As long as the state is sound and within its body, the run is unharmed. */
  lemma {:induction false} RunUnharmed<L(!new), B(!new), S(!new)>(
    v: View<L, B, S>, e: Env<L, B, S>, known: Known<B, S>, panic: ExecError, entry: nat, n: nat, c: Config<L, B, S>)
    requires OffsetsParallel(e.program) && Implements(v, e.machine) && Disciplined(v, e, known)
    requires AllSafe(v, e, known, panic) && IsLocal(e.program, entry)
    requires Sound(v, e, known, entry, c) && ConfigParallel(c) && c.pc < |c.instructions|
    ensures Unharmed(FrameRun(e, entry, ResultCount(e.program, entry), n, c), panic)
    decreases n
  {
    hide Sound, FrameStep, Implements, Disciplined, AllSafe;
    if n != 0 {
      var results := ResultCount(e.program, entry);
      StepKeepsParallel(e, entry, results, c);
      StepUnharmed(v, e, known, panic, entry, c);
      var r := FrameStep(e, entry, results, c);
      if r.Running? {
        StepKeepsSound(v, e, known, entry, c);
        RunUnharmed(v, e, known, panic, entry, n - 1, r.config);
      }
    }
  }

  /** An end that is not a panic, neither as the outcome nor as the cause reported. */
  ghost predicate NoPanic<S>(final: Final<S>, panic: ExecError) {
    match final
    case Completed(_) => true
    case Error(trace, _) => trace != [] && trace[0].kind.NonCall? && trace[0].kind.err != panic
    case Panic(_) => false
  }

  /**
   No run panics: on a store that implements the convention, with instructions that keep to it and
   do not panic in the states validation admits, neither driver does, whatever the run.
   */
  lemma RunsDoNotPanic<L(!new), B(!new), S(!new)>(
    v: View<L, B, S>, e: Env<L, B, S>, known: Known<B, S>, panic: ExecError, f: nat, base: B, store: S, final: Final<S>)
    requires OffsetsParallel(e.program) && Implements(v, e.machine) && Disciplined(v, e, known)
    requires AllSafe(v, e, known, panic)
    requires IsLocal(e.program, f) && v.staged(e.program.signatures[f], base, store)
    requires Ends(e, f, base, store, final)
    ensures NoPanic(final, panic)
  {
    hide Sound, Implements, StepDisciplined, StepSafe, NativeCall, FrameRun;
    DriversAgree(e, f, base, store, final);
    var n: nat :| FrameFinal(FrameDriver(e, n, f, base, store)) == Some(final);
    EntrySound(v, e, known, f, base, store);
    RunUnharmed(v, e, known, panic, f, n, EnterConfig(e, [], f, base, store));
  }
}
