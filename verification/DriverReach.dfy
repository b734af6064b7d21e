/**
 The states the two drivers pass through.  The recursive driver keeps its suspended callers on the
 native stack and the other in a list of frames; written down the same way, the states that one
 reaches are the states that the other reaches, and in each of them the callers are a chain of real
 calls within the configured depth.
 */
module DriverReach {
  import opened Values
  import opened Drivers
  import opened DriverAgreement
  import opened DriverTraces

  /**
   The recursive driver, started at `pc` of `f` below the suspended callers `frames`, comes to
   state `c` within `fuel` instructions.
   */
  ghost predicate LoopReaches<L, B, S>(e: Env<L, B, S>, fuel: nat, frames: seq<Frame<L, B>>, f: nat, pc: nat, base: B,
    store: S, c: Config<L, B, S>)
    requires OffsetsParallel(e.program) && IsLocal(e.program, f)
    decreases fuel, 0
  {
    var body := BodyOf(e.program, f);
    || c == ConfigAt(e, frames, f, pc, base, store)
    || (0 < fuel && pc < |body.instructions|
        && match e.machine.execute(body.instructions[pc], body.layout, base, store)
           case Trap(_, _) => false
           case Ok(Next, s) => AdvanceReaches(e, fuel - 1, frames, f, pc + 1, base, s, c)
           case Ok(JumpTo(t), s) => AdvanceReaches(e, fuel - 1, frames, f, t, base, s, c)
           case Ok(Call(g, gBase, table), s) =>
             && |frames| + 1 < e.maxDepth && IsLocal(e.program, g)
             && CallReaches(e, fuel - 1, frames, f, pc, base, g, gBase, table, s, c))
  }

  /** After the foot of the loop. */
  ghost predicate AdvanceReaches<L, B, S>(e: Env<L, B, S>, fuel: nat, frames: seq<Frame<L, B>>, f: nat, pc: nat,
    base: B, store: S, c: Config<L, B, S>)
    requires OffsetsParallel(e.program) && IsLocal(e.program, f)
    decreases fuel, 1
  {
    pc != |BodyOf(e.program, f).instructions| && LoopReaches(e, fuel, frames, f, pc, base, store, c)
  }

  /** From a call: within the callee, or after it has returned. */
  ghost predicate CallReaches<L, B, S>(e: Env<L, B, S>, fuel: nat, frames: seq<Frame<L, B>>, f: nat, pc: nat, base: B,
    g: nat, gBase: B, table: Option<nat>, s: S, c: Config<L, B, S>)
    requires OffsetsParallel(e.program) && IsLocal(e.program, f) && IsLocal(e.program, g)
    decreases fuel, 2
  {
    var entered := EnterConfig(e, frames + [SavedFrame(e, f, pc, base, g, table)], g, gBase, s);
    var r := NativeCall(e, fuel, g, gBase, s, |frames| + 1);
    || LoopReaches(e, fuel, entered.frames, g, 0, entered.base, entered.store, c)
    || (r.Returned? && AdvanceReaches(e, fuel, frames, f, pc + 1, base, r.store, c))
  }

  /** The states of a whole run of the recursive driver. */
  ghost predicate NativeReaches<L, B, S>(
    e: Env<L, B, S>, f: nat, base: B, store: S, c: Config<L, B, S>)
    requires OffsetsParallel(e.program)
  {
    && IsLocal(e.program, f)
    && var start := EnterConfig(e, [], f, base, store);
      exists fuel: nat :: LoopReaches(e, fuel, [], f, 0, start.base, start.store, c)
  }

  /** The states of a whole run of the explicit driver. */
  ghost predicate FrameReaches<L, B, S>(
    e: Env<L, B, S>, f: nat, base: B, store: S, c: Config<L, B, S>)
    requires OffsetsParallel(e.program)
  {
    exists n: nat :: FrameDriver(e, n, f, base, store) == Running(c)
  }

  // ------------------------------------------------------------------ the depth limit

  lemma {:induction false} LoopKeepsChain<L, B, S>(
    e: Env<L, B, S>, entry: nat, fuel: nat, frames: seq<Frame<L, B>>, f: nat, pc: nat, base: B, store: S,
    c: Config<L, B, S>)
    requires OffsetsParallel(e.program) && IsLocal(e.program, f)
    requires CallChain(e, entry, ConfigAt(e, frames, f, pc, base, store))
    requires LoopReaches(e, fuel, frames, f, pc, base, store, c)
    ensures CallChain(e, entry, c)
    decreases fuel, 0
  {
    hide Suspended, NativeCall;
    var body := BodyOf(e.program, f);
    var here := ConfigAt(e, frames, f, pc, base, store);
    if c != here {
      match e.machine.execute(body.instructions[pc], body.layout, base, store)
      case Ok(Next, s) =>
        ElsewhereInFrame(e, entry, frames, f, pc, base, store, pc + 1, s);
        LoopKeepsChain(e, entry, fuel - 1, frames, f, pc + 1, base, s, c);
      case Ok(JumpTo(t), s) =>
        ElsewhereInFrame(e, entry, frames, f, pc, base, store, t, s);
        LoopKeepsChain(e, entry, fuel - 1, frames, f, t, base, s, c);
      case Ok(Call(g, gBase, table), s) =>
        CallKeepsItsChain(e, entry, fuel - 1, frames, f, pc, base, store, g, gBase, table, s, c);
    }
  }

  lemma {:induction false} CallKeepsItsChain<L, B, S>(
    e: Env<L, B, S>, entry: nat, fuel: nat, frames: seq<Frame<L, B>>, f: nat, pc: nat, base: B, store: S,
    g: nat, gBase: B, table: Option<nat>, s: S, c: Config<L, B, S>)
    requires OffsetsParallel(e.program)
    requires EntersCallee(e, f, pc, base, store, |frames| + 1, g, gBase, table, s)
    requires CallChain(e, entry, ConfigAt(e, frames, f, pc, base, store))
    requires CallReaches(e, fuel, frames, f, pc, base, g, gBase, table, s, c)
    ensures CallChain(e, entry, c)
    decreases fuel, 1
  {
    hide Suspended, NativeCall, CallChain, LoopReaches;
    var here := ConfigAt(e, frames, f, pc, base, store);
    var entered := EnterConfig(e, frames + [SavedFrame(e, f, pc, base, g, table)], g, gBase, s);
    if LoopReaches(e, fuel, entered.frames, g, 0, entered.base, entered.store, c) {
      PushKeepsChain(e, entry, here, g, gBase, table, s);
      assert entered == ConfigAt(e, entered.frames, g, 0, entered.base, entered.store);
      LoopKeepsChain(e, entry, fuel, entered.frames, g, 0, entered.base, entered.store, c);
    } else {
      var s' := NativeCall(e, fuel, g, gBase, s, |frames| + 1).store;
      ElsewhereInFrame(e, entry, frames, f, pc, base, store, pc + 1, s');
      LoopKeepsChain(e, entry, fuel, frames, f, pc + 1, base, s', c);
    }
  }

  /** The chain does not depend on where the running function stands. */
  lemma ElsewhereInFrame<L, B, S>(e: Env<L, B, S>, entry: nat, frames: seq<Frame<L, B>>, f: nat, pc: nat, base: B,
    store: S, pc': nat, store': S)
    requires IsLocal(e.program, f) && CallChain(e, entry, ConfigAt(e, frames, f, pc, base, store))
    ensures CallChain(e, entry, ConfigAt(e, frames, f, pc', base, store'))
  {
    var c, c' := ConfigAt(e, frames, f, pc, base, store), ConfigAt(e, frames, f, pc', base, store');
    assert forall i :: 0 <= i <= |frames| ==> FuncAt(c, i) == FuncAt(c', i);
  }

  /**
   The recursive driver, in every state of every run, whether or not it ends and however: its
   suspended callers are a chain of real calls from the entry function, never more than the limit
   allows.
   */
  lemma NativeDriverInvariant<L, B, S>(e: Env<L, B, S>, f: nat, base: B, store: S, c: Config<L, B, S>)
    requires OffsetsParallel(e.program) && NativeReaches(e, f, base, store, c)
    ensures CallChain(e, f, c)
  {
    var start := EnterConfig(e, [], f, base, store);
    var fuel: nat :| LoopReaches(e, fuel, [], f, 0, start.base, start.store, c);
    LoopKeepsChain(e, f, fuel, [], f, 0, start.base, start.store, c);
  }

  // ------------------------------------------------------------------ the same states

  /** A state of the recursive driver, reached by the other. */
  lemma {:induction false} ReachedByFrames<L, B(!new), S(!new)>(
    e: Env<L, B, S>, entry: nat, fuel: nat, frames: seq<Frame<L, B>>, f: nat, pc: nat, base: B, store: S,
    c: Config<L, B, S>)
    returns (n: nat)
    requires OffsetsParallel(e.program) && NeverCallsLast(e) && Awaits(e, entry, frames, f)
    requires LoopReaches(e, fuel, frames, f, pc, base, store, c)
    ensures FrameRun(e, entry, ResultCount(e.program, entry), n, ConfigAt(e, frames, f, pc, base, store)) == Running(c)
    decreases fuel, 0
  {
    hide NativeCall, NeverCallsLast;
    var body := BodyOf(e.program, f);
    var here := ConfigAt(e, frames, f, pc, base, store);
    n := 0;
    if c != here {
      match e.machine.execute(body.instructions[pc], body.layout, base, store)
      case Ok(Next, s) =>
        n := ReachedByFrames(e, entry, fuel - 1, frames, f, pc + 1, base, s, c);
        OneMore(e, entry, ResultCount(e.program, entry), n, here);
        n := n + 1;
      case Ok(JumpTo(t), s) =>
        n := ReachedByFrames(e, entry, fuel - 1, frames, f, t, base, s, c);
        OneMore(e, entry, ResultCount(e.program, entry), n, here);
        n := n + 1;
      case Ok(Call(g, gBase, table), s) =>
        n := ReachedThroughCall(e, entry, fuel - 1, frames, f, pc, base, store, g, gBase, table, s, c);
    }
  }

  lemma {:induction false} ReachedThroughCall<L, B(!new), S(!new)>(
    e: Env<L, B, S>, entry: nat, fuel: nat, frames: seq<Frame<L, B>>, f: nat, pc: nat, base: B, store: S,
    g: nat, gBase: B, table: Option<nat>, s: S, c: Config<L, B, S>)
    returns (n: nat)
    requires OffsetsParallel(e.program) && NeverCallsLast(e) && Awaits(e, entry, frames, f)
    requires EntersCallee(e, f, pc, base, store, |frames| + 1, g, gBase, table, s)
    requires CallReaches(e, fuel, frames, f, pc, base, g, gBase, table, s, c)
    ensures FrameRun(e, entry, ResultCount(e.program, entry), n, ConfigAt(e, frames, f, pc, base, store)) == Running(c)
    decreases fuel, 1
  {
    hide NeverCallsLast, LoopReaches, FrameRun;
    var results := ResultCount(e.program, entry);
    var here := ConfigAt(e, frames, f, pc, base, store);
    var frames' := frames + [SavedFrame(e, f, pc, base, g, table)];
    var entered := EnterConfig(e, frames', g, gBase, s);
    StepEntersCallee(e, entry, f, pc, base, store, frames, g, gBase, table, s, 0);
    if LoopReaches(e, fuel, frames', g, 0, entered.base, entered.store, c) {
      n := ReachedByFrames(e, entry, fuel, frames', g, 0, entered.base, entered.store, c);
      StepEntersCallee(e, entry, f, pc, base, store, frames, g, gBase, table, s, n);
      n := 1 + n;
    } else {
      var r := NativeCall(e, fuel, g, gBase, s, |frames| + 1);
      assert r == NativeLoop(e, fuel, g, 0, entered.base, entered.store, |frames'| + 1);
      var m := SimulateLoop(e, entry, fuel, g, 0, entered.base, entered.store, frames');
      StepEntersCallee(e, entry, f, pc, base, store, frames, g, gBase, table, s, m);
      assert frames'[..|frames|] == frames;
      assert AfterReturn(frames', r.store) == Running(ConfigAt(e, frames, f, pc + 1, base, r.store));
      var k := ReachedByFrames(e, entry, fuel, frames, f, pc + 1, base, r.store, c);
      RunSplit(e, entry, results, 1 + m, k, here);
      n := 1 + m + k;
    }
  }

  /** `k` iterations from where the explicit driver stands once the running function has returned `s` lead to `c`. */
  ghost predicate AfterReturnReaches<L, B, S>(
    e: Env<L, B, S>, entry: nat, frames: seq<Frame<L, B>>, s: S, k: nat, c: Config<L, B, S>)
    requires OffsetsParallel(e.program) && IsLocal(e.program, entry) && FramesParallel(frames)
  {
    RunOn(e, entry, ResultCount(e.program, entry), k, AfterReturn(frames, s)) == Running(c)
  }

  /**
   A state of the explicit driver: reached by the other, in this activation or one below it; or
   reached only after this activation has returned, with fewer iterations to go.
   */
  lemma {:induction false} ReachedByCalls<L, B(!new), S(!new)>(
    e: Env<L, B, S>, entry: nat, n: nat, fuel: nat, frames: seq<Frame<L, B>>, f: nat, pc: nat, base: B, store: S,
    c: Config<L, B, S>)
    returns (k: nat)
    requires OffsetsParallel(e.program) && NeverCallsLast(e) && Awaits(e, entry, frames, f) && n <= fuel
    requires FrameRun(e, entry, ResultCount(e.program, entry), n, ConfigAt(e, frames, f, pc, base, store)) == Running(c)
    ensures var r := NativeLoop(e, fuel, f, pc, base, store, |frames| + 1);
      || LoopReaches(e, fuel, frames, f, pc, base, store, c)
      || (r.Returned? && k < n && AfterReturnReaches(e, entry, frames, r.store, k, c))
    decreases n, 0
  {
    hide NeverCallsLast, AdvanceReaches, NativeAdvance, FrameAdvance, AfterReturnReaches;
    var body := BodyOf(e.program, f);
    var here := ConfigAt(e, frames, f, pc, base, store);
    k := 0;
    if n != 0 {
      OneMore(e, entry, ResultCount(e.program, entry), n - 1, here);
      if pc < |body.instructions| {
        match e.machine.execute(body.instructions[pc], body.layout, base, store)
        case Trap(_, _) =>
        case Ok(Next, s) =>
          k := ReachedByAdvance(e, entry, n - 1, fuel - 1, frames, f, pc + 1, base, s, c);
        case Ok(JumpTo(t), s) =>
          k := ReachedByAdvance(e, entry, n - 1, fuel - 1, frames, f, t, base, s, c);
        case Ok(Call(g, gBase, table), s) =>
          if |frames| + 1 < e.maxDepth && IsLocal(e.program, g) {
            k := ReachedFromCall(e, entry, n, fuel, frames, f, pc, base, store, g, gBase, table, s, c);
          }
      }
    }
  }

  lemma {:induction false} ReachedByAdvance<L, B(!new), S(!new)>(
    e: Env<L, B, S>, entry: nat, n: nat, fuel: nat, frames: seq<Frame<L, B>>, f: nat, pc: nat, base: B, s: S,
    c: Config<L, B, S>)
    returns (k: nat)
    requires OffsetsParallel(e.program) && NeverCallsLast(e) && Awaits(e, entry, frames, f) && n <= fuel
    requires var results := ResultCount(e.program, entry);
      RunOn(e, entry, results, n, FrameAdvance(e, results, ConfigAt(e, frames, f, pc, base, s))) == Running(c)
    ensures var r := NativeAdvance(e, fuel, f, pc, base, s, |frames| + 1);
      || AdvanceReaches(e, fuel, frames, f, pc, base, s, c)
      || (r.Returned? && k <= n && AfterReturnReaches(e, entry, frames, r.store, k, c))
    decreases n, 1
  {
    hide NeverCallsLast, FrameRun, NativeLoop, LoopReaches;
    k := n;
    if pc != |BodyOf(e.program, f).instructions| {
      k := ReachedByCalls(e, entry, n, fuel, frames, f, pc, base, s, c);
    }
  }

  lemma {:induction false} ReachedFromCall<L, B(!new), S(!new)>(
    e: Env<L, B, S>, entry: nat, n: nat, fuel: nat, frames: seq<Frame<L, B>>, f: nat, pc: nat, base: B, store: S,
    g: nat, gBase: B, table: Option<nat>, s: S, c: Config<L, B, S>)
    returns (k: nat)
    requires OffsetsParallel(e.program) && NeverCallsLast(e) && Awaits(e, entry, frames, f) && 0 < n <= fuel
    requires EntersCallee(e, f, pc, base, store, |frames| + 1, g, gBase, table, s)
    requires FrameRun(e, entry, ResultCount(e.program, entry), n, ConfigAt(e, frames, f, pc, base, store)) == Running(c)
    ensures var r := NativeLoop(e, fuel, f, pc, base, store, |frames| + 1);
      || LoopReaches(e, fuel, frames, f, pc, base, store, c)
      || (r.Returned? && k < n && AfterReturnReaches(e, entry, frames, r.store, k, c))
    decreases n - 1, 2
  {
    hide NeverCallsLast, FrameRun, NativeLoop, LoopReaches;
    var frames' := frames + [SavedFrame(e, f, pc, base, g, table)];
    var entered := EnterConfig(e, frames', g, gBase, s);
    StepEntersCallee(e, entry, f, pc, base, store, frames, g, gBase, table, s, n - 1);
    k := ReachedByCalls(e, entry, n - 1, fuel - 1, frames', g, 0, entered.base, entered.store, c);
    if LoopReaches(e, fuel - 1, frames', g, 0, entered.base, entered.store, c) {
      EntersLoop(e, fuel, frames, f, pc, base, store, g, gBase, table, s, c);
    } else {
      var r := NativeCall(e, fuel - 1, g, gBase, s, |frames| + 1);
      assert r == NativeLoop(e, fuel - 1, g, 0, entered.base, entered.store, |frames'| + 1);
      assert frames'[..|frames|] == frames;
      assert AfterReturn(frames', r.store) == Running(ConfigAt(e, frames, f, pc + 1, base, r.store));
      ResumesInLoop(e, fuel, f, pc, base, store, |frames| + 1, g, gBase, table, s);
      k := ReachedByCalls(e, entry, k, fuel - 1, frames, f, pc + 1, base, r.store, c);
      if LoopReaches(e, fuel - 1, frames, f, pc + 1, base, r.store, c) {
        EntersLoop(e, fuel, frames, f, pc, base, store, g, gBase, table, s, c);
      }
    }
  }

  /** A call that reaches a state, as part of its caller's run. */
  lemma EntersLoop<L, B(!new), S(!new)>(
    e: Env<L, B, S>, fuel: nat, frames: seq<Frame<L, B>>, f: nat, pc: nat, base: B, store: S,
    g: nat, gBase: B, table: Option<nat>, s: S, c: Config<L, B, S>)
    requires OffsetsParallel(e.program) && NeverCallsLast(e) && 0 < fuel
    requires EntersCallee(e, f, pc, base, store, |frames| + 1, g, gBase, table, s)
    requires var entered := EnterConfig(e, frames + [SavedFrame(e, f, pc, base, g, table)], g, gBase, s);
      var r := NativeCall(e, fuel - 1, g, gBase, s, |frames| + 1);
      || LoopReaches(e, fuel - 1, entered.frames, g, 0, entered.base, entered.store, c)
      || (r.Returned? && LoopReaches(e, fuel - 1, frames, f, pc + 1, base, r.store, c))
    ensures LoopReaches(e, fuel, frames, f, pc, base, store, c)
  {
    hide NativeCall;
    var body := BodyOf(e.program, f);
    assert pc + 1 == |body.instructions| ==> LastExec(e.machine, body, base, store) == Ok(Call(g, gBase, table), s);
    assert CallReaches(e, fuel - 1, frames, f, pc, base, g, gBase, table, s, c);
  }

  /**
   The drivers agree on every state of every run, of those that never end too: same function and
   place, same store, and the same suspended callers.
   */
  lemma DriversReachTheSame<L, B(!new), S(!new)>(e: Env<L, B, S>, f: nat, base: B, store: S, c: Config<L, B, S>)
    requires OffsetsParallel(e.program) && NeverCallsLast(e)
    ensures NativeReaches(e, f, base, store, c) <==> FrameReaches(e, f, base, store, c)
  {
    hide LoopReaches, FrameRun, NeverCallsLast;
    if IsLocal(e.program, f) {
      var start := EnterConfig(e, [], f, base, store);
      if NativeReaches(e, f, base, store, c) {
        var fuel: nat :| LoopReaches(e, fuel, [], f, 0, start.base, start.store, c);
        var n := ReachedByFrames(e, f, fuel, [], f, 0, start.base, start.store, c);
        assert FrameDriver(e, n, f, base, store) == Running(c);
      }
      if FrameReaches(e, f, base, store, c) {
        var n: nat :| FrameDriver(e, n, f, base, store) == Running(c);
        var k := ReachedByCalls(e, f, n, n, [], f, 0, start.base, start.store, c);
        assert LoopReaches(e, n, [], f, 0, start.base, start.store, c);
      }
    }
  }
}
