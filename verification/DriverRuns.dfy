/**
 Runs of the recursive driver, one instruction at a time: how its loop gets from one point of an
 activation to another, whatever fuel it is given.
 */
module DriverRuns {
  import opened Values
  import opened Drivers
  import opened DriverAgreement

  ghost predicate LoopReturns<L, B, S>(
    e: Env<L, B, S>, m: nat, g: nat, pc: nat, b: B, s: S, depth: nat, t: S)
    requires OffsetsParallel(e.program) && IsLocal(e.program, g) && 1 <= depth
  {
    NativeLoop(e, m, g, pc, b, s, depth) == Returned(t, depth - 1)
  }

  ghost predicate LoopGoesOn<L, B, S>(e: Env<L, B, S>, m: nat, g: nat, pc: nat, b: B, s: S, depth: nat)
    requires OffsetsParallel(e.program) && IsLocal(e.program, g) && 1 <= depth
  {
    NativeLoop(e, m, g, pc, b, s, depth).OutOfFuel?
  }

  /** With one more unit of fuel the loop goes from one point to the next, unless what lies between is still running. */
  ghost predicate Unrolls<L, B, S>(
    e: Env<L, B, S>, m: nat, n: nat, g: nat, pc: nat, b: B, s: S, pc1: nat, s1: S, depth: nat)
    requires OffsetsParallel(e.program) && IsLocal(e.program, g) && 1 <= depth
  {
    || NativeLoop(e, m + 1, g, pc, b, s, depth) == NativeLoop(e, m, g, pc1, b, s1, depth)
    || (m < n && LoopGoesOn(e, m + 1, g, pc, b, s, depth))
  }

  ghost predicate AlwaysUnrolls<L, B, S>(
    e: Env<L, B, S>, n: nat, g: nat, pc: nat, b: B, s: S, pc1: nat, s1: S, depth: nat)
    requires OffsetsParallel(e.program) && IsLocal(e.program, g) && 1 <= depth
  {
    forall m: nat :: Unrolls(e, m, n, g, pc, b, s, pc1, s1, depth)
  }

  /** What the loop ends with from the next point it ends with from this one. */
  lemma Later<L, B, S>(
    e: Env<L, B, S>, m: nat, enough: nat, g: nat, pc: nat, b: B, s: S, pc1: nat, s1: S, depth: nat)
    returns (k: nat)
    requires OffsetsParallel(e.program) && IsLocal(e.program, g) && 1 <= depth
    requires AlwaysUnrolls(e, enough, g, pc, b, s, pc1, s1, depth)
    requires !NativeLoop(e, m, g, pc1, b, s1, depth).OutOfFuel?
    ensures NativeLoop(e, k, g, pc, b, s, depth) == NativeLoop(e, m, g, pc1, b, s1, depth)
  {
    hide NativeLoop;
    var j := if m < enough then enough else m;
    MoreFuelLoop(e, m, j, g, pc1, b, s1, depth);
    assert Unrolls(e, j, enough, g, pc, b, s, pc1, s1, depth);
    k := j + 1;
  }

  lemma GoesOnBefore<L, B, S>(
    e: Env<L, B, S>, upTo: nat, upTo1: nat, enough: nat, g: nat, pc: nat, b: B, s: S, pc1: nat, s1: S, depth: nat)
    requires OffsetsParallel(e.program) && IsLocal(e.program, g) && 1 <= depth && upTo <= upTo1 + 1
    requires AlwaysUnrolls(e, enough, g, pc, b, s, pc1, s1, depth)
    requires forall m: nat :: m <= upTo1 ==> LoopGoesOn(e, m, g, pc1, b, s1, depth)
    ensures forall m: nat :: m <= upTo ==> LoopGoesOn(e, m, g, pc, b, s, depth)
  {
    forall m: nat | m <= upTo ensures LoopGoesOn(e, m, g, pc, b, s, depth) {
      if m != 0 {
        assert Unrolls(e, m - 1, enough, g, pc, b, s, pc1, s1, depth);
        assert LoopGoesOn(e, m - 1, g, pc1, b, s1, depth);
      }
    }
  }

  lemma QuietUnrolls<L, B, S>(
    e: Env<L, B, S>, g: nat, pc: nat, b: B, s: S, pc1: nat, s1: S, depth: nat)
    requires OffsetsParallel(e.program) && IsLocal(e.program, g) && 1 <= depth
      && pc < |BodyOf(e.program, g).instructions|
    requires var body := BodyOf(e.program, g);
      var x := e.machine.execute(body.instructions[pc], body.layout, b, s);
      (x == Exec.Ok(Next, s1) && pc1 == pc + 1) || x == Exec.Ok(JumpTo(pc1), s1)
    ensures var body := BodyOf(e.program, g);
      if pc1 == |body.instructions| then
        LoopReturns(e, 1, g, pc, b, s, depth, e.machine.exit(ResultCount(e.program, g), b, body.layout, s1))
      else AlwaysUnrolls(e, 0, g, pc, b, s, pc1, s1, depth)
  {
    var body := BodyOf(e.program, g);
    if pc1 != |body.instructions| {
      forall m: nat ensures Unrolls(e, m, 0, g, pc, b, s, pc1, s1, depth) {
        assert NativeLoop(e, m + 1, g, pc, b, s, depth) == NativeAdvance(e, m, g, pc1, b, s1, depth);
      }
    }
  }

  /** The instruction at `pc` calls `h` at `hb`, one more activation being allowed. */
  ghost predicate CallsAt<L, B, S>(
    e: Env<L, B, S>, g: nat, pc: nat, b: B, s: S, depth: nat, h: nat, hb: B)
    requires IsLocal(e.program, g)
  {
    && depth < e.maxDepth && pc < |BodyOf(e.program, g).instructions|
    && var body := BodyOf(e.program, g);
      e.machine.execute(body.instructions[pc], body.layout, b, s) == Exec.Ok(Step.Call(h, hb, None), s)
  }

  lemma CallLoopIs<L, B, S>(
    e: Env<L, B, S>, m: nat, g: nat, pc: nat, b: B, s: S, depth: nat, h: nat, hb: B)
    requires OffsetsParallel(e.program) && IsLocal(e.program, g) && 1 <= depth && CallsAt(e, g, pc, b, s, depth, h, hb)
    ensures var r, loop := NativeCall(e, m, h, hb, s, depth), NativeLoop(e, m + 1, g, pc, b, s, depth);
      && (r.OutOfFuel? ==> loop.OutOfFuel?)
      && (r.Returned? && pc + 1 != |BodyOf(e.program, g).instructions| ==>
        loop == NativeLoop(e, m, g, pc + 1, b, r.store, depth))
  {
    hide NativeCall;
    if NativeCall(e, m, h, hb, s, depth).Returned? {
      assert NativeLoop(e, m + 1, g, pc, b, s, depth)
          == NativeAdvance(e, m, g, pc + 1, b, NativeCall(e, m, h, hb, s, depth).store, depth);
    }
  }

  lemma CallUnrolls<L, B, S>(
    e: Env<L, B, S>, n: nat, g: nat, pc: nat, b: B, s: S, depth: nat, h: nat, hb: B)
    requires OffsetsParallel(e.program) && IsLocal(e.program, g) && 1 <= depth && CallsAt(e, g, pc, b, s, depth, h, hb)
    requires NativeCall(e, n, h, hb, s, depth).Returned? && pc + 1 != |BodyOf(e.program, g).instructions|
    ensures AlwaysUnrolls(e, n, g, pc, b, s, pc + 1, NativeCall(e, n, h, hb, s, depth).store, depth)
  {
    hide NativeCall;
    var r := NativeCall(e, n, h, hb, s, depth);
    var pc1 := pc + 1;
    forall m: nat ensures Unrolls(e, m, n, g, pc, b, s, pc1, r.store, depth) {
      CallLoopIs(e, m, g, pc, b, s, depth, h, hb);
      if n <= m {
        MoreFuel(e, n, m, h, hb, s, depth);
      } else if !NativeCall(e, m, h, hb, s, depth).OutOfFuel? {
        MoreFuel(e, m, n, h, hb, s, depth);
      }
    }
  }

  lemma CallGoesOn<L, B, S>(
    e: Env<L, B, S>, fuel: nat, g: nat, pc: nat, b: B, s: S, depth: nat, h: nat, hb: B)
    requires OffsetsParallel(e.program) && IsLocal(e.program, g) && 1 <= depth && CallsAt(e, g, pc, b, s, depth, h, hb)
    requires forall m: nat :: m <= fuel ==> NativeCall(e, m, h, hb, s, depth).OutOfFuel?
    ensures forall m: nat :: m <= fuel ==> LoopGoesOn(e, m, g, pc, b, s, depth)
  {
    hide NativeCall;
    forall m: nat | m <= fuel ensures LoopGoesOn(e, m, g, pc, b, s, depth) {
      if m != 0 {
        assert NativeCall(e, m - 1, h, hb, s, depth).OutOfFuel?;
      }
    }
  }

  lemma NotYet<L, B, S>(e: Env<L, B, S>, g: nat, pc: nat, b: B, s: S, depth: nat)
    requires OffsetsParallel(e.program) && IsLocal(e.program, g) && 1 <= depth
    ensures LoopGoesOn(e, 0, g, pc, b, s, depth)
  {
  }

  /** A recursive run ends in one way. */
  lemma OneEnd<L, B, S>(e: Env<L, B, S>, g: nat, base: B, s: S, x: Final<S>, y: Final<S>)
    requires OffsetsParallel(e.program) && NativeEnds(e, g, base, s, x) && NativeEnds(e, g, base, s, y)
    ensures x == y
  {
    hide NativeCall;
    var m: nat :| NativeFinal(NativeCall(e, m, g, base, s, 0)) == Some(x);
    var n: nat :| NativeFinal(NativeCall(e, n, g, base, s, 0)) == Some(y);
    if m <= n {
      MoreFuel(e, m, n, g, base, s, 0);
    } else {
      MoreFuel(e, n, m, g, base, s, 0);
    }
  }

  // ------------------------------------------------------------------ any number of instructions

  /** The same over `k` instructions of the activation itself. */
  ghost predicate GetsWith<L, B, S>(
    e: Env<L, B, S>, m: nat, k: nat, enough: nat, g: nat, pc: nat, b: B, s: S, pc1: nat, s1: S, depth: nat)
    requires OffsetsParallel(e.program) && IsLocal(e.program, g) && 1 <= depth
  {
    || NativeLoop(e, m + k, g, pc, b, s, depth) == NativeLoop(e, m, g, pc1, b, s1, depth)
    || (m < enough && LoopGoesOn(e, m + k, g, pc, b, s, depth))
  }

  ghost predicate Gets<L, B, S>(
    e: Env<L, B, S>, k: nat, enough: nat, g: nat, pc: nat, b: B, s: S, pc1: nat, s1: S, depth: nat)
    requires OffsetsParallel(e.program) && IsLocal(e.program, g) && 1 <= depth
  {
    forall m: nat :: GetsWith(e, m, k, enough, g, pc, b, s, pc1, s1, depth)
  }

  lemma GetsNowhere<L, B, S>(e: Env<L, B, S>, g: nat, pc: nat, b: B, s: S, depth: nat)
    requires OffsetsParallel(e.program) && IsLocal(e.program, g) && 1 <= depth
    ensures Gets(e, 0, 0, g, pc, b, s, pc, s, depth)
  {
    hide NativeLoop;
  }

  lemma GetsOne<L, B, S>(
    e: Env<L, B, S>, enough: nat, g: nat, pc: nat, b: B, s: S, pc1: nat, s1: S, depth: nat)
    requires OffsetsParallel(e.program) && IsLocal(e.program, g) && 1 <= depth
    requires AlwaysUnrolls(e, enough, g, pc, b, s, pc1, s1, depth)
    ensures Gets(e, 1, enough, g, pc, b, s, pc1, s1, depth)
  {
    hide NativeLoop;
    forall m: nat ensures GetsWith(e, m, 1, enough, g, pc, b, s, pc1, s1, depth) {
      assert Unrolls(e, m, enough, g, pc, b, s, pc1, s1, depth);
    }
  }

  lemma GetsThrough<L, B, S>(
    e: Env<L, B, S>, k: nat, enough: nat, k': nat, enough': nat, g: nat, pc: nat, b: B, s: S, pc1: nat, s1: S,
    pc2: nat, s2: S, depth: nat)
    requires OffsetsParallel(e.program) && IsLocal(e.program, g) && 1 <= depth
    requires Gets(e, k, enough, g, pc, b, s, pc1, s1, depth) && Gets(e, k', enough', g, pc1, b, s1, pc2, s2, depth)
    ensures Gets(e, k + k', enough + enough', g, pc, b, s, pc2, s2, depth)
  {
    hide NativeLoop;
    var both, most := k + k', enough + enough';
    forall m: nat ensures GetsWith(e, m, both, most, g, pc, b, s, pc2, s2, depth) {
      assert GetsWith(e, m + k', k, enough, g, pc, b, s, pc1, s1, depth);
      assert GetsWith(e, m, k', enough', g, pc1, b, s1, pc2, s2, depth);
      assert m + k' + k == m + both;
    }
  }

  /** What the loop ends with from a later point it ends with from this one. */
  lemma EndsFrom<L, B, S>(
    e: Env<L, B, S>, m: nat, k: nat, enough: nat, g: nat, pc: nat, b: B, s: S, pc1: nat, s1: S, depth: nat)
    returns (n: nat)
    requires OffsetsParallel(e.program) && IsLocal(e.program, g) && 1 <= depth
    requires Gets(e, k, enough, g, pc, b, s, pc1, s1, depth)
    requires !NativeLoop(e, m, g, pc1, b, s1, depth).OutOfFuel?
    ensures NativeLoop(e, n, g, pc, b, s, depth) == NativeLoop(e, m, g, pc1, b, s1, depth)
  {
    hide NativeLoop;
    var j := if m < enough then enough else m;
    MoreFuelLoop(e, m, j, g, pc1, b, s1, depth);
    assert GetsWith(e, j, k, enough, g, pc, b, s, pc1, s1, depth);
    n := j + k;
  }

  /** As long as the loop goes on from a later point, and `k` instructions longer, it goes on from this one. */
  lemma GoesOnFrom<L, B, S>(
    e: Env<L, B, S>, upTo: nat, k: nat, enough: nat, g: nat, pc: nat, b: B, s: S, pc1: nat, s1: S, depth: nat)
    requires OffsetsParallel(e.program) && IsLocal(e.program, g) && 1 <= depth
    requires Gets(e, k, enough, g, pc, b, s, pc1, s1, depth)
    requires forall m: nat :: m <= upTo ==> LoopGoesOn(e, m, g, pc1, b, s1, depth)
    ensures forall m: nat :: m <= upTo + k ==> LoopGoesOn(e, m, g, pc, b, s, depth)
  {
    hide NativeLoop;
    assert GetsWith(e, upTo, k, enough, g, pc, b, s, pc1, s1, depth);
    assert LoopGoesOn(e, upTo, g, pc1, b, s1, depth);
    forall m: nat | m <= upTo + k ensures LoopGoesOn(e, m, g, pc, b, s, depth) {
      if !LoopGoesOn(e, m, g, pc, b, s, depth) {
        MoreFuelLoop(e, m, upTo + k, g, pc, b, s, depth);
      }
    }
  }
}
