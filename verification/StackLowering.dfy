/**
 The stack machine's lowering pass (`tracewasm-core/src/instruction/stack/mod.rs`): one
 instruction for each operator, branches resolved to absolute indices by backpatching, and the
 height every branch unwinds to computed on the way.  `EmitBody` says what the pass produces for
 structured code; `StackPass` has the pass itself, over the flat operator stream.
 */
module StackLowering {
  import opened StackCode
  import opened BlockCode

  const MAX_U32 := 0xFFFF_FFFF

  /** `StackInstruction`; the operators that only move values are one form. */
  datatype StackInstr =
    | IOp(op: Op)
    | IBlock
    | ILoop
    | IBr(target: nat, arity: nat, height: int)
    | IBrIf(target: nat, arity: nat, height: int)
    | IUnreachable
    | IEnd(arity: nat, height: int)

  /** The operator stream, as the parser delivers it. */
  datatype Operator =
    | OPlain(op: Op)
    | OBlock(params: nat, results: nat)
    | OLoop(params: nat, results: nat)
    | OBr(depth: nat)
    | OBrIf(depth: nat)
    | OUnreachable
    | OEnd

  function Flat(cs: seq<Ctl>): seq<Operator>
    decreases cs
  {
    if cs == [] then [] else FlatOne(cs[0]) + Flat(cs[1..])
  }

  function FlatOne(c: Ctl): seq<Operator>
    decreases c
  {
    match c
    case Plain(op) => [OPlain(op)]
    case Block(params, results, body) => [OBlock(params, results)] + Flat(body) + [OEnd]
    case Loop(params, results, body) => [OLoop(params, results)] + Flat(body) + [OEnd]
    case Br(d) => [OBr(d)]
    case BrIf(d) => [OBrIf(d)]
    case Unreachable => [OUnreachable]
  }

  /** Branches name open labels, in code that cannot be reached too. */
  predicate DepthsOk(cs: seq<Ctl>, labels: nat)
    decreases cs
  {
    cs == [] || (DepthsOkOne(cs[0], labels) && DepthsOk(cs[1..], labels))
  }

  predicate DepthsOkOne(c: Ctl, labels: nat)
    decreases c
  {
    match c
    case Br(d) => d < labels
    case BrIf(d) => d < labels
    case Block(_, _, body) => DepthsOk(body, labels + 1)
    case Loop(_, _, body) => DepthsOk(body, labels + 1)
    case _ => true
  }

  // ------------------------------------------------------------------ what the pass produces

  /** How many instructions: one for each operator. */
  function Size(cs: seq<Ctl>): nat
    decreases cs
  {
    if cs == [] then 0 else SizeOne(cs[0]) + Size(cs[1..])
  }

  function SizeOne(c: Ctl): nat
    decreases c
  {
    match c
    case Block(_, _, body) => Size(body) + 2
    case Loop(_, _, body) => Size(body) + 2
    case _ => 1
  }

  /** What a branch to an open label is given: where to jump, what to keep, and down to what height. */
  datatype Exit = Exit(target: nat, arity: nat, height: int)

  /** The height the pass tracks, frozen in code it knows to be dead. */
  datatype Track = Track(height: int, dead: bool)

  function PopCount(op: Op): nat {
    match op
    case Const(_) => 0
    case LocalGet(_) => 0
    case LocalSet(_) => 1
    case LocalTee(_) => 1
    case Drop => 1
    case Apply(_, ins, _) => ins
    case Invoke(_, params, _) => params
  }

  function PushCount(op: Op): nat {
    match op
    case Const(_) => 1
    case LocalGet(_) => 1
    case LocalSet(_) => 0
    case LocalTee(_) => 1
    case Drop => 0
    case Apply(_, _, outs) => outs
    case Invoke(_, _, results) => results
  }

  function TrackOne(c: Ctl, t: Track): Track {
    if t.dead then t
    else
      match c
      case Plain(op) => Track(t.height - PopCount(op) + PushCount(op), false)
      case Block(params, results, _) => Track(t.height - params + results, false)
      case Loop(params, results, _) => Track(t.height - params + results, false)
      case BrIf(_) => Track(t.height - 1, false)
      case Br(_) => Track(t.height, true)
      case Unreachable => Track(t.height, true)
  }

  function TrackSeq(cs: seq<Ctl>, t: Track): Track
    decreases |cs|
  {
    if cs == [] then t else TrackSeq(cs[1..], TrackOne(cs[0], t))
  }

  /** The height below a construct's operands; nothing reads it of a construct in dead code. */
  function BaseOf(t: Track, params: nat): int {
    if t.dead then 0 else t.height - params
  }

  function ExitAt(exits: seq<Exit>, d: nat): Exit
    requires d < |exits|
  {
    exits[|exits| - 1 - d]
  }

  function Emit(cs: seq<Ctl>, at: nat, exits: seq<Exit>, t: Track): (code: seq<StackInstr>)
    requires DepthsOk(cs, |exits|)
    ensures |code| == Size(cs)
    decreases cs
  {
    if cs == [] then []
    else EmitOne(cs[0], at, exits, t) + Emit(cs[1..], at + SizeOne(cs[0]), exits, TrackOne(cs[0], t))
  }

  /** Branches to a block go to its end, branches to a loop to its beginning. */
  function EmitOne(c: Ctl, at: nat, exits: seq<Exit>, t: Track): (code: seq<StackInstr>)
    requires DepthsOkOne(c, |exits|)
    ensures |code| == SizeOne(c)
    decreases c
  {
    match c
    case Plain(op) => [IOp(op)]
    case Br(d) => var x := ExitAt(exits, d); [IBr(x.target, x.arity, x.height)]
    case BrIf(d) => var x := ExitAt(exits, d); [IBrIf(x.target, x.arity, x.height)]
    case Unreachable => [IUnreachable]
    case Block(params, results, body) =>
      var base := BaseOf(t, params);
      [IBlock] + Emit(body, at + 1, exits + [Exit(at + 1 + Size(body), results, base)], t) + [IEnd(results, base)]
    case Loop(params, results, body) =>
      var base := BaseOf(t, params);
      [ILoop] + Emit(body, at + 1, exits + [Exit(at, params, base)], t) + [IEnd(results, base)]
  }

  /** A whole body: its own label is the function's, and its end the function's end. */
  function EmitBody(cs: seq<Ctl>, results: nat): seq<StackInstr>
    requires DepthsOk(cs, 1)
  {
    Emit(cs, 0, [Exit(Size(cs), results, 0)], Track(0, false)) + [IEnd(results, 0)]
  }
}

/**
 The pass itself: a loop over the operator stream with a stack of open blocks, whose forward
 branches are emitted with a sentinel for a target and patched when the block's end is reached.
 */
module StackPass {
  import opened Values
  import opened BlockCode
  import opened StackLowering

  /** `Block`: a loop knows where it began; any other block collects the branches that await its end. */
  datatype OpenBlock = OpenBlock(
    loop: Option<nat>, height: int, params: nat, results: nat, dead: bool, inherited: bool, breaks: seq<nat>)

  /** What the pass holds between two operators. */
  datatype PassState = PassState(code: seq<StackInstr>, open: seq<OpenBlock>, height: int)

  function IsDead(open: seq<OpenBlock>): bool {
    open != [] && open[|open| - 1].dead
  }

  function WithDead(open: seq<OpenBlock>): (open': seq<OpenBlock>)
    requires open != []
    ensures |open'| == |open|
  {
    open[|open| - 1 := open[|open| - 1].(dead := true)]
  }

  /** `add_block`. */
  function Opened(open: seq<OpenBlock>, height: int, loop: Option<nat>, params: nat, results: nat): OpenBlock {
    if IsDead(open) then OpenBlock(loop, 0, params, results, true, true, [])
    else OpenBlock(loop, height - params, params, results, false, false, [])
  }

  /** `br` and `br_if`: where to go, now or, with the sentinel, once the block has ended. */
  function ExitOf(block: OpenBlock): Exit {
    match block.loop
    case Some(index) => Exit(index, block.params, block.height)
    case None => Exit(MAX_U32, block.results, block.height)
  }

  function Attach(open: seq<OpenBlock>, k: nat, index: nat): (open': seq<OpenBlock>)
    requires k < |open|
    ensures |open'| == |open|
  {
    if open[k].loop.Some? then open else open[k := open[k].(breaks := open[k].breaks + [index])]
  }

  predicate IsBranch(i: StackInstr) {
    i.IBr? || i.IBrIf?
  }

  /** One backpatch; anything but a branch there makes the source panic. */
  function Patched(code: seq<StackInstr>, index: nat, target: nat): Option<seq<StackInstr>> {
    if index < |code| && IsBranch(code[index]) then Some(code[index := code[index].(target := target)]) else None
  }

  function PatchAll(code: seq<StackInstr>, breaks: seq<nat>, target: nat): Option<seq<StackInstr>>
    decreases |breaks|
  {
    if breaks == [] then Some(code)
    else
      match Patched(code, breaks[0], target)
      case None => None
      case Some(code') => PatchAll(code', breaks[1..], target)
  }

  /** The height after an operator described by what it pops and pushes. */
  function Moved(open: seq<OpenBlock>, height: int, pops: nat, pushes: nat): int {
    if open == [] || IsDead(open) then height else height - pops + pushes
  }

  function SetTo(open: seq<OpenBlock>, height: int, to: int): int {
    if open != [] && IsDead(open) then height else to
  }

  /** One operator; `None` where the source panics. */
  function PassStep(s: PassState, o: Operator): Option<PassState> {
    match o
    case OPlain(op) =>
      Some(s.(code := s.code + [IOp(op)], height := Moved(s.open, s.height, PopCount(op), PushCount(op))))
    case OBlock(params, results) =>
      Some(s.(code := s.code + [IBlock], open := s.open + [Opened(s.open, s.height, None, params, results)]))
    case OLoop(params, results) =>
      Some(s.(code := s.code + [ILoop], open := s.open + [Opened(s.open, s.height, Some(|s.code|), params, results)]))
    case OBr(d) =>
      if |s.open| <= d then None
      else
        var k := |s.open| - 1 - d;
        var x := ExitOf(s.open[k]);
        Some(s.(code := s.code + [IBr(x.target, x.arity, x.height)], open := WithDead(Attach(s.open, k, |s.code|))))
    case OBrIf(d) =>
      if |s.open| <= d then None
      else
        var k := |s.open| - 1 - d;
        var x := ExitOf(s.open[k]);
        Some(s.(code := s.code + [IBrIf(x.target, x.arity, x.height)], open := Attach(s.open, k, |s.code|),
                height := Moved(s.open, s.height, 1, 0)))
    case OUnreachable =>
      if s.open == [] then None else Some(s.(code := s.code + [IUnreachable], open := WithDead(s.open)))
    case OEnd =>
      if s.open == [] then None
      else
        var block := s.open[|s.open| - 1];
        match PatchAll(s.code, block.breaks, |s.code|)
        case None => None
        case Some(code) =>
          var s' := s.(code := code + [IEnd(block.results, block.height)], open := s.open[..|s.open| - 1]);
          Some(s'.(height := SetTo(s'.open, s.height, block.height + block.results)))
  }

  function PassRun(s: PassState, os: seq<Operator>): Option<PassState>
    decreases |os|
  {
    if os == [] then Some(s)
    else
      match PassStep(s, os[0])
      case None => None
      case Some(s') => PassRun(s', os[1..])
  }

  function Initial(params: nat, results: nat): PassState {
    PassState([], [OpenBlock(None, 0, params, results, false, false, [])], 0)
  }

  // ------------------------------------------------------------------ the pass produces what was said

  /** The branches in `cs`, emitted from index `at`, to the open label at depth `d` around it. */
  function Marks(cs: seq<Ctl>, d: nat, at: nat): seq<nat>
    decreases cs
  {
    if cs == [] then [] else MarksOne(cs[0], d, at) + Marks(cs[1..], d, at + SizeOne(cs[0]))
  }

  function MarksOne(c: Ctl, d: nat, at: nat): seq<nat>
    decreases c
  {
    match c
    case Br(depth) => if depth == d then [at] else []
    case BrIf(depth) => if depth == d then [at] else []
    case Block(_, _, body) => Marks(body, d + 1, at + 1)
    case Loop(_, _, body) => Marks(body, d + 1, at + 1)
    case _ => []
  }

  lemma {:induction false} PatchBoth(code: seq<StackInstr>, xs: seq<nat>, ys: seq<nat>, target: nat)
    requires PatchAll(code, xs, target).Some?
    ensures PatchAll(code, xs + ys, target) == PatchAll(PatchAll(code, xs, target).value, ys, target)
    decreases |xs|
  {
    if xs == [] {
      assert xs + ys == ys;
    } else {
      assert (xs + ys)[0] == xs[0] && (xs + ys)[1..] == xs[1..] + ys;
      PatchBoth(Patched(code, xs[0], target).value, xs[1..], ys, target);
    }
  }

  lemma {:induction false} PatchInFront(code: seq<StackInstr>, rest: seq<StackInstr>, breaks: seq<nat>, target: nat)
    requires PatchAll(code, breaks, target).Some?
    ensures PatchAll(code + rest, breaks, target) == Some(PatchAll(code, breaks, target).value + rest)
    decreases |breaks|
  {
    if breaks != [] {
      var code' := Patched(code, breaks[0], target).value;
      assert (code + rest)[breaks[0] := code'[breaks[0]]] == code' + rest;
      PatchInFront(code', rest, breaks[1..], target);
    }
  }

  function Retarget(exits: seq<Exit>, k: nat, target: nat): seq<Exit>
    requires k < |exits|
  {
    exits[k := exits[k].(target := target)]
  }

  /** Patching the branches to one label gives them the target they would have had. */
  lemma {:induction false} PatchedEmit(
    pre: seq<StackInstr>, cs: seq<Ctl>, exits: seq<Exit>, k: nat, target: nat, t: Track)
    requires k < |exits| && DepthsOk(cs, |exits|)
    ensures PatchAll(pre + Emit(cs, |pre|, exits, t), Marks(cs, |exits| - 1 - k, |pre|), target)
         == Some(pre + Emit(cs, |pre|, Retarget(exits, k, target), t))
    decreases cs, 0
  {
    hide Emit, EmitOne, MarksOne, PatchAll;
    if cs == [] {
      NothingPatched(pre, exits, k, target, t);
    } else {
      var d, exits' := |exits| - 1 - k, Retarget(exits, k, target);
      var at, t1 := |pre| + SizeOne(cs[0]), TrackOne(cs[0], t);
      var first, first' := EmitOne(cs[0], |pre|, exits, t), EmitOne(cs[0], |pre|, exits', t);
      var rest := Emit(cs[1..], at, exits, t1);
      PatchedEmitOne(pre, cs[0], exits, k, target, t);
      PatchInFront(pre + first, rest, MarksOne(cs[0], d, |pre|), target);
      EmitInTurn(pre, cs, |pre|, exits, t);
      PatchBoth(pre + first + rest, MarksOne(cs[0], d, |pre|), Marks(cs[1..], d, at), target);
      PatchedEmit(pre + first', cs[1..], exits, k, target, t1);
      EmitInTurn(pre, cs, |pre|, exits', t);
    }
  }

  lemma NothingPatched(pre: seq<StackInstr>, exits: seq<Exit>, k: nat, target: nat, t: Track)
    requires k < |exits|
    ensures PatchAll(pre + Emit([], |pre|, exits, t), Marks([], |exits| - 1 - k, |pre|), target)
         == Some(pre + Emit([], |pre|, Retarget(exits, k, target), t))
  {
  }

  lemma {:induction false} PatchedEmitOne(
    pre: seq<StackInstr>, c: Ctl, exits: seq<Exit>, k: nat, target: nat, t: Track)
    requires k < |exits| && DepthsOkOne(c, |exits|)
    ensures PatchAll(pre + EmitOne(c, |pre|, exits, t), MarksOne(c, |exits| - 1 - k, |pre|), target)
         == Some(pre + EmitOne(c, |pre|, Retarget(exits, k, target), t))
    decreases c, 0
  {
    match c
    case Plain(_) =>
    case Unreachable =>
    case Br(depth) => PatchedBranch(pre, EmitOne(c, |pre|, exits, t)[0], target);
    case BrIf(depth) => PatchedBranch(pre, EmitOne(c, |pre|, exits, t)[0], target);
    case Block(params, results, body) =>
      var x := Exit(|pre| + 1 + Size(body), results, BaseOf(t, params));
      PatchedInside(pre, [IBlock], body, exits, x, k, target, t, [IEnd(results, x.height)]);
    case Loop(params, results, body) =>
      var x := Exit(|pre|, params, BaseOf(t, params));
      PatchedInside(pre, [ILoop], body, exits, x, k, target, t, [IEnd(results, x.height)]);
  }

  lemma PatchedBranch(pre: seq<StackInstr>, branch: StackInstr, target: nat)
    requires IsBranch(branch)
    ensures PatchAll(pre + [branch], [|pre|], target) == Some(pre + [branch.(target := target)])
  {
    assert (pre + [branch])[|pre| := branch.(target := target)] == pre + [branch.(target := target)];
    assert PatchAll(pre + [branch.(target := target)], [], target) == Some(pre + [branch.(target := target)]);
  }

  /** The same inside a construct, whose own label is one deeper. */
  lemma {:induction false} PatchedInside(
    pre: seq<StackInstr>, open: seq<StackInstr>, body: seq<Ctl>, exits: seq<Exit>, x: Exit, k: nat, target: nat,
    t: Track, close: seq<StackInstr>)
    requires k < |exits| && DepthsOk(body, |exits| + 1) && |open| == 1
    ensures var d := |exits| - 1 - k;
      PatchAll(pre + (open + Emit(body, |pre| + 1, exits + [x], t) + close), Marks(body, d + 1, |pre| + 1), target)
        == Some(pre + (open + Emit(body, |pre| + 1, Retarget(exits, k, target) + [x], t) + close))
    decreases body, 1
  {
    hide Emit, Marks, PatchAll;
    var d := |exits| - 1 - k;
    var inner := Emit(body, |pre| + 1, exits + [x], t);
    var inner' := Emit(body, |pre| + 1, Retarget(exits, k, target) + [x], t);
    assert Retarget(exits + [x], k, target) == Retarget(exits, k, target) + [x];
    PatchedEmit(pre + open, body, exits + [x], k, target, t);
    PatchInFront(pre + open + inner, close, Marks(body, d + 1, |pre| + 1), target);
    assert pre + (open + inner + close) == pre + open + inner + close;
    assert pre + (open + inner' + close) == pre + open + inner' + close;
  }

  function Exits(open: seq<OpenBlock>): (exits: seq<Exit>)
    ensures |exits| == |open|
  {
    seq(|open|, k requires 0 <= k < |open| => ExitOf(open[k]))
  }

  function TrackOf(s: PassState): Track {
    Track(s.height, IsDead(s.open))
  }

  /** An open block once the branches `marks` have been attached to it. */
  function Attached(open: seq<OpenBlock>, k: nat, marks: seq<nat>, dead: bool): OpenBlock
    requires k < |open|
  {
    var block := open[k];
    block.(breaks := if block.loop.Some? then block.breaks else block.breaks + marks,
           dead := if k == |open| - 1 then dead else block.dead)
  }

  /** The open blocks after `cs`: the branches that await each block's end, and whether the code after is dead. */
  function Awaiting(open: seq<OpenBlock>, cs: seq<Ctl>, at: nat, dead: bool): (open': seq<OpenBlock>)
    ensures |open'| == |open|
    ensures forall k :: 0 <= k < |open| ==> open'[k] == Attached(open, k, Marks(cs, |open| - 1 - k, at), dead)
  {
    seq(|open|, k requires 0 <= k < |open| => Attached(open, k, Marks(cs, |open| - 1 - k, at), dead))
  }

  function AwaitingOne(open: seq<OpenBlock>, c: Ctl, at: nat, dead: bool): (open': seq<OpenBlock>)
    ensures |open'| == |open|
    ensures forall k :: 0 <= k < |open| ==> open'[k] == Attached(open, k, MarksOne(c, |open| - 1 - k, at), dead)
  {
    seq(|open|, k requires 0 <= k < |open| => Attached(open, k, MarksOne(c, |open| - 1 - k, at), dead))
  }

  function After(s: PassState, cs: seq<Ctl>): PassState
    requires DepthsOk(cs, |s.open|)
  {
    var t := TrackSeq(cs, TrackOf(s));
    PassState(s.code + Emit(cs, |s.code|, Exits(s.open), TrackOf(s)), Awaiting(s.open, cs, |s.code|, t.dead), t.height)
  }

  function AfterOne(s: PassState, c: Ctl): PassState
    requires DepthsOkOne(c, |s.open|)
  {
    var t := TrackOne(c, TrackOf(s));
    PassState(s.code + EmitOne(c, |s.code|, Exits(s.open), TrackOf(s)), AwaitingOne(s.open, c, |s.code|, t.dead),
              t.height)
  }

  lemma ExitsKept(open: seq<OpenBlock>, open': seq<OpenBlock>)
    requires |open'| == |open|
    requires forall k :: 0 <= k < |open| ==> ExitOf(open'[k]) == ExitOf(open[k])
    ensures Exits(open') == Exits(open)
  {
  }

  lemma AwaitingKeepsExits(open: seq<OpenBlock>, c: Ctl, at: nat, dead: bool)
    ensures Exits(AwaitingOne(open, c, at, dead)) == Exits(open)
  {
    hide MarksOne;
    ExitsKept(open, AwaitingOne(open, c, at, dead));
  }

  lemma {:induction false} PassInTurn(s: PassState, os: seq<Operator>, os': seq<Operator>)
    requires PassRun(s, os).Some?
    ensures PassRun(s, os + os') == PassRun(PassRun(s, os).value, os')
    decreases |os|
  {
    if os == [] {
      assert os + os' == os';
    } else {
      assert (os + os')[0] == os[0] && (os + os')[1..] == os[1..] + os';
      PassInTurn(PassStep(s, os[0]).value, os[1..], os');
    }
  }

  /** The pass over a sequence, whatever is open around it. */
  lemma {:induction false} PassEmits(s: PassState, cs: seq<Ctl>)
    requires s.open != [] && DepthsOk(cs, |s.open|)
    ensures PassRun(s, Flat(cs)) == Some(After(s, cs))
    decreases cs, 0
  {
    hide PassStep, After, AfterOne;
    if cs == [] {
      NothingAfter(s);
    } else {
      PassEmitsOne(s, cs[0]);
      var s1 := AfterOne(s, cs[0]);
      PassInTurn(s, FlatOne(cs[0]), Flat(cs[1..]));
      AfterInTurn(s, cs);
      PassEmits(s1, cs[1..]);
    }
  }

  lemma NothingAttached(open: seq<OpenBlock>, k: nat, dead: bool)
    requires k < |open| && (k == |open| - 1 ==> dead == open[k].dead)
    ensures Attached(open, k, [], dead) == open[k]
  {
    assert open[k].breaks + [] == open[k].breaks;
  }

  lemma AttachedInTurn(open: seq<OpenBlock>, open1: seq<OpenBlock>, k: nat, xs: seq<nat>, ys: seq<nat>, dead1: bool,
    dead: bool)
    requires k < |open| == |open1| && open1[k] == Attached(open, k, xs, dead1)
    ensures Attached(open1, k, ys, dead) == Attached(open, k, xs + ys, dead)
  {
    assert open[k].breaks + xs + ys == open[k].breaks + (xs + ys);
  }

  lemma NothingAfter(s: PassState)
    requires s.open != []
    ensures After(s, []) == s
  {
    var open' := Awaiting(s.open, [], |s.code|, IsDead(s.open));
    forall k | 0 <= k < |s.open| ensures open'[k] == s.open[k] {
      NothingAttached(s.open, k, IsDead(s.open));
    }
    assert open' == s.open;
    assert s.code + [] == s.code;
  }

  lemma AfterInTurn(s: PassState, cs: seq<Ctl>)
    requires s.open != [] && cs != [] && DepthsOk(cs, |s.open|)
    ensures |AfterOne(s, cs[0]).open| == |s.open| && After(AfterOne(s, cs[0]), cs[1..]) == After(s, cs)
  {
    hide Emit, EmitOne, Marks, MarksOne, Exits;
    var s1, at, t := AfterOne(s, cs[0]), |s.code|, TrackOf(s);
    var t1 := TrackOne(cs[0], t);
    AwaitingKeepsExits(s.open, cs[0], at, t1.dead);
    assert TrackOf(s1) == t1;
    EmitInTurn(s.code, cs, at, Exits(s.open), t);
    AwaitingInTurn(s.open, cs, at, t1.dead, TrackSeq(cs, t).dead);
  }

  lemma EmitInTurn(code: seq<StackInstr>, cs: seq<Ctl>, at: nat, exits: seq<Exit>, t: Track)
    requires cs != [] && DepthsOk(cs, |exits|)
    ensures code + EmitOne(cs[0], at, exits, t) + Emit(cs[1..], at + SizeOne(cs[0]), exits, TrackOne(cs[0], t))
         == code + Emit(cs, at, exits, t)
  {
  }

  lemma AwaitingInTurn(open: seq<OpenBlock>, cs: seq<Ctl>, at: nat, dead1: bool, dead: bool)
    requires cs != []
    ensures Awaiting(AwaitingOne(open, cs[0], at, dead1), cs[1..], at + SizeOne(cs[0]), dead)
         == Awaiting(open, cs, at, dead)
  {
    hide MarksOne, Attached;
    var open1 := AwaitingOne(open, cs[0], at, dead1);
    var both, one := Awaiting(open1, cs[1..], at + SizeOne(cs[0]), dead), Awaiting(open, cs, at, dead);
    forall k | 0 <= k < |open| ensures both[k] == one[k] {
      var d := |open| - 1 - k;
      AttachedInTurn(open, open1, k, MarksOne(cs[0], d, at), Marks(cs[1..], d, at + SizeOne(cs[0])), dead1, dead);
    }
    assert both == one;
  }

  lemma PassOneStep(s: PassState, o: Operator)
    requires PassStep(s, o).Some?
    ensures PassRun(s, [o]) == PassStep(s, o)
  {
    hide PassStep;
    assert PassRun(PassStep(s, o).value, []) == PassStep(s, o);
  }

  lemma {:induction false} PassEmitsOne(s: PassState, c: Ctl)
    requires s.open != [] && DepthsOkOne(c, |s.open|)
    ensures PassRun(s, FlatOne(c)) == Some(AfterOne(s, c))
    decreases c, 0
  {
    hide PassStep, AfterOne;
    match c
    case Block(params, results, body) =>
      PassEmitsInside(s, c, OBlock(params, results), None, IBlock, params, results, body);
    case Loop(params, results, body) =>
      PassEmitsInside(s, c, OLoop(params, results), Some(|s.code|), ILoop, params, results, body);
    case _ =>
      SimpleStep(s, c);
      PassOneStep(s, FlatOne(c)[0]);
  }

  lemma SimpleStep(s: PassState, c: Ctl)
    requires s.open != [] && DepthsOkOne(c, |s.open|) && !c.Block? && !c.Loop?
    ensures PassStep(s, FlatOne(c)[0]) == Some(AfterOne(s, c))
  {
    hide Attached, AwaitingOne, WithDead, Attach, Exits, MarksOne;
    SimpleOpen(s.open, c, |s.code|);
    if c.Br? || c.BrIf? {
      ExitsAt(s.open, c.depth);
    }
  }

  lemma ExitsAt(open: seq<OpenBlock>, d: nat)
    requires d < |open|
    ensures ExitAt(Exits(open), d) == ExitOf(open[|open| - 1 - d])
  {
  }

  /** The open blocks after an operator that is not a construct. */
  lemma SimpleOpen(open: seq<OpenBlock>, c: Ctl, at: nat)
    requires open != [] && DepthsOkOne(c, |open|) && !c.Block? && !c.Loop?
    ensures AwaitingOne(open, c, at, IsDead(open) || c.Br? || c.Unreachable?) ==
      match c
      case Br(d) => WithDead(Attach(open, |open| - 1 - d, at))
      case BrIf(d) => Attach(open, |open| - 1 - d, at)
      case Unreachable => WithDead(open)
      case _ => open
  {
    hide Attach, MarksOne;
    var n := |open|;
    var open' := AwaitingOne(open, c, at, IsDead(open) || c.Br? || c.Unreachable?);
    var got := match c
      case Br(d) => WithDead(Attach(open, n - 1 - d, at))
      case BrIf(d) => Attach(open, n - 1 - d, at)
      case Unreachable => WithDead(open)
      case _ => open;
    forall k | 0 <= k < n ensures got[k] == open'[k] {
      NothingAttached(open, k, open[k].dead);
      SimpleMarks(c, n - 1 - k, at);
      if c.Br? || c.BrIf? {
        AttachedAt(open, c.depth, at, k, c.Br?);
      }
    }
    assert got == open';
  }

  /** One block after a branch at depth `d`; an unconditional one leaves dead code behind. */
  lemma AttachedAt(open: seq<OpenBlock>, d: nat, at: nat, k: nat, always: bool)
    requires k < |open| && d < |open|
    ensures var open' := Attach(open, |open| - 1 - d, at);
      Attached(open, k, if |open| - 1 - k == d then [at] else [], IsDead(open) || always)
        == (if always then WithDead(open') else open')[k]
  {
    NothingAttached(open, k, open[k].dead);
  }

  lemma SimpleMarks(c: Ctl, d: nat, at: nat)
    requires !c.Block? && !c.Loop?
    ensures MarksOne(c, d, at) == if (c.Br? || c.BrIf?) && c.depth == d then [at] else []
  {
  }

  /** A construct: its body, with its own label open, and its end, which patches the branches to it. */
  lemma {:induction false} PassEmitsInside(
    s: PassState, c: Ctl, o: Operator, loop: Option<nat>, head: StackInstr, params: nat, results: nat, body: seq<Ctl>)
    requires s.open != [] && DepthsOk(body, |s.open| + 1)
    requires Opens(s, c, o, loop, head, params, results, body)
    ensures PassRun(s, FlatOne(c)) == Some(AfterOne(s, c))
    decreases body, 1
  {
    hide PassStep, AfterOne, After, Opened;
    var s1 := OpenedState(s, loop, head, params, results);
    OpeningStep(s, c, o, loop, head, params, results, body);
    PassEmits(s1, body);
    var s2 := After(s1, body);
    assert FlatOne(c) == [o] + (Flat(body) + [OEnd]);
    PassOneStep(s, o);
    PassInTurn(s, [o], Flat(body) + [OEnd]);
    PassInTurn(s1, Flat(body), [OEnd]);
    ClosingStep(s, c, o, loop, head, params, results, body);
    PassOneStep(s2, OEnd);
  }

  predicate Opens(
    s: PassState, c: Ctl, o: Operator, loop: Option<nat>, head: StackInstr, params: nat, results: nat, body: seq<Ctl>)
  {
    || (c == Block(params, results, body) && o == OBlock(params, results) && loop == None && head == IBlock)
    || (c == Loop(params, results, body) && o == OLoop(params, results) && loop == Some(|s.code|) && head == ILoop)
  }

  function OpenedState(s: PassState, loop: Option<nat>, head: StackInstr, params: nat, results: nat): PassState {
    s.(code := s.code + [head], open := s.open + [Opened(s.open, s.height, loop, params, results)])
  }

  lemma OpeningStep(
    s: PassState, c: Ctl, o: Operator, loop: Option<nat>, head: StackInstr, params: nat, results: nat, body: seq<Ctl>)
    requires Opens(s, c, o, loop, head, params, results, body)
    ensures PassStep(s, o) == Some(OpenedState(s, loop, head, params, results))
  {
  }

  /** The code of a closed construct, once its branches are patched and its end is emitted. */
  lemma ClosingEmits(
    s: PassState, c: Ctl, o: Operator, loop: Option<nat>, head: StackInstr, params: nat, results: nat, body: seq<Ctl>)
    requires s.open != [] && DepthsOk(body, |s.open| + 1)
    requires Opens(s, c, o, loop, head, params, results, body)
    ensures var at, block := |s.code|, Opened(s.open, s.height, loop, params, results);
      s.code + [head] + Emit(body, at + 1, Exits(s.open) + [ClosedExit(block, at + 1 + Size(body))], TrackOf(s))
        + [IEnd(results, block.height)] == AfterOne(s, c).code
  {
    hide Emit, Exits, AwaitingOne, Size;
    var at, block := |s.code|, Opened(s.open, s.height, loop, params, results);
    var exits := Exits(s.open) + [ClosedExit(block, at + 1 + Size(body))];
    ClosedCode(s.code, head, Emit(body, at + 1, exits, TrackOf(s)), IEnd(results, block.height));
  }

  lemma ClosingStep(
    s: PassState, c: Ctl, o: Operator, loop: Option<nat>, head: StackInstr, params: nat, results: nat, body: seq<Ctl>)
    requires s.open != [] && DepthsOk(body, |s.open| + 1)
    requires Opens(s, c, o, loop, head, params, results, body)
    ensures DepthsOkOne(c, |s.open|)
    ensures PassStep(After(OpenedState(s, loop, head, params, results), body), OEnd) == Some(AfterOne(s, c))
  {
    hide Emit, EmitOne, Marks, TrackSeq, PatchAll, Exits, Attached, Awaiting, AwaitingOne;
    var at, t, n := |s.code|, TrackOf(s), |s.open|;
    var block := Opened(s.open, s.height, loop, params, results);
    var s1 := OpenedState(s, loop, head, params, results);
    var s2 := After(s1, body);
    OpenedExits(s.open, block);
    BodyPatched(s.code, head, body, Exits(s.open), block, t);
    EndedBlock(s.open, block, Marks(body, 0, at + 1), TrackSeq(body, t).dead);
    ClosedOpen(s.open, block, c, body, at, TrackSeq(body, t).dead);
    DeadStaysSeq(body, t);
    assert s2.code == s.code + [head] + Emit(body, at + 1, Exits(s.open) + [ExitOf(block)], t);
    assert |s2.code| == at + 1 + Size(body);
    AwaitingIsDead(s.open, c, at, TrackOne(c, t).dead);
    ClosingEmits(s, c, o, loop, head, params, results, body);
  }

  /** The open blocks at the end of a construct: its own, and below it those around it. */
  lemma ClosedOpen(open: seq<OpenBlock>, block: OpenBlock, c: Ctl, body: seq<Ctl>, at: nat, inner: bool)
    requires open != [] && (c.Block? || c.Loop?) && c.body == body
    ensures var n, open' := |open|, Awaiting(open + [block], body, at + 1, inner);
      && open'[n] == Attached(open + [block], n, Marks(body, 0, at + 1), inner)
      && open'[..n] == AwaitingOne(open, c, at, IsDead(open))
  {
    hide Marks, Attached;
    var n, open' := |open|, Awaiting(open + [block], body, at + 1, inner);
    var want := AwaitingOne(open, c, at, IsDead(open));
    forall k | 0 <= k < n ensures open'[..n][k] == want[k] {
      ParentAttached(open, block, k, Marks(body, n - k, at + 1), inner, IsDead(open));
    }
    assert open'[..n] == want;
  }

  lemma AwaitingIsDead(open: seq<OpenBlock>, c: Ctl, at: nat, dead: bool)
    requires open != []
    ensures IsDead(AwaitingOne(open, c, at, dead)) == dead
  {
    hide MarksOne;
  }

  /** Where branches to a construct go. */
  function ClosedExit(block: OpenBlock, end: nat): Exit {
    if block.loop.Some? then ExitOf(block) else Exit(end, block.results, block.height)
  }

  lemma ClosedCode(code: seq<StackInstr>, head: StackInstr, inner: seq<StackInstr>, close: StackInstr)
    ensures code + [head] + inner + [close] == code + ([head] + inner + [close])
  {
  }

  lemma EndedBlock(open: seq<OpenBlock>, block: OpenBlock, marks: seq<nat>, dead: bool)
    requires block.breaks == []
    ensures var ended := Attached(open + [block], |open|, marks, dead);
      && ended.breaks == (if block.loop.Some? then [] else marks)
      && ended.results == block.results && ended.height == block.height
  {
  }

  /** What a construct's body attaches to the blocks around it. */
  lemma ParentAttached(
    open: seq<OpenBlock>, block: OpenBlock, k: nat, marks: seq<nat>, inner: bool, dead: bool)
    requires k < |open| && dead == IsDead(open)
    ensures Attached(open + [block], k, marks, inner) == Attached(open, k, marks, dead)
  {
  }

  lemma {:induction false} DeadStaysSeq(cs: seq<Ctl>, t: Track)
    ensures t.dead ==> TrackSeq(cs, t) == t
    decreases |cs|
  {
    if cs != [] {
      DeadStaysSeq(cs[1..], TrackOne(cs[0], t));
    }
  }

  lemma OpenedExits(open: seq<OpenBlock>, block: OpenBlock)
    ensures Exits(open + [block]) == Exits(open) + [ExitOf(block)]
  {
  }

  /** The code of a construct's body, once the branches that await its end are patched. */
  lemma BodyPatched(
    code: seq<StackInstr>, head: StackInstr, body: seq<Ctl>, exits: seq<Exit>, block: OpenBlock, t: Track)
    requires DepthsOk(body, |exits| + 1) && block.breaks == []
    ensures var at := |code|;
      var breaks := if block.loop.Some? then [] else Marks(body, 0, at + 1);
      var x := ClosedExit(block, at + 1 + Size(body));
      PatchAll(code + [head] + Emit(body, at + 1, exits + [ExitOf(block)], t), breaks, at + 1 + Size(body))
        == Some(code + [head] + Emit(body, at + 1, exits + [x], t))
  {
    hide Emit, Marks;
    var at := |code|;
    if block.loop == None {
      PatchedEmit(code + [head], body, exits + [ExitOf(block)], |exits|, at + 1 + Size(body), t);
      assert Retarget(exits + [ExitOf(block)], |exits|, at + 1 + Size(body))
          == exits + [Exit(at + 1 + Size(body), block.results, block.height)];
    }
  }

  /** The pass over a whole body, its end included, does not panic and produces what was said. */
  lemma PassIsEmit(cs: seq<Ctl>, params: nat, results: nat)
    requires DepthsOk(cs, 1)
    ensures var r := PassRun(Initial(params, results), Flat(cs) + [OEnd]);
      r.Some? && r.value.code == EmitBody(cs, results) && r.value.open == []
  {
    hide Emit, Marks, PatchAll, TrackSeq, Attached, Exits;
    var s := Initial(params, results);
    PassEmits(s, cs);
    PassInTurn(s, Flat(cs), [OEnd]);
    var s1 := After(s, cs);
    OneExit(s.open);
    PatchedEmit([], cs, Exits(s.open), 0, Size(cs), TrackOf(s));
    EndedBlock([], s.open[0], Marks(cs, 0, 0), TrackSeq(cs, TrackOf(s)).dead);
    assert [] + [s.open[0]] == s.open;
    assert s1.open[0] == Attached(s.open, 0, Marks(cs, 0, 0), TrackSeq(cs, TrackOf(s)).dead);
    assert s1.code == [] + Emit(cs, 0, [Exit(MAX_U32, results, 0)], Track(0, false));
    assert Retarget(Exits(s.open), 0, Size(cs)) == [Exit(Size(cs), results, 0)];
    NothingBefore(Emit(cs, 0, Exits(s.open), TrackOf(s)));
    NothingBefore(Emit(cs, 0, [Exit(Size(cs), results, 0)], TrackOf(s)));
    PassOneStep(s1, OEnd);
  }

  lemma NothingBefore(code: seq<StackInstr>)
    ensures [] + code == code
  {
  }

  lemma OneExit(open: seq<OpenBlock>)
    requires |open| == 1
    ensures Exits(open) == [ExitOf(open[0])]
  {
  }

  // ------------------------------------------------------------------ the pass, in place

  /** `ControlStack`: the open blocks and the height the pass has reached. */
  class ControlStack {
    var inner: seq<OpenBlock>
    var currHeight: int

    constructor (params: nat, results: nat)
      ensures inner == Initial(params, results).open && currHeight == 0
    {
      inner := [OpenBlock(None, 0, params, results, false, false, [])];
      currHeight := 0;
    }

    /** A block born in dead code stays dead, and nothing will read its height. */
    method AddBlock(loop: Option<nat>, params: nat, results: nat)
      modifies `inner
      ensures inner == old(inner) + [Opened(old(inner), currHeight, loop, params, results)]
    {
      if inner != [] && inner[|inner| - 1].dead {
        inner := inner + [OpenBlock(loop, 0, params, results, true, true, [])];
      } else {
        inner := inner + [OpenBlock(loop, currHeight - params, params, results, false, false, [])];
      }
    }

    method SetUnreachableTraversing()
      requires inner != []
      modifies `inner
      ensures inner == WithDead(old(inner))
    {
      var last := |inner| - 1;
      inner := inner[last := inner[last].(dead := true)];
    }

    /** The exit of the block at depth `d`; a forward branch, to be emitted at `index`, is noted on the block. */
    method Exit(d: nat, index: nat) returns (exit: Exit)
      requires d < |inner|
      modifies `inner
      ensures var k := |old(inner)| - 1 - d;
        exit == ExitOf(old(inner)[k]) && inner == Attach(old(inner), k, index)
    {
      var k := |inner| - 1 - d;
      var block := inner[k];
      match block.loop
      case Some(start) =>
        exit := StackLowering.Exit.Exit(start, block.params, block.height);
      case None =>
        inner := inner[k := block.(breaks := block.breaks + [index])];
        exit := StackLowering.Exit.Exit(MAX_U32, block.results, block.height);
    }

    method Pop() returns (block: OpenBlock)
      requires inner != []
      modifies `inner
      ensures block == old(inner)[|old(inner)| - 1] && inner == old(inner)[..|old(inner)| - 1]
    {
      block := inner[|inner| - 1];
      inner := inner[..|inner| - 1];
    }

    method SetHeight(height: int)
      modifies `currHeight
      ensures currHeight == SetTo(inner, old(currHeight), height)
    {
      if inner == [] {
        currHeight := height;
        return;
      }
      if !inner[|inner| - 1].dead {
        currHeight := height;
      }
    }

    /** The guard comes first: in dead code there may be less to pop than the operator pops. */
    method ApplyStackEffectsToHeight(pops: nat, pushes: nat)
      modifies `currHeight
      ensures currHeight == Moved(inner, old(currHeight), pops, pushes)
    {
      if inner == [] {
        return;
      }
      if !inner[|inner| - 1].dead {
        currHeight := currHeight - pops + pushes;
      }
    }
  }

  /** Backpatches every branch that awaited a block's end. */
  method Backpatch(instructions: seq<StackInstr>, breaks: seq<nat>, target: nat)
    returns (ok: bool, patched: seq<StackInstr>)
    ensures ok == PatchAll(instructions, breaks, target).Some?
    ensures ok ==> PatchAll(instructions, breaks, target) == Some(patched)
  {
    patched := instructions;
    for i := 0 to |breaks|
      invariant PatchAll(patched, breaks[i..], target) == PatchAll(instructions, breaks, target)
    {
      var index := breaks[i];
      assert breaks[i..][1..] == breaks[i + 1..];
      if |patched| <= index || !IsBranch(patched[index]) {
        return false, patched;
      }
      patched := patched[index := patched[index].(target := target)];
    }
    ok := true;
  }

  lemma PassRunFrom(s: PassState, os: seq<Operator>, i: nat)
    requires i < |os|
    ensures PassRun(s, os[i..]) ==
      match PassStep(s, os[i]) { case None => None case Some(s') => PassRun(s', os[i + 1..]) }
  {
    hide PassStep;
    assert os[i..][0] == os[i] && os[i..][1..] == os[i + 1..];
  }

  lemma PassRunEnd(s: PassState, os: seq<Operator>)
    ensures PassRun(s, os[|os|..]) == Some(s)
  {
  }

  /**
   `emit_instructions_for_func`: one loop over the operator stream.  `ok` is false where the
   source panics, which it does not do on the stream of a body whose branches name open labels.
   */
  method EmitInstructionsForFunc(operators: seq<Operator>, params: nat, results: nat)
    returns (ok: bool, instructions: seq<StackInstr>)
    ensures ok == PassRun(Initial(params, results), operators).Some?
    ensures ok ==> instructions == PassRun(Initial(params, results), operators).value.code
    ensures forall cs :: DepthsOk(cs, 1) && operators == Flat(cs) + [OEnd] ==>
      ok && instructions == EmitBody(cs, results)
  {
    hide Flat, DepthsOk, EmitBody, PassRun, PatchAll;
    var control := new ControlStack(params, results);
    instructions := [];
    ok := true;
    for i := 0 to |operators|
      invariant ok
      invariant PassRun(PassState(instructions, control.inner, control.currHeight), operators[i..])
             == PassRun(Initial(params, results), operators)
    {
      ghost var before := PassState(instructions, control.inner, control.currHeight);
      PassRunFrom(before, operators, i);
      var instruction;
      match operators[i] {
        case OPlain(op) =>
          instruction := IOp(op);
          control.ApplyStackEffectsToHeight(PopCount(op), PushCount(op));
        case OBlock(blockParams, blockResults) =>
          control.AddBlock(None, blockParams, blockResults);
          instruction := IBlock;
        case OLoop(blockParams, blockResults) =>
          control.AddBlock(Some(|instructions|), blockParams, blockResults);
          instruction := ILoop;
        case OBr(d) =>
          if |control.inner| <= d {
            ok := false;
            break;
          }
          var exit := control.Exit(d, |instructions|);
          control.SetUnreachableTraversing();
          instruction := IBr(exit.target, exit.arity, exit.height);
        case OBrIf(d) =>
          if |control.inner| <= d {
            ok := false;
            break;
          }
          var exit := control.Exit(d, |instructions|);
          instruction := IBrIf(exit.target, exit.arity, exit.height);
          assert IsDead(control.inner) == IsDead(before.open);
          control.ApplyStackEffectsToHeight(1, 0);
        case OUnreachable =>
          if control.inner == [] {
            ok := false;
            break;
          }
          control.SetUnreachableTraversing();
          instruction := IUnreachable;
        case OEnd =>
          if control.inner == [] {
            ok := false;
            break;
          }
          var block := control.Pop();
          ok, instructions := Backpatch(instructions, block.breaks, |instructions|);
          if !ok {
            break;
          }
          instruction := IEnd(block.results, block.height);
          control.SetHeight(block.height + block.results);
      }
      instructions := instructions + [instruction];
      assert PassStep(before, operators[i]) == Some(PassState(instructions, control.inner, control.currHeight));
    }
    if ok {
      PassRunEnd(PassState(instructions, control.inner, control.currHeight), operators);
    }
    forall cs | DepthsOk(cs, 1) && operators == Flat(cs) + [OEnd]
      ensures ok && instructions == EmitBody(cs, results)
    {
      PassIsEmit(cs, params, results);
    }
  }
}
