/**
 Structured WebAssembly as the stack machine runs it: blocks, loops and branches around the
 operators of `StackCode`.
 */
module BlockCode {
  import opened Values
  import opened StackCode

  datatype Ctl =
    | Plain(op: Op)
    | Block(params: nat, results: nat, body: seq<Ctl>)
    | Loop(params: nat, results: nat, body: seq<Ctl>)
    | Br(depth: nat)
    | BrIf(depth: nat)
    | Unreachable

  /** An open label: the operands below it, what a branch to it carries, and what its end leaves. */
  datatype Label = Label(base: nat, arity: nat, results: nat)

  function Innermost(labels: seq<Label>): Label
    requires labels != []
  {
    labels[|labels| - 1]
  }

  /** The label a branch of relative depth `d` names. */
  function LabelAt(labels: seq<Label>, d: nat): Label
    requires d < |labels|
  {
    labels[|labels| - 1 - d]
  }

  // ------------------------------------------------------------------ validation

  /** What validation knows at the end of a sequence. */
  datatype Height = Invalid | Live(height: nat) | Dead

  function HeightAfterSeq(cs: seq<Ctl>, locals: nat, labels: seq<Label>, height: nat): Height
    requires labels != []
    decreases cs
  {
    if cs == [] then Live(height)
    else if cs[0].Br? then
      if BranchValid(labels, cs[0].depth, height) then Dead else Invalid
    else if cs[0].Unreachable? then Dead
    else
      match HeightAfterOne(cs[0], locals, labels, height)
      case Live(h) => HeightAfterSeq(cs[1..], locals, labels, h)
      case _ => Invalid
  }

  predicate BranchValid(labels: seq<Label>, d: nat, height: nat)
    requires labels != []
  {
    d < |labels| && Innermost(labels).base + LabelAt(labels, d).arity <= height
  }

  function HeightAfterOne(c: Ctl, locals: nat, labels: seq<Label>, height: nat): Height
    requires labels != []
    decreases c
  {
    var base := Innermost(labels).base;
    match c
    case Plain(op) =>
      if base <= height && Valid(op, locals, height - base) then Live(HeightAfter(op, locals, height)) else Invalid
    case BrIf(d) =>
      if 1 <= height && BranchValid(labels, d, height - 1) then Live(height - 1) else Invalid
    case Block(params, results, body) =>
      if base + params <= height then
        Closed(HeightAfterSeq(body, locals, labels + [Label(height - params, results, results)], height),
               height - params + results)
      else Invalid
    case Loop(params, results, body) =>
      if base + params <= height then
        Closed(HeightAfterSeq(body, locals, labels + [Label(height - params, params, results)], height),
               height - params + results)
      else Invalid
    case Br(_) => Invalid
    case Unreachable => Invalid
  }

  /** A construct whose body ends with its results, or cannot reach its end, leaves its results. */
  function Closed(inner: Height, after: nat): Height {
    if inner == Live(after) || inner == Dead then Live(after) else Invalid
  }

  /** The label of a whole body: branching to it is returning. */
  function FuncLabels(results: nat): seq<Label> {
    [Label(0, results, results)]
  }

  /** A body that ends with its results on the stack, or cannot reach its end. */
  predicate Validates(cs: seq<Ctl>, locals: nat, results: nat) {
    Closed(HeightAfterSeq(cs, locals, FuncLabels(results), 0), results).Live?
  }

  // ------------------------------------------------------------------ execution

  datatype Flow<+W> =
    | Fall(state: State<W>)
    | Jump(depth: nat, state: State<W>)
    | Stopped(world: W)
    | OutOfFuel

  /** A branch keeps what lies below its label and the values it carries. */
  function Unwind<W>(st: State<W>, base: nat, arity: nat): State<W> {
    if base + arity <= |st.stack| then st.(stack := st.stack[..base] + st.stack[|st.stack| - arity..]) else st
  }

  predicate IsTrue(v: Value) {
    v % POW2_32 != 0
  }

  ghost function RunSeq<W>(fx: Effects<W>, fuel: nat, cs: seq<Ctl>, st: State<W>): Flow<W>
    decreases fuel, cs, 0
  {
    if cs == [] then Fall(st)
    else
      match RunOne(fx, fuel, cs[0], st)
      case Fall(st') => RunSeq(fx, fuel, cs[1..], st')
      case f => f
  }

  ghost function RunOne<W>(fx: Effects<W>, fuel: nat, c: Ctl, st: State<W>): Flow<W>
    decreases fuel, c, 0
  {
    match c
    case Plain(op) =>
      if !Valid(op, |st.locals|, |st.stack|) then Stopped(st.world)
      else
        match StackStep(fx, op, st) {
          case Goes(st') => Fall(st')
          case Trapped(w) => Stopped(w)
        }
    case Br(d) => Jump(d, st)
    case BrIf(d) =>
      if st.stack == [] then Stopped(st.world)
      else
        var rest := st.(stack := st.stack[..|st.stack| - 1]);
        if IsTrue(st.stack[|st.stack| - 1]) then Jump(d, rest) else Fall(rest)
    case Unreachable => Stopped(st.world)
    case Block(params, results, body) =>
      if |st.stack| < params then Stopped(st.world)
      else Leave(RunSeq(fx, fuel, body, st), |st.stack| - params, results)
    case Loop(params, _, body) =>
      if |st.stack| < params then Stopped(st.world)
      else RunLoop(fx, fuel, body, |st.stack| - params, params, st)
  }

  /** The end of a block, for control that reached it and for a branch that named it. */
  function Leave<W>(f: Flow<W>, base: nat, arity: nat): Flow<W> {
    if f.Jump? then
      if f.depth == 0 then Fall(Unwind(f.state, base, arity)) else Jump(f.depth - 1, f.state)
    else f
  }

  ghost function RunLoop<W>(fx: Effects<W>, fuel: nat, body: seq<Ctl>, base: nat, arity: nat, st: State<W>): Flow<W>
    decreases fuel, body, 1
  {
    match RunSeq(fx, fuel, body, st)
    case Jump(d, st') =>
      if d != 0 then Jump(d - 1, st')
      else if fuel == 0 then OutOfFuel
      else RunLoop(fx, fuel - 1, body, base, arity, Unwind(st', base, arity))
    case f => f
  }
}
