/**
 Straight-line WebAssembly as the stack machine runs it: the reference the register lowering
 is compared with.  Value operators, globals, memory accesses and the like are one operator
 form with an arbitrary effect on the rest of the instance.
 */
module StackCode {
  import opened Values

  datatype Op =
    | Const(c: Val)
    | LocalGet(index: nat)
    | LocalSet(index: nat)
    | LocalTee(index: nat)
    | Drop
    | Apply(code: int, ins: nat, outs: nat)
    | Invoke(callee: nat, params: nat, results: nat)

  /**
   What operators and callees compute: from their operands and the rest of the instance,
   results or a trap, and the rest of the instance afterwards.
   */
  datatype Effects<!W> = Effects(
    apply: (int, seq<Value>, W) -> (Option<seq<Value>>, W),
    call: (nat, seq<Value>, W) -> (Option<seq<Value>>, W))

  datatype State<+W> = State(locals: seq<Value>, stack: seq<Value>, world: W)

  datatype Outcome<+T, +W> = Goes(state: T) | Trapped(world: W)

  /** Validation: the operands an operator needs are there, and its locals exist. */
  predicate Valid(op: Op, locals: nat, height: nat) {
    match op
    case Const(_) => true
    case LocalGet(i) => i < locals
    case LocalSet(i) => i < locals && 1 <= height
    case LocalTee(i) => i < locals && 1 <= height
    case Drop => 1 <= height
    case Apply(_, ins, _) => ins <= height
    case Invoke(_, params, _) => params <= height
  }

  function HeightAfter(op: Op, locals: nat, height: nat): nat
    requires Valid(op, locals, height)
  {
    match op
    case Const(_) => height + 1
    case LocalGet(_) => height + 1
    case LocalSet(_) => height - 1
    case LocalTee(_) => height
    case Drop => height - 1
    case Apply(_, ins, outs) => height - ins + outs
    case Invoke(_, params, results) => height - params + results
  }

  /** A sequence that validation accepts, ending with `final` operands on the stack. */
  ghost predicate ValidCode(ops: seq<Op>, locals: nat, height: nat, final: nat) {
    if ops == [] then height == final
    else Valid(ops[0], locals, height) && ValidCode(ops[1..], locals, HeightAfter(ops[0], locals, height), final)
  }

  /** The results of an operator of declared arity `outs`, or a trap. */
  function Answer<W>(r: (Option<seq<Value>>, W), outs: nat): Outcome<(seq<Value>, W), W> {
    if r.0.Some? && |r.0.value| == outs then Goes((r.0.value, r.1)) else Trapped(r.1)
  }

  function StackStep<W>(fx: Effects<W>, op: Op, st: State<W>): Outcome<State<W>, W>
    requires Valid(op, |st.locals|, |st.stack|)
  {
    var n := |st.stack|;
    match op
    case Const(c) => Goes(st.(stack := st.stack + [Untag(c)]))
    case LocalGet(i) => Goes(st.(stack := st.stack + [st.locals[i]]))
    case LocalSet(i) => Goes(st.(locals := st.locals[i := st.stack[n - 1]], stack := st.stack[..n - 1]))
    case LocalTee(i) => Goes(st.(locals := st.locals[i := st.stack[n - 1]]))
    case Drop => Goes(st.(stack := st.stack[..n - 1]))
    case Apply(code, ins, outs) => (
      match Answer(fx.apply(code, st.stack[n - ins..], st.world), outs)
      case Goes((rs, w)) => Goes(State(st.locals, st.stack[..n - ins] + rs, w))
      case Trapped(w) => Trapped(w))
    case Invoke(callee, params, results) => (
      match Answer(fx.call(callee, st.stack[n - params..], st.world), results)
      case Goes((rs, w)) => Goes(State(st.locals, st.stack[..n - params] + rs, w))
      case Trapped(w) => Trapped(w))
  }

  lemma StackStepShape<W>(fx: Effects<W>, op: Op, st: State<W>)
    requires Valid(op, |st.locals|, |st.stack|)
    ensures var r := StackStep(fx, op, st);
      r.Goes? ==> |r.state.locals| == |st.locals| && |r.state.stack| == HeightAfter(op, |st.locals|, |st.stack|)
  {
  }

  ghost function StackRun<W>(fx: Effects<W>, ops: seq<Op>, final: nat, st: State<W>): Outcome<State<W>, W>
    requires ValidCode(ops, |st.locals|, |st.stack|, final)
  {
    if ops == [] then Goes(st)
    else
      StackStepShape(fx, ops[0], st);
      match StackStep(fx, ops[0], st)
      case Goes(st') => StackRun(fx, ops[1..], final, st')
      case Trapped(w) => Trapped(w)
  }
}
