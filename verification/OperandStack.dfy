/**
 The stack machine's operand stack (`tracewasm-core/src/runtime/stack.rs`): a stack pointer
 kept apart from the length of its backing vector, and the frame store built on it.
 */
module OperandStack {
  import opened Values
  import opened Drivers
  import opened FrameConvention

  /** `Stack<T>`: only `stack[..stackPointer]` is live; what lies above is stale. */
  class Stack<T> {
    var stack: seq<T>
    var stackPointer: nat

    ghost predicate Valid()
      reads this
    {
      stackPointer <= |stack|
    }

    ghost function Contents(): seq<T>
      reads this
      requires Valid()
    {
      stack[..stackPointer]
    }

    constructor ()
      ensures Valid() && Contents() == []
    {
      stack, stackPointer := [], 0;
    }

    method Reset()
      requires Valid()
      modifies this
      ensures Valid() && Contents() == [] && |stack| == |old(stack)|
    {
      stackPointer := 0;
    }

    method Height() returns (h: nat)
      requires Valid()
      ensures h == |Contents()|
    {
      h := stackPointer;
    }

    /** Reuses a stale slot below the high-water mark and grows the vector only at it. */
    method Push(x: T)
      requires Valid()
      modifies this
      ensures Valid() && Contents() == old(Contents()) + [x]
      ensures |old(stack)| <= |stack|
    {
      if stackPointer < |stack| {
        stack := stack[stackPointer := x];
      } else {
        stack := stack + [x];
      }
      stackPointer := stackPointer + 1;
    }

    method Pop() returns (x: T)
      requires Valid() && Contents() != []
      modifies this
      ensures Valid() && old(Contents()) == Contents() + [x]
      ensures |stack| == |old(stack)|
    {
      x := stack[stackPointer - 1];
      stackPointer := stackPointer - 1;
    }

    method PeekFromTop(depth: nat) returns (x: T)
      requires Valid() && depth < |Contents()|
      ensures x == Contents()[|Contents()| - 1 - depth]
    {
      x := stack[stackPointer - 1 - depth];
    }

    /** Removes `num` values, returning the former top first. */
    method Pops(num: nat) returns (xs: seq<T>)
      requires Valid() && num <= |Contents()|
      modifies this
      ensures Valid() && |xs| == num && |stack| == |old(stack)|
      ensures Contents() == old(Contents())[..|old(Contents())| - num]
      ensures forall i :: 0 <= i < num ==> xs[i] == old(Contents())[|old(Contents())| - 1 - i]
    {
      xs := [];
      for i := 0 to num
        invariant |xs| == i && stack == old(stack) && stackPointer == old(stackPointer)
        invariant forall j :: 0 <= j < i ==> xs[j] == stack[stackPointer - 1 - j]
      {
        xs := xs + [stack[stackPointer - 1 - i]];
      }
      stackPointer := stackPointer - num;
    }

    /** Removes `num` values, returning them in push order. */
    method PopsAndReverse(num: nat) returns (xs: seq<T>)
      requires Valid() && num <= |Contents()|
      modifies this
      ensures Valid() && |xs| == num && |stack| == |old(stack)|
      ensures old(Contents()) == Contents() + xs
    {
      xs := [];
      for i := 0 to num
        invariant xs == stack[stackPointer - num..stackPointer - num + i]
        invariant stack == old(stack) && stackPointer == old(stackPointer)
      {
        xs := xs + [stack[stackPointer - num + i]];
      }
      stackPointer := stackPointer - num;
    }

    method Truncate(height: nat)
      requires Valid() && height <= |Contents()|
      modifies this
      ensures Valid() && Contents() == old(Contents())[..height] && |stack| == |old(stack)|
    {
      stackPointer := height;
    }

    /** A taken branch: keeps the top `arity` values and drops what lies between them and `height`. */
    method TruncateByPreservingArity(height: nat, arity: nat)
      requires Valid() && height + arity <= |Contents()|
      modifies this
      ensures Valid() && |stack| == |old(stack)|
      ensures Contents() == old(Contents())[..height] + old(Contents())[|old(Contents())| - arity..]
    {
      hide Patched;
      ghost var before, top := stack, stackPointer;
      ghost var kept := before[top - arity..top];
      PatchNone(before, height, kept);
      for i := 0 to arity
        invariant stackPointer == top
        invariant stack == Patched(before, height, kept, i)
      {
        NotYetMoved(before, top, height, arity, i);
        PatchOne(before, height, kept, i);
        stack := stack[height + i := stack[stackPointer - arity + i]];
      }
      stackPointer := height + arity;
      KeptOnTop(before, top, height, arity);
    }
  }

  /** The copy reads each value before it can have overwritten it. */
  lemma NotYetMoved<T>(stack: seq<T>, top: nat, height: nat, arity: nat, i: nat)
    requires height + arity <= top <= |stack| && i < arity
    ensures Patched(stack, height, stack[top - arity..top], i)[top - arity + i] == stack[top - arity..top][i]
  {
  }

  /** Moving the top values down in place leaves them on top of the untouched part below. */
  lemma KeptOnTop<T>(stack: seq<T>, top: nat, height: nat, arity: nat)
    requires height + arity <= top <= |stack|
    ensures var live := stack[..top];
      Patched(stack, height, stack[top - arity..top], arity)[..height + arity]
        == live[..height] + live[|live| - arity..]
  {
  }

  // ------------------------------------------------------------------ histories

  /** One legal use of the stack, as an operand-stack discipline sees it. */
  datatype StackOp<+T> =
    | OpPush(x: T) | OpPop | OpPeek(depth: nat) | OpPops(num: nat) | OpTruncate(height: nat) | OpUnwind(height: nat,
      arity: nat) | OpReset

  predicate Legal<T>(op: StackOp<T>, xs: seq<T>) {
    match op
    case OpPush(_) => true
    case OpPop => xs != []
    case OpPeek(d) => d < |xs|
    case OpPops(n) => n <= |xs|
    case OpTruncate(h) => h <= |xs|
    case OpUnwind(h, a) => h + a <= |xs|
    case OpReset => true
  }

  /** The mathematical stack, and what each use of it returns, deepest value first. */
  function Effect<T>(op: StackOp<T>, xs: seq<T>): (seq<T>, seq<T>)
    requires Legal(op, xs)
  {
    match op
    case OpPush(x) => (xs + [x], [])
    case OpPop => (xs[..|xs| - 1], xs[|xs| - 1..])
    case OpPeek(d) => (xs, [xs[|xs| - 1 - d]])
    case OpPops(n) => (xs[..|xs| - n], xs[|xs| - n..])
    case OpTruncate(h) => (xs[..h], [])
    case OpUnwind(h, a) => (xs[..h] + xs[|xs| - a..], [])
    case OpReset => ([], [])
  }

  ghost predicate LegalHistory<T>(ops: seq<StackOp<T>>, xs: seq<T>) {
    ops != [] ==> Legal(ops[0], xs) && LegalHistory(ops[1..], Effect(ops[0], xs).0)
  }

  ghost function Outputs<T>(ops: seq<StackOp<T>>, xs: seq<T>): seq<seq<T>>
    requires LegalHistory(ops, xs)
  {
    if ops == [] then [] else [Effect(ops[0], xs).1] + Outputs(ops[1..], Effect(ops[0], xs).0)
  }

  ghost function Final<T>(ops: seq<StackOp<T>>, xs: seq<T>): seq<T>
    requires LegalHistory(ops, xs)
  {
    if ops == [] then xs else Final(ops[1..], Effect(ops[0], xs).0)
  }

  method Apply<T>(s: Stack<T>, op: StackOp<T>) returns (out: seq<T>)
    requires s.Valid() && Legal(op, s.Contents())
    modifies s
    ensures s.Valid() && |old(s.stack)| <= |s.stack|
    ensures (s.Contents(), out) == Effect(op, old(s.Contents()))
  {
    out := [];
    match op {
      case OpPush(x) => s.Push(x);
      case OpPop => var x := s.Pop(); out := [x];
      case OpPeek(d) => var x := s.PeekFromTop(d); out := [x];
      case OpPops(n) => out := s.PopsAndReverse(n);
      case OpTruncate(h) => s.Truncate(h);
      case OpUnwind(h, a) => s.TruncateByPreservingArity(h, a);
      case OpReset => s.Reset();
    }
  }

  /**
   Over any legal history the stack is a mathematical sequence: what it returns and what it
   ends with depend only on its live prefix at the start, never on a stale slot, and the
   backing vector never shrinks.
   */
  method RunHistory<T>(s: Stack<T>, ops: seq<StackOp<T>>) returns (outs: seq<seq<T>>)
    requires s.Valid() && LegalHistory(ops, s.Contents())
    modifies s
    ensures s.Valid() && |old(s.stack)| <= |s.stack|
    ensures outs == Outputs(ops, old(s.Contents()))
    ensures s.Contents() == Final(ops, old(s.Contents()))
  {
    outs := [];
    var rest := ops;
    while rest != []
      invariant s.Valid() && |old(s.stack)| <= |s.stack|
      invariant LegalHistory(rest, s.Contents())
      invariant outs + Outputs(rest, s.Contents()) == Outputs(ops, old(s.Contents()))
      invariant Final(rest, s.Contents()) == Final(ops, old(s.Contents()))
      decreases |rest|
    {
      ghost var before := s.Contents();
      var out := Apply(s, rest[0]);
      assert outs + Outputs(rest, before) == outs + [out] + Outputs(rest[1..], s.Contents());
      outs := outs + [out];
      rest := rest[1..];
    }
  }

  // ------------------------------------------------------------------ the frame store

  /** The two heights of a stack frame: the bottom of its locals and the bottom of its operands. */
  datatype StackBase = StackBase(baseHeight: nat, operandBase: nat)

  /** The operand base of a frame not yet entered. */
  const UNSET := 0xFFFF_FFFF

  /** `initial_data`: where the entry function's frame begins. */
  const ENTRY_BASE := StackBase(0, UNSET)

  method SetInitialParams(s: Stack<Value>, params: seq<Val>)
    requires s.Valid()
    modifies s
    ensures s.Valid() && s.Contents() == old(s.Contents()) + UntagAll(params)
  {
    for i := 0 to |params|
      invariant s.Valid() && s.Contents() == old(s.Contents()) + UntagAll(params)[..i]
    {
      s.Push(Untag(params[i]));
    }
  }

  /** Pushes a zero per declared local and records where the operands begin. */
  method EnterFrame(s: Stack<Value>, params: nat, locals: seq<ValType>, base: StackBase) returns (base': StackBase)
    requires s.Valid() && params <= |locals|
    modifies s
    ensures s.Valid() && s.Contents() == old(s.Contents()) + Zeros(locals[params..])
    ensures base' == StackBase(base.baseHeight, base.baseHeight + |locals|)
  {
    ghost var zeros := Zeros(locals[params..]);
    for i := 0 to |locals| - params
      invariant s.Valid() && s.Contents() == old(s.Contents()) + zeros[..i]
    {
      s.Push(ZeroOf(locals[i + params]));
    }
    base' := base.(operandBase := base.baseHeight + |locals|);
  }

  /** Truncates to the bottom of the locals, keeping the results. */
  method ExitFrame(s: Stack<Value>, results: nat, base: StackBase)
    requires s.Valid() && base.baseHeight + results <= |s.Contents()|
    modifies s
    ensures s.Valid()
    ensures s.Contents() == old(s.Contents())[..base.baseHeight] + old(s.Contents())[|old(s.Contents())| - results..]
  {
    s.TruncateByPreservingArity(base.baseHeight, results);
  }

  method GetParamsForImportCall(s: Stack<Value>, params: nat) returns (ws: seq<Value>)
    requires s.Valid() && params <= |s.Contents()|
    modifies s
    ensures s.Valid() && |ws| == params && old(s.Contents()) == s.Contents() + ws
  {
    ws := s.PopsAndReverse(params);
  }

  method SetResultsFromImportCall(s: Stack<Value>, results: seq<Val>)
    requires s.Valid()
    modifies s
    ensures s.Valid() && s.Contents() == old(s.Contents()) + UntagAll(results)
  {
    SetInitialParams(s, results);
  }

  // ------------------------------------------------------------------ the convention

  datatype StackStore<+W> = StackStore(slots: seq<Value>, rest: W)

  /**
   The operand stack as the convention sees it: nothing is reserved beyond the live values, and
   a caller finds the results of a call on top because the stack ends with them.
   */
  function StackView<L, W>(): View<L, StackBase, StackStore<W>> {
    View(
      (s: StackStore<W>) => s.slots,
      (s: StackStore<W>) => 0,
      (b: StackBase) => b.baseHeight,
      (body: Body<L>, b: StackBase) => b.baseHeight + |body.locals|,
      (body: Body<L>, b: StackBase, s: StackStore<W>) => b.operandBase == b.baseHeight + |body.locals|,
      (ty: FuncType, b: StackBase, s: StackStore<W>) => b.baseHeight + |ty.params| == |s.slots|,
      (body: Body<L>, n: nat, b: StackBase, s: StackStore<W>) => b.operandBase + n <= |s.slots|,
      (body: Body<L>, n: nat, b: StackBase, s: StackStore<W>) =>
        if n <= |s.slots| then s.slots[|s.slots| - n..] else [],
      (end: nat, s: StackStore<W>) => |s.slots| == end,
      (body: Body<L>, ty: FuncType) => |ty.params| <= |body.locals|)
  }

  /**
   The stack machine: any instruction set over this store.  A callee's arguments are the top
   values when it is entered, so entering drops nothing the source would keep.
   */
  function StackMachine<L, W>(execute: (Instr, L, StackBase, StackStore<W>) -> Exec<StackBase, StackStore<W>>)
    : Machine<L, StackBase, StackStore<W>>
  {
    Machine(
      execute,
      (n: nat, tys: seq<ValType>, b: StackBase, l: L, s: StackStore<W>) =>
        (StackBase(b.baseHeight, b.baseHeight + |tys|),
         if n <= |tys| then s.(slots := s.slots + Zeros(tys[n..])) else s),
      (n: nat, b: StackBase, l: L, s: StackStore<W>) =>
        if b.baseHeight + n <= |s.slots|
        then s.(slots := s.slots[..b.baseHeight] + s.slots[|s.slots| - n..]) else s)
  }

  lemma StackEnters<L, W>(
    m: Machine<L, StackBase, StackStore<W>>, body: Body<L>, ty: FuncType, b: StackBase, s: StackStore<W>)
    requires exists x :: m == StackMachine(x)
    ensures EnterLaw(StackView<L, W>(), m, body, ty, b, s)
  {
  }

  lemma StackExits<L, W>(
    m: Machine<L, StackBase, StackStore<W>>, body: Body<L>, ty: FuncType, b: StackBase, s: StackStore<W>)
    requires exists x :: m == StackMachine(x)
    ensures ExitLaw(StackView<L, W>(), m, body, ty, b, s)
  {
  }

  /** The operand stack implements the same calling convention as the register file. */
  lemma StackImplements<L(!new), W(!new)>(
    execute: (Instr, L, StackBase, StackStore<W>) -> Exec<StackBase, StackStore<W>>)
    ensures Implements(StackView<L, W>(), StackMachine(execute))
  {
    var v, m := StackView<L, W>(), StackMachine(execute);
    forall body, ty, b, s ensures EnterLaw(v, m, body, ty, b, s) {
      StackEnters(m, body, ty, b, s);
    }
    forall body, ty, b, s ensures ExitLaw(v, m, body, ty, b, s) {
      StackExits(m, body, ty, b, s);
    }
    assert forall body, b, s, t :: StableLaw(v, body, b, s, t);
  }

  /**
   No tree of calls on the operand stack disturbs its callers: a call that returns leaves the
   stack as it was below its arguments, and on top of that the top values its own activation
   ended with, and nothing else.
   */
  lemma StackCallTree<L(!new), W(!new)>(
    e: Env<L, StackBase, StackStore<W>>,
    execute: (Instr, L, StackBase, StackStore<W>) -> Exec<StackBase, StackStore<W>>,
    known: Known<StackBase, StackStore<W>>, fuel: nat, g: nat, base: StackBase, s: StackStore<W>, depth: nat)
    requires OffsetsParallel(e.program) && e.machine == StackMachine(execute) && IsLocal(e.program, g)
    requires Disciplined(StackView<L, W>(), e, known)
    requires base.baseHeight + |e.program.signatures[g].params| == |s.slots|
    ensures var r, end := NativeCall(e, fuel, g, base, s, depth), CallEnding(e, fuel, g, base, s, depth);
      var n := ResultCount(e.program, g);
      r.Returned? ==>
        && end.Some? && n <= |end.value.store.slots|
        && r.store.slots == s.slots[..base.baseHeight] + end.value.store.slots[|end.value.store.slots| - n..]
  {
    StackImplements(execute);
    CallKeeps(StackView<L, W>(), e, known, fuel, g, base, s, depth);
    var r := NativeCall(e, fuel, g, base, s, depth);
    if r.Returned? {
      var n := ResultCount(e.program, g);
      var end := CallEnding(e, fuel, g, base, s, depth).value;
      assert r.store.slots == r.store.slots[..base.baseHeight] + r.store.slots[base.baseHeight..base.baseHeight + n];
    }
  }
}
