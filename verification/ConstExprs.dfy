/**
 Constant expressions (`TraceVM::const_expr_evaluator`): a postfix evaluator on a small stack
 of tagged values, and the expression trees it evaluates.  A panic is the result `None`.
 */
module ConstExprs {
  import opened Values
  import opened OperandStack

  datatype Arith = Add | Sub | Mul

  datatype ConstInstr =
    | I32Const(i32: Int32) | I64Const(i64: Int64) | F32Const(f32: Bits32) | F64Const(f64: Bits64)
    | GlobalGet(index: nat) | RefNull | RefFunc(func: Bits32)
    | I32Arith(op32: Arith) | I64Arith(op64: Arith)
    | End | Forbidden(code: int)

  function Exact(op: Arith, a: int, b: int): int {
    match op
    case Add => a + b
    case Sub => a - b
    case Mul => a * b
  }

  /** Two's-complement wrap-around. */
  function Wrap32(x: int): (r: Int32)
    ensures (r - x) % POW2_32 == 0
  {
    var low := x % POW2_32;
    if low < 0x8000_0000 then low else low - POW2_32
  }

  function Wrap64(x: int): (r: Int64)
    ensures (r - x) % POW2_64 == 0
  {
    var low := x % POW2_64;
    if low < 0x8000_0000_0000_0000 then low else low - POW2_64
  }

  // ------------------------------------------------------------------ the evaluator

  /** The value a leaf instruction pushes. */
  function LeafValue(instr: ConstInstr, globals: seq<Val>): Option<Val> {
    match instr
    case I32Const(v) => Some(ValI32(v))
    case I64Const(v) => Some(ValI64(v))
    case F32Const(b) => Some(ValF32(b))
    case F64Const(b) => Some(ValF64(b))
    case GlobalGet(i) => if i < |globals| then Some(globals[i]) else None
    case RefNull => Some(ValRef(None))
    case RefFunc(f) => Some(ValRef(Some(f)))
    case _ => None
  }

  /** One instruction on the mathematical stack. */
  function Exec(instr: ConstInstr, globals: seq<Val>, st: seq<Val>): Option<seq<Val>> {
    match instr
    case I32Arith(op) =>
      if 2 <= |st| && st[|st| - 1].ValI32? && st[|st| - 2].ValI32?
      then Some(st[..|st| - 2] + [ValI32(Wrap32(Exact(op, st[|st| - 2].i32, st[|st| - 1].i32)))])
      else None
    case I64Arith(op) =>
      if 2 <= |st| && st[|st| - 1].ValI64? && st[|st| - 2].ValI64?
      then Some(st[..|st| - 2] + [ValI64(Wrap64(Exact(op, st[|st| - 2].i64, st[|st| - 1].i64)))])
      else None
    case End => Some(st)
    case _ =>
      match LeafValue(instr, globals)
      case Some(v) => Some(st + [v])
      case None => None
  }

  function ExecAll(instrs: seq<ConstInstr>, globals: seq<Val>, st: seq<Val>): Option<seq<Val>> {
    if instrs == [] then Some(st)
    else
      match Exec(instrs[0], globals, st)
      case Some(st') => ExecAll(instrs[1..], globals, st')
      case None => None
  }

  /** The evaluator's answer: the value on top once every instruction has run. */
  function Evaluation(instrs: seq<ConstInstr>, globals: seq<Val>): Option<Val> {
    match ExecAll(instrs, globals, [])
    case Some(st) => if st == [] then None else Some(st[|st| - 1])
    case None => None
  }

  /** `const_expr_evaluator`, on the operand stack of the stack machine. */
  method ConstExprEvaluator(instrs: seq<ConstInstr>, globals: seq<Val>) returns (r: Option<Val>)
    ensures r == Evaluation(instrs, globals)
  {
    var stack := new Stack<Val>();
    for i := 0 to |instrs|
      invariant fresh(stack) && stack.Valid()
      invariant ExecAll(instrs[i..], globals, stack.Contents()) == ExecAll(instrs, globals, [])
    {
      ghost var before := stack.Contents();
      assert instrs[i..][0] == instrs[i] && instrs[i..][1..] == instrs[i + 1..];
      match instrs[i]
      case I32Arith(op) =>
        if stack.stackPointer < 2 { return None; }
        var b := stack.Pop();
        var a := stack.Pop();
        if !b.ValI32? || !a.ValI32? { return None; }
        stack.Push(ValI32(Wrap32(Exact(op, a.i32, b.i32))));
        assert stack.Contents() == Exec(instrs[i], globals, before).value;
      case I64Arith(op) =>
        if stack.stackPointer < 2 { return None; }
        var b := stack.Pop();
        var a := stack.Pop();
        if !b.ValI64? || !a.ValI64? { return None; }
        stack.Push(ValI64(Wrap64(Exact(op, a.i64, b.i64))));
        assert stack.Contents() == Exec(instrs[i], globals, before).value;
      case End =>
      case _ =>
        var v := LeafValue(instrs[i], globals);
        if v.None? { return None; }
        stack.Push(v.value);
    }
    assert instrs[|instrs|..] == [];
    if stack.stackPointer == 0 { return None; }
    var top := stack.Pop();
    r := Some(top);
  }

  // ------------------------------------------------------------------ expression trees

  datatype Expr = Leaf(instr: ConstInstr) | Bin32(op: Arith, l: Expr, r: Expr) | Bin64(op: Arith, l: Expr, r: Expr)

  function LeafType(instr: ConstInstr, globals: seq<ValType>): Option<ValType> {
    match instr
    case I32Const(_) => Some(I32)
    case I64Const(_) => Some(I64)
    case F32Const(_) => Some(F32)
    case F64Const(_) => Some(F64)
    case GlobalGet(i) => if i < |globals| then Some(globals[i]) else None
    case RefNull => Some(FuncRef)
    case RefFunc(_) => Some(FuncRef)
    case _ => None
  }

  function ExprType(e: Expr, globals: seq<ValType>): Option<ValType> {
    match e
    case Leaf(instr) => LeafType(instr, globals)
    case Bin32(_, l, r) =>
      if ExprType(l, globals) == Some(I32) && ExprType(r, globals) == Some(I32) then Some(I32) else None
    case Bin64(_, l, r) =>
      if ExprType(l, globals) == Some(I64) && ExprType(r, globals) == Some(I64) then Some(I64) else None
  }

  /** What a well-typed expression denotes: wrapping arithmetic at the declared type. */
  function Denotes(e: Expr, tys: seq<ValType>, globals: seq<Val>): (v: Val)
    requires AllHaveType(globals, tys) && ExprType(e, tys).Some?
    ensures HasType(v, ExprType(e, tys).value)
  {
    match e
    case Leaf(instr) => LeafValue(instr, globals).value
    case Bin32(op, l, r) => ValI32(Wrap32(Exact(op, Denotes(l, tys, globals).i32, Denotes(r, tys, globals).i32)))
    case Bin64(op, l, r) => ValI64(Wrap64(Exact(op, Denotes(l, tys, globals).i64, Denotes(r, tys, globals).i64)))
  }

  function Postfix(e: Expr): seq<ConstInstr> {
    match e
    case Leaf(instr) => [instr]
    case Bin32(op, l, r) => Postfix(l) + Postfix(r) + [I32Arith(op)]
    case Bin64(op, l, r) => Postfix(l) + Postfix(r) + [I64Arith(op)]
  }

  lemma {:induction false} ExecConcat(xs: seq<ConstInstr>, ys: seq<ConstInstr>, globals: seq<Val>, st: seq<Val>)
    ensures ExecAll(xs + ys, globals, st) ==
      match ExecAll(xs, globals, st) { case Some(mid) => ExecAll(ys, globals, mid) case None => None }
  {
    if xs == [] {
      assert xs + ys == ys;
    } else {
      assert (xs + ys)[1..] == xs[1..] + ys;
      var step := Exec(xs[0], globals, st);
      if step.Some? {
        ExecConcat(xs[1..], ys, globals, step.value);
      }
    }
  }

  lemma ExecOne(instr: ConstInstr, globals: seq<Val>, st: seq<Val>)
    ensures ExecAll([instr], globals, st) == Exec(instr, globals, st)
  {
    assert [instr][1..] == [];
  }

  /** An arithmetic instruction replaces the two operands on top by their wrapped result. */
  lemma ArithOnTop(instr: ConstInstr, globals: seq<Val>, st: seq<Val>, a: Val, b: Val)
    requires (instr.I32Arith? && a.ValI32? && b.ValI32?) || (instr.I64Arith? && a.ValI64? && b.ValI64?)
    ensures ExecAll([instr], globals, st + [a] + [b]) == Some(st + [
      if instr.I32Arith? then ValI32(Wrap32(Exact(instr.op32, a.i32, b.i32)))
      else ValI64(Wrap64(Exact(instr.op64, a.i64, b.i64)))])
  {
    ExecOne(instr, globals, st + [a] + [b]);
    assert (st + [a] + [b])[..|st|] == st;
  }

  /** A well-typed expression in postfix pushes exactly its value, whatever lies beneath. */
  lemma {:induction false} PostfixPushesValue(e: Expr, tys: seq<ValType>, globals: seq<Val>, st: seq<Val>)
    requires AllHaveType(globals, tys) && ExprType(e, tys).Some?
    ensures ExecAll(Postfix(e), globals, st) == Some(st + [Denotes(e, tys, globals)])
  {
    match e {
      case Leaf(instr) =>
        ExecOne(instr, globals, st);
      case Bin32(op, l, r) =>
        PostfixPushesValue(l, tys, globals, st);
        PostfixPushesValue(r, tys, globals, st + [Denotes(l, tys, globals)]);
        ExecConcat(Postfix(l), Postfix(r), globals, st);
        ExecConcat(Postfix(l) + Postfix(r), [I32Arith(op)], globals, st);
        ArithOnTop(I32Arith(op), globals, st, Denotes(l, tys, globals), Denotes(r, tys, globals));
      case Bin64(op, l, r) =>
        PostfixPushesValue(l, tys, globals, st);
        PostfixPushesValue(r, tys, globals, st + [Denotes(l, tys, globals)]);
        ExecConcat(Postfix(l), Postfix(r), globals, st);
        ExecConcat(Postfix(l) + Postfix(r), [I64Arith(op)], globals, st);
        ArithOnTop(I64Arith(op), globals, st, Denotes(l, tys, globals), Denotes(r, tys, globals));
    }
  }

  /**
   The evaluator is correct and type-sound: on every well-typed expression, closed by `end`,
   it neither underflows nor meets a value of the wrong type, and returns the expression's
   value, which has the expression's type.
   */
  lemma EvaluatorCorrect(e: Expr, tys: seq<ValType>, globals: seq<Val>)
    requires AllHaveType(globals, tys) && ExprType(e, tys).Some?
    ensures Evaluation(Postfix(e) + [End], globals) == Some(Denotes(e, tys, globals))
    ensures HasType(Denotes(e, tys, globals), ExprType(e, tys).value)
  {
    PostfixPushesValue(e, tys, globals, []);
    ExecConcat(Postfix(e), [End], globals, []);
    ExecOne(End, globals, [Denotes(e, tys, globals)]);
    assert [] + [Denotes(e, tys, globals)] == [Denotes(e, tys, globals)];
  }

  // ------------------------------------------------------------------ and nothing else evaluates

  function PostfixAll(es: seq<Expr>): seq<ConstInstr> {
    if es == [] then [] else PostfixAll(es[..|es| - 1]) + Postfix(es[|es| - 1])
  }

  function WithoutEnds(instrs: seq<ConstInstr>): seq<ConstInstr> {
    if instrs == [] then []
    else WithoutEnds(instrs[..|instrs| - 1]) + (if instrs[|instrs| - 1] == End then [] else [instrs[|instrs| - 1]])
  }

  ghost predicate AllTyped(es: seq<Expr>, tys: seq<ValType>) {
    forall i :: 0 <= i < |es| ==> ExprType(es[i], tys).Some?
  }

  /** Every value on the stack is the value of the expression at its position. */
  ghost predicate Spells(es: seq<Expr>, tys: seq<ValType>, globals: seq<Val>, st: seq<Val>)
    requires AllHaveType(globals, tys)
  {
    AllTyped(es, tys) && |es| == |st| && forall i :: 0 <= i < |es| ==> Denotes(es[i], tys, globals) == st[i]
  }

  lemma SpellsSnoc(fs: seq<Expr>, e: Expr, tys: seq<ValType>, globals: seq<Val>, st: seq<Val>)
    requires AllHaveType(globals, tys) && Spells(fs, tys, globals, st) && ExprType(e, tys).Some?
    ensures Spells(fs + [e], tys, globals, st + [Denotes(e, tys, globals)])
  {
    hide Denotes, ExprType;
    var es, vs := fs + [e], st + [Denotes(e, tys, globals)];
    forall i | 0 <= i < |es|
      ensures ExprType(es[i], tys).Some? && Denotes(es[i], tys, globals) == vs[i]
    {
      if i < |fs| {
        assert es[i] == fs[i];
      }
    }
  }

  /** A run that does not panic has evaluated well-typed expressions, one per value it left. */
  lemma {:induction false} RunsAreExpressions(instrs: seq<ConstInstr>, tys: seq<ValType>, globals: seq<Val>)
    returns (es: seq<Expr>)
    requires AllHaveType(globals, tys) && ExecAll(instrs, globals, []).Some?
    ensures Spells(es, tys, globals, ExecAll(instrs, globals, []).value)
    ensures PostfixAll(es) == WithoutEnds(instrs)
  {
    if instrs == [] {
      es := [];
    } else {
      var before, last := instrs[..|instrs| - 1], instrs[|instrs| - 1];
      assert instrs == before + [last];
      ExecConcat(before, [last], globals, []);
      var st := ExecAll(before, globals, []).value;
      ExecOne(last, globals, st);
      var fs := RunsAreExpressions(before, tys, globals);
      es := ExtendRun(fs, last, tys, globals, st);
    }
  }

  lemma PostfixSnoc(fs: seq<Expr>, e: Expr)
    ensures PostfixAll(fs + [e]) == PostfixAll(fs) + Postfix(e)
  {
    hide Postfix;
    assert (fs + [e])[..|fs|] == fs;
  }

  /** What a run must have found on the stack to get past an instruction. */
  lemma ExecFinds(instr: ConstInstr, globals: seq<Val>, st: seq<Val>)
    requires Exec(instr, globals, st).Some?
    ensures if instr == End then Exec(instr, globals, st).value == st
      else if instr.I32Arith? || instr.I64Arith? then
        2 <= |st| && Exec(instr, globals, st).value[..|st| - 2] == st[..|st| - 2]
        && |Exec(instr, globals, st).value| == |st| - 1
      else
        LeafValue(instr, globals).Some? && Exec(instr, globals, st).value == st + [LeafValue(instr, globals).value]
  {
    hide Wrap32, Wrap64, Exact;
  }

  lemma ExtendRun(fs: seq<Expr>, instr: ConstInstr, tys: seq<ValType>, globals: seq<Val>, st: seq<Val>)
    returns (es: seq<Expr>)
    requires AllHaveType(globals, tys) && Spells(fs, tys, globals, st) && Exec(instr, globals, st).Some?
    ensures Spells(es, tys, globals, Exec(instr, globals, st).value)
    ensures PostfixAll(es) == PostfixAll(fs) + (if instr == End then [] else [instr])
  {
    hide Exec, PostfixAll, Denotes, ExprType, LeafValue;
    ExecFinds(instr, globals, st);
    if instr == End {
      es := fs;
    } else if instr.I32Arith? {
      es := ExtendByArith(fs, Bin32(instr.op32, fs[|fs| - 2], fs[|fs| - 1]), instr, tys, globals, st);
    } else if instr.I64Arith? {
      es := ExtendByArith(fs, Bin64(instr.op64, fs[|fs| - 2], fs[|fs| - 1]), instr, tys, globals, st);
    } else {
      es := fs + [Leaf(instr)];
      ExtendByLeaf(fs, instr, tys, globals, st);
    }
  }

  lemma ExtendByLeaf(fs: seq<Expr>, instr: ConstInstr, tys: seq<ValType>, globals: seq<Val>, st: seq<Val>)
    requires AllHaveType(globals, tys) && Spells(fs, tys, globals, st) && LeafValue(instr, globals).Some?
    ensures Spells(fs + [Leaf(instr)], tys, globals, st + [LeafValue(instr, globals).value])
    ensures PostfixAll(fs + [Leaf(instr)]) == PostfixAll(fs) + [instr]
  {
    hide *;
    PostfixSnoc(fs, Leaf(instr));
    LeafIsOne(instr, tys, globals);
    SpellsSnoc(fs, Leaf(instr), tys, globals, st);
  }

  lemma LeafIsOne(instr: ConstInstr, tys: seq<ValType>, globals: seq<Val>)
    requires AllHaveType(globals, tys) && LeafValue(instr, globals).Some?
    ensures ExprType(Leaf(instr), tys).Some? && Denotes(Leaf(instr), tys, globals) == LeafValue(instr, globals).value
    ensures Postfix(Leaf(instr)) == [instr]
  {
  }

  /** Two expressions and an operator on their values make one, with the value the evaluator pushes. */
  lemma JoinedDenotes(x: Expr, y: Expr, joined: Expr, instr: ConstInstr, tys: seq<ValType>, globals: seq<Val>,
    st: seq<Val>)
    requires AllHaveType(globals, tys) && ExprType(x, tys).Some? && ExprType(y, tys).Some? && 2 <= |st|
    requires st[|st| - 2] == Denotes(x, tys, globals) && st[|st| - 1] == Denotes(y, tys, globals)
    requires (instr.I32Arith? && joined == Bin32(instr.op32, x, y))
      || (instr.I64Arith? && joined == Bin64(instr.op64, x, y))
    requires Exec(instr, globals, st).Some?
    ensures ExprType(joined, tys).Some?
    ensures Exec(instr, globals, st).value == st[..|st| - 2] + [Denotes(joined, tys, globals)]
    ensures Postfix(joined) == Postfix(x) + Postfix(y) + [instr]
  {
    hide Wrap32, Wrap64, Exact;
  }

  lemma ExtendByArith(fs: seq<Expr>, joined: Expr, instr: ConstInstr, tys: seq<ValType>, globals: seq<Val>,
    st: seq<Val>)
    returns (es: seq<Expr>)
    requires AllHaveType(globals, tys) && Spells(fs, tys, globals, st) && Exec(instr, globals, st).Some? && 2 <= |fs|
    requires (instr.I32Arith? && joined == Bin32(instr.op32, fs[|fs| - 2], fs[|fs| - 1]))
      || (instr.I64Arith? && joined == Bin64(instr.op64, fs[|fs| - 2], fs[|fs| - 1]))
    ensures Spells(es, tys, globals, Exec(instr, globals, st).value)
    ensures PostfixAll(es) == PostfixAll(fs) + [instr]
  {
    hide Exec, Postfix, PostfixAll, Denotes, ExprType;
    var n := |fs|;
    es := fs[..n - 2] + [joined];
    assert ExprType(fs[n - 2], tys).Some? && ExprType(fs[n - 1], tys).Some?;
    JoinedDenotes(fs[n - 2], fs[n - 1], joined, instr, tys, globals, st);
    JoinLastTwo(fs, joined, instr);
    forall i | 0 <= i < n - 2
      ensures ExprType(es[i], tys).Some? && Denotes(es[i], tys, globals) == st[i]
    {
      assert es[i] == fs[i];
    }
  }

  lemma JoinLastTwo(fs: seq<Expr>, joined: Expr, instr: ConstInstr)
    requires 2 <= |fs| && Postfix(joined) == Postfix(fs[|fs| - 2]) + Postfix(fs[|fs| - 1]) + [instr]
    ensures PostfixAll(fs[..|fs| - 2] + [joined]) == PostfixAll(fs) + [instr]
  {
    hide Postfix, PostfixAll;
    var front, x, y := fs[..|fs| - 2], fs[|fs| - 2], fs[|fs| - 1];
    PostfixSnoc(front, joined);
    PostfixSnoc(front, x);
    PostfixSnoc(front + [x], y);
    assert front + [x] + [y] == fs;
  }

  lemma {:induction false} ExpressionsRun(es: seq<Expr>, tys: seq<ValType>, globals: seq<Val>)
    requires AllHaveType(globals, tys) && AllTyped(es, tys)
    ensures ExecAll(PostfixAll(es), globals, []).Some?
    ensures Spells(es, tys, globals, ExecAll(PostfixAll(es), globals, []).value)
  {
    if es != [] {
      var fs, e := es[..|es| - 1], es[|es| - 1];
      assert ExprType(e, tys).Some? && AllTyped(fs, tys);
      assert PostfixAll(es) == PostfixAll(fs) + Postfix(e);
      hide *;
      ExpressionsRun(fs, tys, globals);
      var st := ExecAll(PostfixAll(fs), globals, []).value;
      PostfixPushesValue(e, tys, globals, st);
      ExecConcat(PostfixAll(fs), Postfix(e), globals, []);
      SpellsSnoc(fs, e, tys, globals, st);
      assert fs + [e] == es;
    }
  }

  lemma {:induction false} EndsDoNothing(instrs: seq<ConstInstr>, globals: seq<Val>)
    ensures ExecAll(WithoutEnds(instrs), globals, []) == ExecAll(instrs, globals, [])
  {
    if instrs != [] {
      var before, last := instrs[..|instrs| - 1], instrs[|instrs| - 1];
      assert instrs == before + [last];
      EndsDoNothing(before, globals);
      ExecConcat(before, [last], globals, []);
      ExecConcat(WithoutEnds(before), if last == End then [] else [last], globals, []);
      if ExecAll(before, globals, []).Some? {
        ExecOne(last, globals, ExecAll(before, globals, []).value);
      }
    }
  }

  /**
   The evaluator accepts an instruction sequence exactly when, `end`s aside, it spells one or
   more well-typed expressions; it then answers with the value of the last of them.
   */
  lemma EvaluatesIffExpressions(instrs: seq<ConstInstr>, tys: seq<ValType>, globals: seq<Val>)
    requires AllHaveType(globals, tys)
    ensures Evaluation(instrs, globals).Some? <==>
      exists es :: es != [] && AllTyped(es, tys) && PostfixAll(es) == WithoutEnds(instrs)
    ensures forall es :: es != [] && AllTyped(es, tys) && PostfixAll(es) == WithoutEnds(instrs) ==>
      Evaluation(instrs, globals) == Some(Denotes(es[|es| - 1], tys, globals))
  {
    hide ExecAll, PostfixAll, WithoutEnds, Denotes, ExprType;
    if Evaluation(instrs, globals).Some? {
      var es := RunsAreExpressions(instrs, tys, globals);
    }
    forall es | es != [] && AllTyped(es, tys) && PostfixAll(es) == WithoutEnds(instrs)
      ensures Evaluation(instrs, globals) == Some(Denotes(es[|es| - 1], tys, globals))
    {
      ExpressionsRun(es, tys, globals);
      EndsDoNothing(instrs, globals);
    }
  }
}
