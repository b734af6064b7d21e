/**
 Operands over a context's type and constant pools (`tracewasm-llvm/src/value.rs`,
 `tracewasm-llvm/src/cfg/context.rs`): bringing operands to a type, building aggregates, and
 walking a type by `getelementptr` indices.

 `Interner::intern` panics when a pool is full; that outcome is `PoolFull` here.
 */
module TypeContext {
  import opened Values
  import opened Interning
  import opened Types
  import opened TypePrinting
  import opened Constants

  /** How an operand is obtained: a pooled literal, or anything else, identified by a tag. */
  datatype OperandKind = Literal(constId: nat) | Other(tag: int)

  datatype Operand = Operand(ty: TyId, kind: OperandKind)

  /** `None` in the source is `No`. */
  datatype Attempt<+T> = Yes(value: T) | No | PoolFull

  /** A literal's operand claims the type its stored constant has. */
  predicate WellTyped(types: seq<Type>, consts: seq<ConstValue>, op: Operand) {
    && op.ty < |types|
    && (op.kind.Literal? ==> op.kind.constId < |consts| && types[op.ty] == ConstType(consts[op.kind.constId]))
  }

  /** `is_first_class`: everything but `void` and function types has a size. */
  predicate FirstClass(types: seq<Type>, id: TyId)
    requires id < |types|
  {
    !(types[id] == Prim(TyVoid) || types[id].Func?)
  }

  /** `TyId::width`, in bits. */
  function BitWidth(t: Type): Option<nat> {
    match t
    case Prim(p) => (
      match p
      case TyI1 => Some(1)
      case TyI8 => Some(8)
      case TyI16 => Some(16)
      case TyI32 => Some(32)
      case TyI64 => Some(64)
      case TyHalf => Some(16)
      case TyBfloat => Some(16)
      case TyFloat => Some(32)
      case TyDouble => Some(64)
      case TyPtr => None
      case TyVoid => None)
    case _ => None
  }

  // ------------------------------------------------------------------ casting operands

  /** `Value::try_cast`: folds a literal into the type, and only checks anything else. */
  ghost function CastOperand(
    types: seq<Type>, consts: seq<ConstValue>, limit: nat, fl: FloatOps, op: Operand, ty: TyId, s: Signedness)
    : (Attempt<Operand>, seq<ConstValue>)
    requires WellTyped(types, consts, op) && ty < |types|
  {
    if !FirstClass(types, ty) then (No, consts)
    else match op.kind
      case Other(_) => (if op.ty == ty then Yes(op) else No, consts)
      case Literal(id) =>
        match TryCast(fl, consts[id], types[ty], s)
        case None => (No, consts)
        case Some(c) =>
          var (r, consts') := Intern(consts, limit, c);
          (if r.Id? then Yes(Operand(ty, Literal(r.id))) else PoolFull, consts')
  }

  method TryCastOperand(
    types: seq<Type>, consts: Interner<ConstValue>, fl: FloatOps, op: Operand, ty: TyId, s: Signedness)
    returns (r: Attempt<Operand>)
    requires consts.Valid() && WellTyped(types, consts.values, op) && ty < |types|
    modifies consts
    ensures consts.Valid()
    ensures (r, consts.values) == CastOperand(types, old(consts.values), consts.limit, fl, op, ty, s)
  {
    if !FirstClass(types, ty) {
      return No;
    }
    match op.kind
    case Other(_) =>
      r := if op.ty == ty then Yes(op) else No;
    case Literal(id) =>
      var c := consts.Value(id);
      match TryCast(fl, c, types[ty], s) {
        case None =>
          r := No;
        case Some(folded) =>
          var interned := consts.TryIntern(folded);
          r := if interned.Id? then Yes(Operand(ty, Literal(interned.id))) else PoolFull;
      }
  }

  /** The number under a reading that an operand stands for, when it is an integer literal. */
  predicate SameNumber(consts: seq<ConstValue>, op: Operand, consts': seq<ConstValue>, op': Operand, s: Signedness) {
    op.kind.Literal? && op.kind.constId < |consts| && IsInteger(consts[op.kind.constId]) && s != NotApplicable ==>
      && op'.kind.Literal? && op'.kind.constId < |consts'| && IsInteger(consts'[op'.kind.constId])
      && Reading(consts'[op'.kind.constId], s) == Reading(consts[op.kind.constId], s)
  }

  /** What a caller may rely on about an operand brought to a type. */
  ghost predicate Brought(
    types: seq<Type>, consts: seq<ConstValue>, op: Operand, consts': seq<ConstValue>, op': Operand, s: Signedness)
  {
    && WellTyped(types, consts', op')
    && (op.kind.Other? ==> op' == op)
    && (op.kind.Literal? ==> op'.kind.Literal?)
    && SameNumber(consts, op, consts', op', s)
  }

  lemma CastOperandSound(
    types: seq<Type>, consts: seq<ConstValue>, limit: nat, fl: FloatOps, op: Operand, ty: TyId, s: Signedness)
    requires WellTyped(types, consts, op) && ty < |types|
    ensures var (r, consts') := CastOperand(types, consts, limit, fl, op, ty, s);
      && consts <= consts'
      && (r.Yes? ==> r.value.ty == ty && Brought(types, consts, op, consts', r.value, s))
  {
    if op.kind.Literal? {
      var c := consts[op.kind.constId];
      CastHasType(fl, c, types[ty], s);
      if IsInteger(c) {
        CastIsExact(fl, c, types[ty], s);
      }
    }
  }

  lemma BroughtLater(
    types: seq<Type>, consts: seq<ConstValue>, op: Operand, mid: seq<ConstValue>, op': Operand, later: seq<ConstValue>,
    s: Signedness)
    requires Brought(types, consts, op, mid, op', s) && mid <= later
    ensures Brought(types, consts, op, later, op', s)
  {
  }

  datatype OperandTy = Asserted(ty: TyId) | Inferred

  /** `Value::try_cast_two`: both to a named type, or the narrower to the wider one's. */
  ghost function CastTwo(
    types: seq<Type>, consts: seq<ConstValue>, limit: nat, fl: FloatOps, a: Operand, b: Operand, want: OperandTy,
    s: Signedness)
    : (Attempt<(Operand, Operand)>, seq<ConstValue>)
    requires WellTyped(types, consts, a) && WellTyped(types, consts, b)
    requires want.Asserted? ==> want.ty < |types|
  {
    if want.Asserted? then
      var (ra, mid) := CastOperand(types, consts, limit, fl, a, want.ty, s);
      if !ra.Yes? then (if ra.No? then No else PoolFull, mid)
      else
        CastOperandSound(types, consts, limit, fl, a, want.ty, s);
        var (rb, later) := CastOperand(types, mid, limit, fl, b, want.ty, s);
        (if rb.Yes? then Yes((ra.value, rb.value)) else if rb.No? then No else PoolFull, later)
    else if a.ty == b.ty then (Yes((a, b)), consts)
    else if BitWidth(types[a.ty]).None? || BitWidth(types[b.ty]).None? then (No, consts)
    else if BitWidth(types[a.ty]).value >= BitWidth(types[b.ty]).value then
      var (rb, later) := CastOperand(types, consts, limit, fl, b, a.ty, s);
      (if rb.Yes? then Yes((a, rb.value)) else if rb.No? then No else PoolFull, later)
    else
      var (ra, later) := CastOperand(types, consts, limit, fl, a, b.ty, s);
      (if ra.Yes? then Yes((ra.value, b)) else if ra.No? then No else PoolFull, later)
  }

  method TryCastTwo(
    types: seq<Type>, consts: Interner<ConstValue>, fl: FloatOps, a: Operand, b: Operand, want: OperandTy,
    s: Signedness)
    returns (r: Attempt<(Operand, Operand)>)
    requires consts.Valid() && WellTyped(types, consts.values, a) && WellTyped(types, consts.values, b)
    requires want.Asserted? ==> want.ty < |types|
    modifies consts
    ensures consts.Valid()
    ensures (r, consts.values) == CastTwo(types, old(consts.values), consts.limit, fl, a, b, want, s)
  {
    if want.Asserted? {
      CastOperandSound(types, consts.values, consts.limit, fl, a, want.ty, s);
      var ra := TryCastOperand(types, consts, fl, a, want.ty, s);
      if !ra.Yes? {
        return if ra.No? then No else PoolFull;
      }
      var rb := TryCastOperand(types, consts, fl, b, want.ty, s);
      return if rb.Yes? then Yes((ra.value, rb.value)) else if rb.No? then No else PoolFull;
    }
    if a.ty == b.ty {
      return Yes((a, b));
    }
    var wa, wb := BitWidth(types[a.ty]), BitWidth(types[b.ty]);
    if wa.None? || wb.None? {
      return No;
    }
    if wa.value >= wb.value {
      var rb := TryCastOperand(types, consts, fl, b, a.ty, s);
      r := if rb.Yes? then Yes((a, rb.value)) else if rb.No? then No else PoolFull;
    } else {
      var ra := TryCastOperand(types, consts, fl, a, b.ty, s);
      r := if ra.Yes? then Yes((ra.value, b)) else if ra.No? then No else PoolFull;
    }
  }

  /**
   Two operands brought together have one type; each literal's constant has the type its
   operand claims and is the number it was; anything but a literal is unchanged; and every
   constant issued before still resolves, even when the attempt fails half way.
   */
  lemma CastTwoSound(
    types: seq<Type>, consts: seq<ConstValue>, limit: nat, fl: FloatOps, a: Operand, b: Operand, want: OperandTy,
    s: Signedness)
    requires WellTyped(types, consts, a) && WellTyped(types, consts, b)
    requires want.Asserted? ==> want.ty < |types|
    ensures var (r, later) := CastTwo(types, consts, limit, fl, a, b, want, s);
      && consts <= later
      && (r.Yes? ==>
        && r.value.0.ty == r.value.1.ty
        && (want.Asserted? ==> r.value.0.ty == want.ty)
        && Brought(types, consts, a, later, r.value.0, s) && Brought(types, consts, b, later, r.value.1, s))
  {
    if want.Asserted? {
      var (ra, mid) := CastOperand(types, consts, limit, fl, a, want.ty, s);
      CastOperandSound(types, consts, limit, fl, a, want.ty, s);
      if ra.Yes? {
        CastOperandSound(types, mid, limit, fl, b, want.ty, s);
        BroughtLater(types, consts, a, mid, ra.value, CastOperand(types, mid, limit, fl, b, want.ty, s).1, s);
      }
    } else if a.ty != b.ty && BitWidth(types[a.ty]).Some? && BitWidth(types[b.ty]).Some? {
      CastOperandSound(types, consts, limit, fl, a, b.ty, s);
      CastOperandSound(types, consts, limit, fl, b, a.ty, s);
    }
  }

  // ------------------------------------------------------------------ aggregates

  datatype TypeResult = TypeOk(ty: TyId) | MemberNotSized(text: string, aggregate: string) | TypePoolFull

  /** Every member of every aggregate in the pool has a size. */
  ghost predicate AggregatesSized(types: seq<Type>) {
    && TypePool(types)
    && forall i :: 0 <= i < |types| ==> MembersSized(types, types[i])
  }

  predicate MembersSized(types: seq<Type>, t: Type) {
    match t
    case Array(_, e) => e < |types| && FirstClass(types, e)
    case Struct(fs, _) => forall i :: 0 <= i < |fs| ==> fs[i] < |types| && FirstClass(types, fs[i])
    case _ => true
  }

  lemma InternKeepsSized(types: seq<Type>, limit: nat, t: Type)
    requires AggregatesSized(types) && ChildrenBelow(t, |types|) && MembersSized(types, t)
    ensures AggregatesSized(Intern(types, limit, t).1)
  {
    InternKeepsTypePool(types, limit, t);
  }

  /** Field `i` is the first one without a size, and the refusal spells its type. */
  ghost predicate RefusesField(types: seq<Type>, fields: seq<TyId>, i: nat, r: TypeResult)
    requires TypePool(types) && i < |fields| && forall j :: 0 <= j <= i ==> fields[j] < |types|
  {
    && !FirstClass(types, fields[i]) && (forall j :: 0 <= j < i ==> FirstClass(types, fields[j]))
    && r == MemberNotSized(Text(Unfold(types, fields[i])), "struct")
  }

  /** `struct_ty`: refuses the first member without a size. */
  method StructTy(types: Interner<Type>, fields: seq<TyId>, packed: bool) returns (r: TypeResult)
    requires types.Valid() && AggregatesSized(types.values)
    requires forall i :: 0 <= i < |fields| ==> fields[i] < |types.values|
    modifies types
    ensures types.Valid() && AggregatesSized(types.values) && old(types.values) <= types.values
    ensures r.MemberNotSized? <==> exists i :: 0 <= i < |fields| && !FirstClass(old(types.values), fields[i])
    ensures r.MemberNotSized? ==> types.values == old(types.values)
    ensures r.MemberNotSized? ==> exists i :: 0 <= i < |fields| && RefusesField(types.values, fields, i, r)
    ensures r.TypeOk? ==> r.ty < |types.values| && types.values[r.ty] == Struct(fields, packed)
  {
    for i := 0 to |fields|
      invariant forall j :: 0 <= j < i ==> FirstClass(types.values, fields[j])
    {
      if !FirstClass(types.values, fields[i]) {
        var text := Fmt(types.values, fields[i]);
        assert RefusesField(types.values, fields, i, MemberNotSized(text, "struct"));
        return MemberNotSized(text, "struct");
      }
    }
    InternKeepsSized(types.values, types.limit, Struct(fields, packed));
    var interned := types.TryIntern(Struct(fields, packed));
    r := if interned.Id? then TypeOk(interned.id) else TypePoolFull;
  }

  /** `array_ty`, on the same terms. */
  method ArrayTy(types: Interner<Type>, element: TyId, size: nat) returns (r: TypeResult)
    requires types.Valid() && AggregatesSized(types.values) && element < |types.values|
    modifies types
    ensures types.Valid() && AggregatesSized(types.values) && old(types.values) <= types.values
    ensures r.MemberNotSized? <==> !FirstClass(old(types.values), element)
    ensures r.MemberNotSized? ==>
      types.values == old(types.values) && r == MemberNotSized(Text(Unfold(types.values, element)), "array")
    ensures r.TypeOk? ==> r.ty < |types.values| && types.values[r.ty] == Array(size, element)
  {
    if !FirstClass(types.values, element) {
      var text := Fmt(types.values, element);
      return MemberNotSized(text, "array");
    }
    InternKeepsSized(types.values, types.limit, Array(size, element));
    var interned := types.TryIntern(Array(size, element));
    r := if interned.Id? then TypeOk(interned.id) else TypePoolFull;
  }

  /** A type with a size all the way down: neither it nor anything stored in it is `void` or a function. */
  ghost predicate DeepSized(t: Tree) {
    match t
    case TPrim(p) => p != TyVoid
    case TArray(_, e) => DeepSized(e)
    case TStruct(fs, _) => forall i :: 0 <= i < |fs| ==> DeepSized(fs[i])
    case TFunc(_, _) => false
  }

  /**
   The shallow test is the deep one: in a pool whose aggregates were built through the checks,
   looking at the outermost node decides whether the whole type has a size.
   */
  lemma {:induction false} ShallowTestIsDeep(types: seq<Type>, id: TyId)
    requires AggregatesSized(types) && id < |types|
    ensures FirstClass(types, id) <==> DeepSized(Unfold(types, id))
    decreases id
  {
    assert MembersSized(types, types[id]);
    match types[id]
    case Prim(_) =>
    case Func(_, _) =>
    case Array(_, e) =>
      ShallowTestIsDeep(types, e);
    case Struct(fs, _) =>
      forall i | 0 <= i < |fs| ensures DeepSized(Unfold(types, id).fields[i]) {
        ShallowTestIsDeep(types, fs[i]);
      }
  }

  // ------------------------------------------------------------------ walking a type

  datatype GepError =
    | StructIndexNotAConstantI32(text: string)
    | StructIndexOutOfRange(index: int, fields: nat)
    | ArrayIndexOutOfRange(element: nat, size: nat)
    | TypeNotIndexable(text: string)

  datatype Walk = Lands(ty: TyId) | Fails(error: GepError)

  /** `ConstValue::try_integer`; a 64-bit literal is truncated. */
  function TryInteger(c: ConstValue): Option<int> {
    match c
    case CI1(v) => Some(v)
    case CI8(v) => Some(v)
    case CI16(v) => Some(v)
    case CI32(v) => Some(v)
    case CI64(v) => Some(AsSigned(v, W32))
    case _ => None
  }

  /** The value of an index that is an integer literal. */
  function IndexValue(consts: seq<ConstValue>, index: Operand): Option<int>
    requires index.kind.Literal? ==> index.kind.constId < |consts|
  {
    if index.kind.Literal? then TryInteger(consts[index.kind.constId]) else None
  }

  /** One step of `walk_pointee_ty_in_gep`. */
  function Descend(types: seq<Type>, consts: seq<ConstValue>, ty: TyId, index: Operand): (r: Walk)
    requires TypePool(types) && ty < |types| && WellTyped(types, consts, index)
    ensures r.Lands? ==> r.ty < ty
  {
    match types[ty]
    case Struct(fields, _) =>
      var value := IndexValue(consts, index);
      if types[index.ty] != Prim(TyI32) || value.None? then
        Fails(StructIndexNotAConstantI32(Text(Unfold(types, index.ty))))
      else if value.value < 0 || |fields| <= value.value then
        Fails(StructIndexOutOfRange(value.value, |fields|))
      else Lands(fields[value.value])
    case Array(size, element) =>
      var value := IndexValue(consts, index);
      if value.Some? && (value.value < 0 || size <= AsUnsigned(value.value, W64)) then
        Fails(ArrayIndexOutOfRange(AsUnsigned(value.value, W64), size))
      else Lands(element)
    case _ => Fails(TypeNotIndexable(Text(Unfold(types, ty))))
  }

  function WalkType(types: seq<Type>, consts: seq<ConstValue>, ty: TyId, indices: seq<Operand>): (r: Walk)
    requires TypePool(types) && ty < |types|
    requires forall i :: 0 <= i < |indices| ==> WellTyped(types, consts, indices[i])
    ensures r.Lands? ==> r.ty <= ty
    decreases |indices|
  {
    if indices == [] then Lands(ty)
    else
      match Descend(types, consts, ty, indices[0])
      case Fails(error) => Fails(error)
      case Lands(next) => WalkType(types, consts, next, indices[1..])
  }

  /** Walking two index lists in turn is walking them as one, errors included. */
  lemma {:induction false} WalkInTurn(types: seq<Type>, consts: seq<ConstValue>, ty: TyId, xs: seq<Operand>,
    ys: seq<Operand>)
    requires TypePool(types) && ty < |types|
    requires forall i :: 0 <= i < |xs| ==> WellTyped(types, consts, xs[i])
    requires forall i :: 0 <= i < |ys| ==> WellTyped(types, consts, ys[i])
    ensures WalkType(types, consts, ty, xs + ys) ==
      var first := WalkType(types, consts, ty, xs);
      if first.Lands? then WalkType(types, consts, first.ty, ys) else first
    decreases |xs|
  {
    if xs == [] {
      assert xs + ys == ys;
    } else {
      assert (xs + ys)[0] == xs[0] && (xs + ys)[1..] == xs[1..] + ys;
      var step := Descend(types, consts, ty, xs[0]);
      if step.Lands? {
        WalkInTurn(types, consts, step.ty, xs[1..], ys);
      }
    }
  }

  /**
   Sizedness is hereditary: a walk that starts at a type with a size and succeeds ends at a
   type with a size all the way down.
   */
  lemma {:induction false} WalkStaysSized(types: seq<Type>, consts: seq<ConstValue>, ty: TyId, indices: seq<Operand>)
    requires AggregatesSized(types) && ty < |types| && FirstClass(types, ty)
    requires forall i :: 0 <= i < |indices| ==> WellTyped(types, consts, indices[i])
    ensures var r := WalkType(types, consts, ty, indices);
      r.Lands? ==> FirstClass(types, r.ty) && DeepSized(Unfold(types, r.ty))
    decreases |indices|
  {
    if indices == [] {
      ShallowTestIsDeep(types, ty);
    } else {
      assert MembersSized(types, types[ty]);
      var step := Descend(types, consts, ty, indices[0]);
      if step.Lands? {
        WalkStaysSized(types, consts, step.ty, indices[1..]);
      }
    }
  }
}
