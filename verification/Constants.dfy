/**
 Literals of the LLVM layer and the casts that fold them into another type
 (`tracewasm-llvm/src/value.rs`).  An integer literal is stored as a signed number of its
 width; the conversions below are the source's `as` casts, read modulo a power of two.
 */
module Constants {
  import opened Values
  import opened Types

  type I8 = i: int | -0x80 <= i < 0x80
  type I16 = i: int | -0x8000 <= i < 0x8000

  datatype Width = W8 | W16 | W32 | W64

  /** Half of the number of bit patterns of a width: one past its largest signed number. */
  function Half(w: Width): int {
    match w
    case W8 => 0x80
    case W16 => 0x8000
    case W32 => 0x8000_0000
    case W64 => 0x8000_0000_0000_0000
  }

  /** `x as uN`. */
  function AsUnsigned(x: int, w: Width): (r: nat)
    ensures r < 2 * Half(w)
    ensures 0 <= x < 2 * Half(w) ==> r == x
    ensures -Half(w) <= x < 0 ==> r == x + 2 * Half(w)
  {
    match w
    case W8 => x % 0x100
    case W16 => x % 0x1_0000
    case W32 => x % 0x1_0000_0000
    case W64 => x % 0x1_0000_0000_0000_0000
  }

  /** `x as iN`. */
  function AsSigned(x: int, w: Width): (r: int)
    ensures -Half(w) <= r < Half(w)
    ensures -Half(w) <= x < Half(w) ==> r == x
    ensures AsUnsigned(r, w) == AsUnsigned(x, w)
  {
    var low := AsUnsigned(x, w);
    if low < Half(w) then low else low - 2 * Half(w)
  }

  datatype ConstValue =
    | CI1(i1: I8) | CI8(i8: I8) | CI16(i16: I16) | CI32(i32: Int32) | CI64(i64: Int64)
    | CFloat(f32: Bits32) | CDouble(f64: Bits64) | CNull

  datatype Signedness = Unsigned | AsSignedBits | NotApplicable

  /** The IEEE conversions, which this model leaves uninterpreted. */
  datatype FloatOps = FloatOps(
    widen: Bits32 -> Bits64, narrow: Bits64 -> Bits32, isNan: Bits64 -> bool, differ: (Bits64, Bits64) -> bool)

  /** `ConstValue::ty`, as the node it interns. */
  function ConstType(c: ConstValue): Type {
    match c
    case CI1(_) => Prim(TyI1)
    case CI8(_) => Prim(TyI8)
    case CI16(_) => Prim(TyI16)
    case CI32(_) => Prim(TyI32)
    case CI64(_) => Prim(TyI64)
    case CFloat(_) => Prim(TyFloat)
    case CDouble(_) => Prim(TyDouble)
    case CNull => Prim(TyPtr)
  }

  function CastI8(v: I8, ty: Type, s: Signedness): Option<ConstValue> {
    match s
    case AsSignedBits => (
      match ty
      case Prim(TyI8) => Some(CI8(v))
      case Prim(TyI16) => Some(CI16(AsSigned(v, W16)))
      case Prim(TyI32) => Some(CI32(AsSigned(v, W32)))
      case Prim(TyI64) => Some(CI64(AsSigned(v, W64)))
      case _ => None)
    case Unsigned => (
      match ty
      case Prim(TyI8) => Some(CI8(v))
      case Prim(TyI16) => Some(CI16(AsSigned(AsUnsigned(AsUnsigned(v, W8), W16), W16)))
      case Prim(TyI32) => Some(CI32(AsSigned(AsUnsigned(AsUnsigned(v, W8), W32), W32)))
      case Prim(TyI64) => Some(CI64(AsSigned(AsUnsigned(AsUnsigned(v, W8), W64), W64)))
      case _ => None)
    case NotApplicable => None
  }

  function CastI16(v: I16, ty: Type, s: Signedness): Option<ConstValue> {
    match s
    case AsSignedBits => (
      match ty
      case Prim(TyI8) => if v > 0x7f || v < -0x80 then None else Some(CI8(AsSigned(v, W8)))
      case Prim(TyI16) => Some(CI16(v))
      case Prim(TyI32) => Some(CI32(AsSigned(v, W32)))
      case Prim(TyI64) => Some(CI64(AsSigned(v, W64)))
      case _ => None)
    case Unsigned => (
      match ty
      case Prim(TyI8) =>
        var u := AsUnsigned(v, W16);
        if u > 0xff then None else Some(CI8(AsSigned(AsUnsigned(u, W8), W8)))
      case Prim(TyI16) => Some(CI16(v))
      case Prim(TyI32) => Some(CI32(AsSigned(AsUnsigned(AsUnsigned(v, W16), W32), W32)))
      case Prim(TyI64) => Some(CI64(AsSigned(AsUnsigned(AsUnsigned(v, W16), W64), W64)))
      case _ => None)
    case NotApplicable => None
  }

  function CastI32(v: Int32, ty: Type, s: Signedness): Option<ConstValue> {
    match s
    case AsSignedBits => (
      match ty
      case Prim(TyI8) => if v > 0x7f || v < -0x80 then None else Some(CI8(AsSigned(v, W8)))
      case Prim(TyI16) => if v > 0x7fff || v < -0x8000 then None else Some(CI16(AsSigned(v, W16)))
      case Prim(TyI32) => Some(CI32(v))
      case Prim(TyI64) => Some(CI64(AsSigned(v, W64)))
      case _ => None)
    case Unsigned => (
      var u := AsUnsigned(v, W32);
      match ty
      case Prim(TyI8) => if u > 0xff then None else Some(CI8(AsSigned(AsUnsigned(u, W8), W8)))
      case Prim(TyI16) => if u > 0xffff then None else Some(CI16(AsSigned(AsUnsigned(u, W16), W16)))
      case Prim(TyI32) => Some(CI32(v))
      case Prim(TyI64) => Some(CI64(AsSigned(AsUnsigned(AsUnsigned(v, W32), W64), W64)))
      case _ => None)
    case NotApplicable => None
  }

  function CastI64(v: Int64, ty: Type, s: Signedness): Option<ConstValue> {
    match s
    case AsSignedBits => (
      match ty
      case Prim(TyI8) => if v > 0x7f || v < -0x80 then None else Some(CI8(AsSigned(v, W8)))
      case Prim(TyI16) => if v > 0x7fff || v < -0x8000 then None else Some(CI16(AsSigned(v, W16)))
      case Prim(TyI32) => if v > 0x7fff_ffff || v < -0x8000_0000 then None else Some(CI32(AsSigned(v, W32)))
      case Prim(TyI64) => Some(CI64(v))
      case _ => None)
    case Unsigned => (
      var u := AsUnsigned(v, W64);
      match ty
      case Prim(TyI8) => if u > 0xff then None else Some(CI8(AsSigned(AsUnsigned(u, W8), W8)))
      case Prim(TyI16) => if u > 0xffff then None else Some(CI16(AsSigned(AsUnsigned(u, W16), W16)))
      case Prim(TyI32) => if u > 0xffff_ffff then None else Some(CI32(AsSigned(AsUnsigned(u, W32), W32)))
      case Prim(TyI64) => Some(CI64(v))
      case _ => None)
    case NotApplicable => None
  }

  /** `ConstValue::try_cast`.  An `i1` is held in an `i8` and goes through the `i8` rules. */
  function TryCast(fl: FloatOps, c: ConstValue, ty: Type, s: Signedness): Option<ConstValue> {
    match c
    case CI1(v) => CastI8(v, ty, s)
    case CI8(v) => CastI8(v, ty, s)
    case CI16(v) => CastI16(v, ty, s)
    case CI32(v) => CastI32(v, ty, s)
    case CI64(v) => CastI64(v, ty, s)
    case CFloat(b) =>
      if ty == Prim(TyFloat) then Some(c) else if ty == Prim(TyDouble) then Some(CDouble(fl.widen(b))) else None
    case CDouble(b) =>
      if ty == Prim(TyFloat) then
        var narrowed := fl.narrow(b);
        if !fl.isNan(b) && fl.differ(fl.widen(narrowed), b) then None else Some(CFloat(narrowed))
      else if ty == Prim(TyDouble) then Some(c) else None
    case CNull => if ty == Prim(TyPtr) then Some(CNull) else None
  }

  // ------------------------------------------------------------------ what a cast means

  predicate IsInteger(c: ConstValue) {
    c.CI8? || c.CI16? || c.CI32? || c.CI64?
  }

  function Number(c: ConstValue): int
    requires IsInteger(c)
  {
    match c
    case CI8(v) => v
    case CI16(v) => v
    case CI32(v) => v
    case CI64(v) => v
  }

  /** The width of an integer type from `i8` to `i64`. */
  function WidthOf(ty: Type): Option<Width> {
    match ty
    case Prim(TyI8) => Some(W8)
    case Prim(TyI16) => Some(W16)
    case Prim(TyI32) => Some(W32)
    case Prim(TyI64) => Some(W64)
    case _ => None
  }

  /** The number a literal's bits stand for under a reading. */
  function Reading(c: ConstValue, s: Signedness): int
    requires IsInteger(c) && s != NotApplicable
  {
    if s == AsSignedBits then Number(c) else AsUnsigned(Number(c), WidthOf(ConstType(c)).value)
  }

  predicate Fits(n: int, w: Width, s: Signedness) {
    if s == AsSignedBits then -Half(w) <= n < Half(w) else 0 <= n < 2 * Half(w)
  }

  /** What the result of casting `c` to `ty` under a reading has to be. */
  predicate ExactCast(c: ConstValue, ty: Type, s: Signedness, r: Option<ConstValue>)
    requires IsInteger(c)
  {
    && (r.Some? <==> s != NotApplicable && WidthOf(ty).Some? && Fits(Reading(c, s), WidthOf(ty).value, s))
    && (r.Some? ==> IsInteger(r.value) && ConstType(r.value) == ty && Reading(r.value, s) == Reading(c, s))
  }

  lemma CastI8IsExact(v: I8, ty: Type, s: Signedness)
    ensures ExactCast(CI8(v), ty, s, CastI8(v, ty, s))
  {
    hide AsUnsigned, AsSigned;
  }

  lemma CastI16IsExact(v: I16, ty: Type, s: Signedness)
    ensures ExactCast(CI16(v), ty, s, CastI16(v, ty, s))
  {
    hide AsUnsigned, AsSigned;
  }

  lemma CastI32IsExact(v: Int32, ty: Type, s: Signedness)
    ensures ExactCast(CI32(v), ty, s, CastI32(v, ty, s))
  {
    hide AsUnsigned, AsSigned;
  }

  lemma CastI64IsExact(v: Int64, ty: Type, s: Signedness)
    ensures ExactCast(CI64(v), ty, s, CastI64(v, ty, s))
  {
    hide AsUnsigned, AsSigned;
  }

  /**
   Casts are exact: one succeeds if and only if a reading was supplied, the target is an
   integer type and the number under that reading fits it; the result has the target's type
   and is the same number under the same reading.
   */
  lemma CastIsExact(fl: FloatOps, c: ConstValue, ty: Type, s: Signedness)
    requires IsInteger(c)
    ensures ExactCast(c, ty, s, TryCast(fl, c, ty, s))
  {
    match c
    case CI8(v) => CastI8IsExact(v, ty, s);
    case CI16(v) => CastI16IsExact(v, ty, s);
    case CI32(v) => CastI32IsExact(v, ty, s);
    case CI64(v) => CastI64IsExact(v, ty, s);
  }

  /** A type and a number under a reading leave no choice of literal. */
  lemma ReadingDetermines(c: ConstValue, d: ConstValue, s: Signedness)
    requires IsInteger(c) && IsInteger(d) && s != NotApplicable
    requires ConstType(c) == ConstType(d) && Reading(c, s) == Reading(d, s)
    ensures c == d
  {
  }

  /** Successful casts compose, and one can stop over at any type the number fits. */
  lemma CastsCompose(fl: FloatOps, c: ConstValue, via: Type, ty: Type, s: Signedness)
    requires IsInteger(c) && TryCast(fl, c, via, s).Some?
    ensures TryCast(fl, TryCast(fl, c, via, s).value, ty, s) == TryCast(fl, c, ty, s)
  {
    var d := TryCast(fl, c, via, s).value;
    CastIsExact(fl, c, via, s);
    CastIsExact(fl, c, ty, s);
    CastIsExact(fl, d, ty, s);
    if TryCast(fl, c, ty, s).Some? {
      ReadingDetermines(TryCast(fl, c, ty, s).value, TryCast(fl, d, ty, s).value, s);
    }
  }

  /** There and back is the identity. */
  lemma CastBack(fl: FloatOps, c: ConstValue, via: Type, s: Signedness)
    requires IsInteger(c) && TryCast(fl, c, via, s).Some?
    ensures TryCast(fl, TryCast(fl, c, via, s).value, ConstType(c), s) == Some(c)
  {
    CastsCompose(fl, c, via, ConstType(c), s);
    CastIsExact(fl, c, ConstType(c), s);
    ReadingDetermines(c, TryCast(fl, c, ConstType(c), s).value, s);
  }

  /** Whatever a cast is applied to, a successful one yields a constant of the type asked for. */
  lemma CastHasType(fl: FloatOps, c: ConstValue, ty: Type, s: Signedness)
    ensures TryCast(fl, c, ty, s).Some? ==> ConstType(TryCast(fl, c, ty, s).value) == ty
  {
    hide AsUnsigned, AsSigned;
    match c
    case CI1(v) => assert TryCast(fl, c, ty, s) == CastI8(v, ty, s);
    case CI8(v) => assert TryCast(fl, c, ty, s) == CastI8(v, ty, s);
    case CI16(v) => assert TryCast(fl, c, ty, s) == CastI16(v, ty, s);
    case CI32(v) => assert TryCast(fl, c, ty, s) == CastI32(v, ty, s);
    case CI64(v) => assert TryCast(fl, c, ty, s) == CastI64(v, ty, s);
    case _ =>
  }
}
