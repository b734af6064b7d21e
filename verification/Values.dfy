/**
 The two value representations of the interpreter (`tracewasm-core/src/runtime/value.rs`):
 the tagged `Val` that crosses the host boundary and the untagged eight-byte slot that a
 frame holds while it runs.  Floats are their bit patterns throughout, because the
 interpreter stores them with `to_bits` and reads them back with `from_bits`.
 */
module Values {

  datatype Option<+T> = None | Some(value: T)

  const POW2_32: nat := 0x1_0000_0000
  const POW2_64: nat := 0x1_0000_0000_0000_0000
  /** `TAG_SOME`: the bit that tells a reference to function 0 from a null reference. */
  const TAG_SOME: nat := 0x100_0000_0000_0000

  type Int32 = i: int | -0x8000_0000 <= i < 0x8000_0000
  type Int64 = i: int | -0x8000_0000_0000_0000 <= i < 0x8000_0000_0000_0000
  type Bits32 = i: nat | i < POW2_32
  type Bits64 = i: nat | i < POW2_64

  /** `v128` is absent: `Module::compile` rejects a module that mentions it. */
  datatype ValType = I32 | I64 | F32 | F64 | FuncRef

  /** A tagged value.  `Ref` holds a function index, `None` being the null reference. */
  datatype Val =
    | ValI32(i32: Int32)
    | ValI64(i64: Int64)
    | ValF32(f32: Bits32)
    | ValF64(f64: Bits64)
    | ValRef(func: Option<Bits32>)

  /** One frame slot: eight bytes with no type tag. */
  type Value = Bits64

  /** `Val::has_ty`. */
  predicate HasType(v: Val, ty: ValType) {
    match ty
    case I32 => v.ValI32?
    case I64 => v.ValI64?
    case F32 => v.ValF32?
    case F64 => v.ValF64?
    case FuncRef => v.ValRef?
  }

  /** `From<&Val> for Value`: drops the tag, keeps the bits. */
  function Untag(v: Val): Value {
    match v
    case ValI32(i) => i % POW2_32
    case ValI64(i) => i % POW2_64
    case ValF32(b) => b
    case ValF64(b) => b
    case ValRef(r) => (if r.Some? then TAG_SOME else 0) + (if r.Some? then r.value else 0)
  }

  /** A two's-complement reading of a word of `2 * half` bit patterns. */
  function Signed(bits: nat, half: nat): int
    requires 0 < half
  {
    var low := bits % (2 * half);
    if low < half then low else low - 2 * half
  }

  /** `Value::into_val`: re-attaches the type a slot lost. */
  function Retag(w: Value, ty: ValType): Val {
    match ty
    case I32 => ValI32(Signed(w, 0x8000_0000))
    case I64 => ValI64(Signed(w, 0x8000_0000_0000_0000))
    case F32 => ValF32(w % POW2_32)
    case F64 => ValF64(w)
    case FuncRef => ValRef(if w / TAG_SOME != 0 then Some(w % POW2_32) else None)
  }

  /** `Value::zero_of_ty`. */
  function ZeroOf(ty: ValType): Value {
    match ty
    case I32 => 0
    case I64 => 0
    case F32 => 0
    case F64 => 0
    case FuncRef => 0
  }

  /** `Val::zero_of_ty`. */
  function ZeroValOf(ty: ValType): Val {
    match ty
    case I32 => ValI32(0)
    case I64 => ValI64(0)
    case F32 => ValF32(0)
    case F64 => ValF64(0)
    case FuncRef => ValRef(None)
  }

  /**
   Dropping the tag and re-attaching a type gives the value back exactly when the type is
   the value's own; a wrong type always yields a different value.
   */
  lemma TagRoundTrip(v: Val, ty: ValType)
    ensures HasType(Retag(Untag(v), ty), ty)
    ensures Retag(Untag(v), ty) == v <==> HasType(v, ty)
  {
    if v.ValRef? && v.func.Some? {
      assert (TAG_SOME + v.func.value) % POW2_32 == v.func.value;
      assert (TAG_SOME + v.func.value) / TAG_SOME == 1;
    }
  }

  /**
   The slot of a value determines it among the values of its type; in particular a null
   reference and a reference to function 0 are different words.
   */
  lemma UntagInjective(v: Val, w: Val, ty: ValType)
    requires HasType(v, ty) && HasType(w, ty)
    ensures Untag(v) == Untag(w) <==> v == w
  {
    TagRoundTrip(v, ty);
    TagRoundTrip(w, ty);
  }

  /** The untagged zero a declared local starts from is the tagged zero of its type. */
  lemma ZeroIsTypedZero(ty: ValType)
    ensures Retag(ZeroOf(ty), ty) == ZeroValOf(ty)
    ensures Untag(ZeroValOf(ty)) == ZeroOf(ty)
  {
    TagRoundTrip(ZeroValOf(ty), ty);
  }

  function Zeros(tys: seq<ValType>): (zs: seq<Value>)
    ensures |zs| == |tys| && forall i :: 0 <= i < |tys| ==> zs[i] == ZeroOf(tys[i])
  {
    seq(|tys|, i requires 0 <= i < |tys| => ZeroOf(tys[i]))
  }

  function UntagAll(vs: seq<Val>): (ws: seq<Value>)
    ensures |ws| == |vs|
    ensures forall i :: 0 <= i < |vs| ==> ws[i] == Untag(vs[i])
  {
    seq(|vs|, i requires 0 <= i < |vs| => Untag(vs[i]))
  }

  function RetagAll(ws: seq<Value>, tys: seq<ValType>): (vs: seq<Val>)
    requires |ws| == |tys|
    ensures |vs| == |ws|
    ensures forall i :: 0 <= i < |ws| ==> vs[i] == Retag(ws[i], tys[i])
  {
    seq(|ws|, i requires 0 <= i < |ws| => Retag(ws[i], tys[i]))
  }

  ghost predicate AllHaveType(vs: seq<Val>, tys: seq<ValType>) {
    |vs| == |tys| && forall i :: 0 <= i < |vs| ==> HasType(vs[i], tys[i])
  }

  /** `s` with the first `i` elements of `ws` written from `at` on. */
  function Patched<T>(s: seq<T>, at: nat, ws: seq<T>, i: nat): (r: seq<T>)
    requires i <= |ws| && at + |ws| <= |s|
    ensures |r| == |s|
  {
    s[..at] + ws[..i] + s[at + i..]
  }

  lemma PatchNone<T>(s: seq<T>, at: nat, ws: seq<T>)
    requires at + |ws| <= |s|
    ensures Patched(s, at, ws, 0) == s
  {
  }

  /** One more element written in place. */
  lemma PatchOne<T>(s: seq<T>, at: nat, ws: seq<T>, i: nat)
    requires i < |ws| && at + |ws| <= |s|
    ensures Patched(s, at, ws, i)[at + i := ws[i]] == Patched(s, at, ws, i + 1)
  {
  }

  lemma AtInPrefix<T>(s: seq<T>, t: seq<T>, n: nat, k: nat)
    requires k < n <= |s| && n <= |t| && t[..n] == s[..n]
    ensures t[k] == s[k]
  {
    assert t[..n][k] == s[..n][k];
  }

  lemma AtInSlice<T>(s: seq<T>, lo: nat, hi: nat, k: nat)
    requires lo <= hi <= |s| && k < hi - lo
    ensures s[lo + k] == s[lo..hi][k]
  {
  }

  lemma SliceOfPrefix<T>(s: seq<T>, n: nat, lo: nat, hi: nat)
    requires lo <= hi <= n <= |s|
    ensures s[..n][lo..hi] == s[lo..hi]
  {
  }
}
