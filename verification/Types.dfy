/**
 The type graph of the LLVM layer (`tracewasm-llvm/src/value.rs`): a pool of flat nodes whose
 children are ids of older nodes.
 */
module Types {
  import opened Interning

  type TyId = nat

  datatype Primitive = TyI1 | TyI8 | TyI16 | TyI32 | TyI64 | TyHalf | TyBfloat | TyFloat | TyDouble | TyPtr | TyVoid

  /** One node; an aggregate names its children by id. */
  datatype Type =
    | Prim(p: Primitive)
    | Array(size: nat, element: TyId)
    | Struct(fields: seq<TyId>, packed: bool)
    | Func(params: seq<TyId>, result: TyId)

  predicate ChildrenBelow(t: Type, n: nat) {
    match t
    case Prim(_) => true
    case Array(_, e) => e < n
    case Struct(fs, _) => forall i :: 0 <= i < |fs| ==> fs[i] < n
    case Func(ps, r) => r < n && forall i :: 0 <= i < |ps| ==> ps[i] < n
  }

  /** A pool built by interning nodes over ids it had already issued. */
  ghost predicate TypePool(pool: seq<Type>) {
    Distinct(pool) && forall i :: 0 <= i < |pool| ==> ChildrenBelow(pool[i], i)
  }

  /** Interning a node whose children were issued by the pool keeps it a type pool. */
  lemma InternKeepsTypePool(pool: seq<Type>, limit: nat, t: Type)
    requires TypePool(pool) && ChildrenBelow(t, |pool|)
    ensures TypePool(Intern(pool, limit, t).1) && pool <= Intern(pool, limit, t).1
  {
  }

  // ------------------------------------------------------------------ unfolding

  /** A type with its children in full. */
  datatype Tree =
    | TPrim(p: Primitive)
    | TArray(size: nat, element: Tree)
    | TStruct(fields: seq<Tree>, packed: bool)
    | TFunc(params: seq<Tree>, result: Tree)

  /** What an id denotes; it terminates because a child is always older than its parent. */
  function Unfold(pool: seq<Type>, id: TyId): Tree
    requires TypePool(pool) && id < |pool|
    decreases id
  {
    match pool[id]
    case Prim(p) => TPrim(p)
    case Array(n, e) => TArray(n, Unfold(pool, e))
    case Struct(fs, packed) =>
      TStruct(seq(|fs|, i requires 0 <= i < |fs| => Unfold(pool, fs[i])), packed)
    case Func(ps, r) =>
      TFunc(seq(|ps|, i requires 0 <= i < |ps| => Unfold(pool, ps[i])), Unfold(pool, r))
  }

  /** Hash-consing is canonical: comparing two ids is comparing two whole types. */
  lemma {:induction false} IdEqualityIsDeepEquality(pool: seq<Type>, a: TyId, b: TyId)
    requires TypePool(pool) && a < |pool| && b < |pool|
    ensures a == b <==> Unfold(pool, a) == Unfold(pool, b)
    decreases a
  {
    if Unfold(pool, a) == Unfold(pool, b) {
      match pool[a] {
        case Prim(_) =>
        case Array(_, e) =>
          IdEqualityIsDeepEquality(pool, e, pool[b].element);
        case Struct(fs, packed) =>
          assert |pool[b].fields| == |Unfold(pool, b).fields| && |fs| == |Unfold(pool, a).fields|;
          ListsEqual(pool, a, fs, pool[b].fields, Unfold(pool, a).fields);
        case Func(ps, r) =>
          assert |pool[b].params| == |Unfold(pool, b).params| && |ps| == |Unfold(pool, a).params|;
          ListsEqual(pool, a, ps, pool[b].params, Unfold(pool, a).params);
          IdEqualityIsDeepEquality(pool, r, pool[b].result);
      }
      assert pool[a] == pool[b];
    }
  }

  lemma {:induction false} ListsEqual(pool: seq<Type>, bound: TyId, xs: seq<TyId>, ys: seq<TyId>, ts: seq<Tree>)
    requires TypePool(pool) && bound <= |pool| && |xs| == |ys| == |ts|
    requires forall i :: 0 <= i < |xs| ==> xs[i] < bound && ys[i] < |pool|
    requires forall i :: 0 <= i < |xs| ==> ts[i] == Unfold(pool, xs[i]) == Unfold(pool, ys[i])
    ensures xs == ys
    decreases bound, 0
  {
    forall i | 0 <= i < |xs|
      ensures xs[i] == ys[i]
    {
      IdEqualityIsDeepEquality(pool, xs[i], ys[i]);
    }
  }

  /** An id keeps denoting the same type however the pool grows. */
  lemma {:induction false} UnfoldStable(pool: seq<Type>, later: seq<Type>, id: TyId)
    requires TypePool(pool) && TypePool(later) && pool <= later && id < |pool|
    ensures Unfold(later, id) == Unfold(pool, id)
    decreases id
  {
    assert later[id] == pool[id];
    match pool[id] {
      case Prim(_) =>
      case Array(_, e) =>
        UnfoldStable(pool, later, e);
      case Struct(fs, _) =>
        forall i | 0 <= i < |fs| ensures Unfold(later, fs[i]) == Unfold(pool, fs[i]) {
          UnfoldStable(pool, later, fs[i]);
        }
      case Func(ps, r) =>
        forall i | 0 <= i < |ps| ensures Unfold(later, ps[i]) == Unfold(pool, ps[i]) {
          UnfoldStable(pool, later, ps[i]);
        }
        UnfoldStable(pool, later, r);
    }
  }
}

/** Decimal numerals, as `write!("{}")` spells an unsigned integer. */
module Decimal {

  predicate IsDigit(c: char) { '0' <= c <= '9' }

  function DigitChar(n: nat): (c: char)
    requires n < 10
    ensures IsDigit(c)
  {
    ('0' as int + n) as char
  }

  function DigitValue(c: char): (n: nat)
    requires IsDigit(c)
    ensures n < 10 && DigitChar(n) == c
  {
    c as int - '0' as int
  }

  function Numeral(n: nat): (s: string)
    ensures s != [] && forall i :: 0 <= i < |s| ==> IsDigit(s[i])
  {
    if n < 10 then [DigitChar(n)] else Numeral(n / 10) + [DigitChar(n % 10)]
  }

  function NumeralValue(s: string): nat
    requires forall i :: 0 <= i < |s| ==> IsDigit(s[i])
  {
    if s == [] then 0 else 10 * NumeralValue(s[..|s| - 1]) + DigitValue(s[|s| - 1])
  }

  /** A numeral can be read back, so different numbers have different numerals. */
  lemma {:induction false} ReadNumeral(n: nat)
    ensures NumeralValue(Numeral(n)) == n
  {
    if 10 <= n {
      ReadNumeral(n / 10);
      var s := Numeral(n);
      assert s[..|s| - 1] == Numeral(n / 10);
    }
  }

  lemma NumeralInjective(m: nat, n: nat)
    requires Numeral(m) == Numeral(n)
    ensures m == n
  {
    ReadNumeral(m);
    ReadNumeral(n);
  }
}
