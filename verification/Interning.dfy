/**
 The hash-consing pool (`tracewasm-utils/src/interner.rs`): a vector of distinct values and
 a reverse map from each value to its position, which is its id.
 */
module Interning {
  import opened Values

  /** A refusal carries the source's 32-bit count of the entries that were needed. */
  datatype InternResult = Id(id: nat) | TooManyUniqueValues(needed: nat, limit: nat)

  ghost predicate Distinct<T>(pool: seq<T>) {
    forall i, j :: 0 <= i < j < |pool| ==> pool[i] != pool[j]
  }

  /** The position of a value the pool holds. */
  function IndexIn<T(==)>(pool: seq<T>, x: T): (i: nat)
    requires x in pool
    ensures i < |pool| && pool[i] == x
  {
    if pool[|pool| - 1] == x then |pool| - 1 else IndexIn(pool[..|pool| - 1], x)
  }

  /** `try_intern`: a repeat costs nothing, even when the pool is full. */
  function Intern<T(==)>(pool: seq<T>, limit: nat, x: T): (InternResult, seq<T>) {
    if x in pool then (Id(IndexIn(pool, x)), pool)
    else if limit <= |pool| then (TooManyUniqueValues((|pool| + 1) % POW2_32, limit), pool)
    else (Id(|pool|), pool + [x])
  }

  class Interner<T(==)> {
    const limit: nat
    var values: seq<T>
    var reverseMap: map<T, nat>

    ghost predicate Valid()
      reads this
    {
      && |values| <= limit
      && Distinct(values)
      && (forall i :: 0 <= i < |values| ==> values[i] in reverseMap && reverseMap[values[i]] == i)
      && forall x :: x in reverseMap ==> x in values
    }

    constructor (limit: nat)
      ensures Valid() && values == [] && this.limit == limit
    {
      this.limit := limit;
      values, reverseMap := [], map[];
    }

    method TryIntern(x: T) returns (r: InternResult)
      requires Valid()
      modifies this
      ensures Valid()
      ensures (r, values) == Intern(old(values), limit, x)
    {
      if x in reverseMap {
        return Id(reverseMap[x]);
      }
      if limit <= |values| {
        return TooManyUniqueValues((|values| + 1) % POW2_32, limit);
      }
      r := Id(|values|);
      reverseMap := reverseMap[x := |values|];
      values := values + [x];
    }

    method Value(id: nat) returns (x: T)
      requires id < |values|
      ensures x == values[id]
    {
      x := values[id];
    }
  }

  // ------------------------------------------------------------------ any history of requests

  /** The pool after a sequence of requests to a pool that starts as `pool`. */
  ghost function PoolAfter<T>(pool: seq<T>, limit: nat, xs: seq<T>): seq<T> {
    if xs == [] then pool else Intern(PoolAfter(pool, limit, xs[..|xs| - 1]), limit, xs[|xs| - 1]).1
  }

  /** The answer to request `i`. */
  ghost function Answer<T>(pool: seq<T>, limit: nat, xs: seq<T>, i: nat): InternResult
    requires i < |xs|
  {
    Intern(PoolAfter(pool, limit, xs[..i]), limit, xs[i]).0
  }

  lemma {:induction false} PoolGrows<T>(pool: seq<T>, limit: nat, xs: seq<T>, i: nat)
    requires Distinct(pool) && |pool| <= limit && i <= |xs|
    ensures var now := PoolAfter(pool, limit, xs);
      && Distinct(now) && |now| <= limit
      && pool <= now && PoolAfter(pool, limit, xs[..i]) <= now
    decreases |xs|
  {
    if i < |xs| {
      var before := xs[..|xs| - 1];
      assert xs[..i] == before[..i];
      PoolGrows(pool, limit, before, i);
    } else {
      assert xs[..i] == xs;
      if xs != [] {
        PoolGrows(pool, limit, xs[..|xs| - 1], 0);
      }
    }
  }

  /**
   An id, once issued, resolves to the value it was issued for in every later pool, and never
   wraps past the pool's capacity.
   */
  lemma IdsKeepResolving<T>(pool: seq<T>, limit: nat, xs: seq<T>, i: nat)
    requires Distinct(pool) && |pool| <= limit && i < |xs|
    ensures Answer(pool, limit, xs, i).Id? ==>
      var id := Answer(pool, limit, xs, i).id;
      var now := PoolAfter(pool, limit, xs);
      id < limit && id < |now| && now[id] == xs[i]
  {
    assert xs[..i + 1][..i] == xs[..i];
    PoolGrows(pool, limit, xs, i + 1);
    PoolGrows(pool, limit, xs[..i], 0);
  }

  /** Ids are canonical: two answered requests got the same id exactly when they asked for the same value. */
  lemma IdsCanonical<T>(pool: seq<T>, limit: nat, xs: seq<T>, i: nat, j: nat)
    requires Distinct(pool) && |pool| <= limit && i < |xs| && j < |xs|
    requires Answer(pool, limit, xs, i).Id? && Answer(pool, limit, xs, j).Id?
    ensures Answer(pool, limit, xs, i).id == Answer(pool, limit, xs, j).id <==> xs[i] == xs[j]
  {
    IdsKeepResolving(pool, limit, xs, i);
    IdsKeepResolving(pool, limit, xs, j);
    PoolGrows(pool, limit, xs, 0);
  }

  /**
   A request is refused exactly when its value is new and the pool is full, and then it
   changes nothing; so a value accepted once is accepted at every later request.
   */
  lemma RefusedIffNewAndFull<T>(pool: seq<T>, limit: nat, xs: seq<T>, i: nat)
    requires Distinct(pool) && |pool| <= limit && i < |xs|
    ensures var before := PoolAfter(pool, limit, xs[..i]);
      && (Answer(pool, limit, xs, i).TooManyUniqueValues? <==> xs[i] !in before && |before| == limit)
      && (Answer(pool, limit, xs, i).TooManyUniqueValues? ==> PoolAfter(pool, limit, xs[..i + 1]) == before)
    ensures forall j :: i < j < |xs| && Answer(pool, limit, xs, i).Id? && xs[j] == xs[i] ==>
      Answer(pool, limit, xs, j) == Answer(pool, limit, xs, i)
  {
    assert xs[..i + 1][..i] == xs[..i];
    PoolGrows(pool, limit, xs[..i], 0);
    forall j | i < j < |xs| && Answer(pool, limit, xs, i).Id? && xs[j] == xs[i]
      ensures Answer(pool, limit, xs, j) == Answer(pool, limit, xs, i)
    {
      var ys := xs[..j];
      assert ys[..i] == xs[..i];
      assert Answer(pool, limit, ys, i) == Answer(pool, limit, xs, i);
      IdsKeepResolving(pool, limit, ys, i);
      assert xs[j] in PoolAfter(pool, limit, ys);
      IdsCanonical(pool, limit, xs, i, j);
    }
  }
}
