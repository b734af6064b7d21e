/**
 The fresh-name allocator for registers (`FuncRegNameIndex` in
 `tracewasm-llvm/src/cfg/context.rs`): consecutive numbers for unnamed values, and a hint
 with a numeric suffix for a named one that is taken.

 The counters are `u32` in the source and panic past their range in a checked build; that
 outcome is `CounterOverflow`.
 */
module RegisterNames {
  import opened Values
  import opened Decimal

  const MAX_COUNT: nat := 0xFFFF_FFFF

  datatype RegName = Named(hint: string) | Unnamed

  datatype NameResult = Issued(name: string) | InvalidRegisterName(hint: string) | CounterOverflow

  predicate HeadChar(c: char) {
    c == '-' || 'a' <= c <= 'z' || 'A' <= c <= 'Z' || c == '$' || c == '.' || c == '_'
  }

  /** `^[-a-zA-Z$._][-a-zA-Z$._0-9]*$`. */
  predicate LegalHint(hint: string) {
    && hint != [] && HeadChar(hint[0])
    && forall i :: 1 <= i < |hint| ==> HeadChar(hint[i]) || IsDigit(hint[i])
  }

  /** The name the `k`th request for a hint tries first. */
  function Candidate(hint: string, k: nat): string {
    if k == 0 then hint else hint + Numeral(k)
  }

  /** A hint's candidates are all different. */
  lemma CandidateInjective(hint: string, j: nat, k: nat)
    requires Candidate(hint, j) == Candidate(hint, k)
    ensures j == k
  {
    if j != 0 && k != 0 {
      assert Candidate(hint, j)[|hint|..] == Numeral(j);
      assert Candidate(hint, k)[|hint|..] == Numeral(k);
      NumeralInjective(j, k);
    }
  }

  // ------------------------------------------------------------------ the meaning of a request

  datatype Names = Names(unnamed: nat, named: map<string, nat>, issued: set<string>)

  const FRESH: Names := Names(0, map[], {})

  function NextCount(st: Names, hint: string): nat {
    if hint in st.named then st.named[hint] else 0
  }

  /** The names the allocator has issued that a request starting at count `k` has yet to pass. */
  ghost function Ahead(issued: set<string>, hint: string, k: nat): set<string> {
    set s | s in issued && exists j: nat :: k <= j && s == Candidate(hint, j)
  }

  lemma AheadShrinks(issued: set<string>, hint: string, k: nat)
    requires Candidate(hint, k) in issued
    ensures Ahead(issued, hint, k + 1) < Ahead(issued, hint, k)
  {
    var taken := Candidate(hint, k);
    assert taken in Ahead(issued, hint, k);
    if taken in Ahead(issued, hint, k + 1) {
      var j: nat :| k + 1 <= j && taken == Candidate(hint, j);
      CandidateInjective(hint, j, k);
      assert false;
    }
  }

  /** The first count from `k` on whose candidate is free; it exists because only finitely many names are issued. */
  ghost function FirstFree(issued: set<string>, hint: string, k: nat): (r: nat)
    ensures k <= r && Candidate(hint, r) !in issued
    ensures forall j :: k <= j < r ==> Candidate(hint, j) in issued
    decreases Ahead(issued, hint, k)
  {
    if Candidate(hint, k) !in issued then k
    else
      AheadShrinks(issued, hint, k);
      FirstFree(issued, hint, k + 1)
  }

  lemma FirstFreeStep(issued: set<string>, hint: string, k: nat)
    ensures if Candidate(hint, k) in issued
      then FirstFree(issued, hint, k) == FirstFree(issued, hint, k + 1)
        && Ahead(issued, hint, k + 1) < Ahead(issued, hint, k)
      else FirstFree(issued, hint, k) == k
  {
    if Candidate(hint, k) in issued {
      AheadShrinks(issued, hint, k);
    }
  }

  /** One request. */
  ghost function Request(st: Names, req: RegName): (NameResult, Names) {
    match req
    case Unnamed =>
      if st.unnamed == MAX_COUNT then (CounterOverflow, st)
      else (Issued(Numeral(st.unnamed)), st.(unnamed := st.unnamed + 1))
    case Named(hint) =>
      if !LegalHint(hint) then (InvalidRegisterName(hint), st)
      else
        var k := FirstFree(st.issued, hint, NextCount(st, hint));
        if MAX_COUNT <= k then (CounterOverflow, st.(named := st.named[hint := MAX_COUNT]))
        else
          var name := Candidate(hint, k);
          (Issued(name), Names(st.unnamed, st.named[hint := k + 1], st.issued + {name}))
  }

  // ------------------------------------------------------------------ the allocator

  class FuncRegNameIndex {
    var unnamedIndex: nat
    var namedIndex: map<string, nat>
    var issuedNames: set<string>

    ghost function State(): Names
      reads this
    {
      Names(unnamedIndex, namedIndex, issuedNames)
    }

    ghost predicate Valid()
      reads this
    {
      unnamedIndex <= MAX_COUNT && forall h :: h in namedIndex ==> 1 <= namedIndex[h] <= MAX_COUNT
    }

    constructor ()
      ensures State() == FRESH && Valid()
    {
      unnamedIndex, namedIndex, issuedNames := 0, map[], {};
    }

    method NextUnnamedIndex() returns (index: Option<nat>)
      requires Valid()
      modifies `unnamedIndex
      ensures Valid()
      ensures old(unnamedIndex) == MAX_COUNT ==> index == None && unnamedIndex == MAX_COUNT
      ensures old(unnamedIndex) < MAX_COUNT ==>
        index == Some(old(unnamedIndex)) && unnamedIndex == old(unnamedIndex) + 1
    {
      if unnamedIndex == MAX_COUNT {
        return None;
      }
      index := Some(unnamedIndex);
      unnamedIndex := unnamedIndex + 1;
    }

    /** How many times `name` has been tried; `None` where the counter would overflow. */
    method NextNamedIndex(name: string) returns (index: Option<nat>)
      requires Valid()
      modifies `namedIndex
      ensures Valid()
      ensures var k := NextCount(old(State()), name);
        if k == MAX_COUNT then index == None && namedIndex == old(namedIndex)
        else index == Some(k) && namedIndex == old(namedIndex)[name := k + 1]
    {
      if name in namedIndex {
        var id := namedIndex[name];
        if id == MAX_COUNT {
          return None;
        }
        namedIndex := namedIndex[name := id + 1];
        index := Some(id);
      } else {
        namedIndex := namedIndex[name := 1];
        index := Some(0);
      }
    }

    /** `name_from_hint`: retries suffixes until one is free. */
    method NameFromHint(req: RegName) returns (r: NameResult)
      requires Valid()
      modifies this
      ensures Valid()
      ensures (r, State()) == Request(old(State()), req)
    {
      if req.Unnamed? {
        var n := NextUnnamedIndex();
        return if n.Some? then Issued(Numeral(n.value)) else CounterOverflow;
      }
      if !LegalHint(req.hint) {
        return InvalidRegisterName(req.hint);
      }
      var name := FreeCandidate(req.hint);
      if name.None? {
        return CounterOverflow;
      }
      issuedNames := issuedNames + {name.value};
      r := Issued(name.value);
    }

    /** The retry loop; each retry passes an issued name for good. */
    method FreeCandidate(hint: string) returns (name: Option<string>)
      requires Valid()
      modifies `namedIndex
      ensures Valid()
      ensures var k := FirstFree(issuedNames, hint, NextCount(old(State()), hint));
        if MAX_COUNT <= k then name == None && namedIndex == old(namedIndex)[hint := MAX_COUNT]
        else name == Some(Candidate(hint, k)) && namedIndex == old(namedIndex)[hint := k + 1]
    {
      hide Ahead, Candidate, FirstFree;
      ghost var goal := FirstFree(issuedNames, hint, NextCount(State(), hint));
      ghost var count := NextCount(State(), hint);
      while true
        invariant Valid() && count == NextCount(State(), hint)
        invariant count <= goal && FirstFree(issuedNames, hint, count) == goal
        invariant namedIndex == old(namedIndex) || namedIndex == old(namedIndex)[hint := count]
        decreases Ahead(issuedNames, hint, count)
      {
        FirstFreeStep(issuedNames, hint, count);
        var index := NextNamedIndex(hint);
        if index.None? {
          return None;
        }
        var candidate := Candidate(hint, index.value);
        if candidate !in issuedNames {
          return Some(candidate);
        }
        count := count + 1;
      }
    }
  }

  // ------------------------------------------------------------------ any history of requests

  ghost function After(st: Names, reqs: seq<RegName>): Names {
    if reqs == [] then st else Request(After(st, reqs[..|reqs| - 1]), reqs[|reqs| - 1]).1
  }

  ghost function AnswerTo(st: Names, reqs: seq<RegName>, i: nat): NameResult
    requires i < |reqs|
  {
    Request(After(st, reqs[..i]), reqs[i]).0
  }

  /** Issued names were hinted, so none of them reads as a number. */
  ghost predicate Sane(st: Names) {
    forall s :: s in st.issued ==> s != [] && HeadChar(s[0])
  }

  lemma RequestKeepsSane(st: Names, req: RegName)
    requires Sane(st)
    ensures var (r, st') := Request(st, req);
      && Sane(st') && st.unnamed <= st'.unnamed && st.issued <= st'.issued
      && (r.Issued? && req.Named? ==> r.name !in st.issued && r.name in st'.issued)
      && (r.Issued? && req.Unnamed? ==> r.name == Numeral(st.unnamed) && st'.unnamed == st.unnamed + 1)
  {
  }

  lemma {:induction false} AfterGrows(st: Names, reqs: seq<RegName>, i: nat)
    requires Sane(st) && i <= |reqs|
    ensures Sane(After(st, reqs)) && Sane(After(st, reqs[..i]))
    ensures After(st, reqs[..i]).issued <= After(st, reqs).issued
    ensures After(st, reqs[..i]).unnamed <= After(st, reqs).unnamed
    decreases |reqs|
  {
    if i < |reqs| {
      var before := reqs[..|reqs| - 1];
      assert reqs[..i] == before[..i];
      AfterGrows(st, before, i);
      RequestKeepsSane(After(st, before), reqs[|reqs| - 1]);
    } else {
      assert reqs[..i] == reqs;
      if reqs != [] {
        AfterGrows(st, reqs[..|reqs| - 1], 0);
        RequestKeepsSane(After(st, reqs[..|reqs| - 1]), reqs[|reqs| - 1]);
      }
    }
  }

  /**
   No name is ever issued twice in one function, whatever the mix and order of requests: not
   to two hints, not to a hint that spells a suffix generated for another, not to a number.
   */
  lemma NamesAreUnique(st: Names, reqs: seq<RegName>, i: nat, j: nat)
    requires Sane(st) && i < j < |reqs|
    requires AnswerTo(st, reqs, i).Issued? && AnswerTo(st, reqs, j).Issued?
    ensures AnswerTo(st, reqs, i).name != AnswerTo(st, reqs, j).name
  {
    var early, late := reqs[..i + 1], reqs[..j];
    assert early[..i] == reqs[..i] && late[..i + 1] == early;
    AfterGrows(st, reqs, i);
    AfterGrows(st, late, i + 1);
    RequestKeepsSane(After(st, reqs[..i]), reqs[i]);
    RequestKeepsSane(After(st, late), reqs[j]);
    assert After(st, early) == Request(After(st, reqs[..i]), reqs[i]).1;
    var a, b := AnswerTo(st, reqs, i).name, AnswerTo(st, reqs, j).name;
    if reqs[i].Unnamed? && reqs[j].Unnamed? {
      if a == b {
        NumeralInjective(After(st, reqs[..i]).unnamed, After(st, late).unnamed);
      }
    } else if reqs[i].Unnamed? {
      assert b in Request(After(st, late), reqs[j]).1.issued && IsDigit(a[0]);
    } else if reqs[j].Unnamed? {
      assert a in After(st, early).issued && IsDigit(b[0]);
    }
  }

  function CountUnnamed(reqs: seq<RegName>): nat {
    if reqs == [] then 0 else CountUnnamed(reqs[..|reqs| - 1]) + (if reqs[|reqs| - 1].Unnamed? then 1 else 0)
  }

  lemma {:induction false} UnnamedCounter(reqs: seq<RegName>)
    requires CountUnnamed(reqs) <= MAX_COUNT
    ensures After(FRESH, reqs).unnamed == CountUnnamed(reqs)
  {
    if reqs != [] {
      UnnamedCounter(reqs[..|reqs| - 1]);
    }
  }

  /** Unnamed requests yield exactly 0, 1, 2, … in order, whatever was requested in between. */
  lemma UnnamedAreConsecutive(reqs: seq<RegName>, i: nat)
    requires i < |reqs| && reqs[i].Unnamed?
    requires CountUnnamed(reqs[..i]) < MAX_COUNT
    ensures AnswerTo(FRESH, reqs, i) == Issued(Numeral(CountUnnamed(reqs[..i])))
  {
    UnnamedCounter(reqs[..i]);
  }

  /** A hint with a counter has been issued itself: only a taken hint is passed over. */
  ghost predicate Counted(st: Names) {
    forall h :: h in st.named ==> h in st.issued
  }

  lemma RequestKeepsCounted(st: Names, req: RegName)
    requires Counted(st)
    ensures Counted(Request(st, req).1)
    ensures req.Named? && LegalHint(req.hint) ==> (Request(st, req).0 == Issued(req.hint) <==> req.hint !in st.issued)
  {
    if req.Named? && LegalHint(req.hint) {
      assert Candidate(req.hint, 0) == req.hint;
      var k := FirstFree(st.issued, req.hint, NextCount(st, req.hint));
      if k != 0 {
        assert req.hint in st.issued;
        if Candidate(req.hint, k) == req.hint {
          CandidateInjective(req.hint, k, 0);
        }
      }
    }
  }

  /** The names issued to hints are those the earlier requests were answered with. */
  lemma {:induction false} IssuedByAnswer(reqs: seq<RegName>, name: string)
    returns (i: nat)
    requires name in After(FRESH, reqs).issued
    ensures i < |reqs| && AnswerTo(FRESH, reqs, i) == Issued(name)
    decreases |reqs|
  {
    var before := reqs[..|reqs| - 1];
    if name in After(FRESH, before).issued {
      i := IssuedByAnswer(before, name);
      assert before[..i] == reqs[..i];
    } else {
      i := |reqs| - 1;
    }
  }

  lemma {:induction false} AfterCounted(reqs: seq<RegName>)
    ensures Counted(After(FRESH, reqs))
    decreases |reqs|
  {
    if reqs != [] {
      AfterCounted(reqs[..|reqs| - 1]);
      RequestKeepsCounted(After(FRESH, reqs[..|reqs| - 1]), reqs[|reqs| - 1]);
    }
  }

  /**
   Over any history, a request for a legal hint is answered with the hint itself if and only
   if no earlier request was, under that hint or as a suffix of another.
   */
  lemma HintKeptIffFree(reqs: seq<RegName>, i: nat)
    requires i < |reqs| && reqs[i].Named? && LegalHint(reqs[i].hint)
    ensures AnswerTo(FRESH, reqs, i) == Issued(reqs[i].hint) <==>
      forall j :: 0 <= j < i ==> AnswerTo(FRESH, reqs, j) != Issued(reqs[i].hint)
  {
    var hint, st := reqs[i].hint, After(FRESH, reqs[..i]);
    AfterCounted(reqs[..i]);
    RequestKeepsCounted(st, reqs[i]);
    if hint in st.issued {
      var j := IssuedByAnswer(reqs[..i], hint);
      assert reqs[..i][..j] == reqs[..j];
      assert AnswerTo(FRESH, reqs, j) == Issued(hint);
    } else if j :| 0 <= j < i && AnswerTo(FRESH, reqs, j) == Issued(hint) {
      NamesAreUnique(FRESH, reqs, j, i);
    }
  }

  /** Each function has its own allocator: a request in one leaves every other's as it was. */
  ghost function RequestIn(all: map<nat, Names>, func: nat, req: RegName): (NameResult, map<nat, Names>) {
    var (r, st) := Request(if func in all then all[func] else FRESH, req);
    (r, all[func := st])
  }

  /** The state of `func`'s allocator depends only on the requests made for it. */
  ghost function AfterIn(all: map<nat, Names>, reqs: seq<(nat, RegName)>): map<nat, Names> {
    if reqs == [] then all
    else RequestIn(AfterIn(all, reqs[..|reqs| - 1]), reqs[|reqs| - 1].0, reqs[|reqs| - 1].1).1
  }

  function For(reqs: seq<(nat, RegName)>, func: nat): seq<RegName> {
    if reqs == [] then []
    else For(reqs[..|reqs| - 1], func) + (if reqs[|reqs| - 1].0 == func then [reqs[|reqs| - 1].1] else [])
  }

  lemma {:induction false} FunctionsAreIndependent(reqs: seq<(nat, RegName)>, func: nat)
    ensures var all := AfterIn(map[], reqs);
      (if func in all then all[func] else FRESH) == After(FRESH, For(reqs, func))
  {
    if reqs != [] {
      var before := reqs[..|reqs| - 1];
      FunctionsAreIndependent(before, func);
      var mine := For(before, func);
      if reqs[|reqs| - 1].0 == func {
        assert For(reqs, func)[..|mine|] == mine;
      } else {
        assert For(reqs, func) == mine;
      }
    }
  }
}
