/**
 The spill region is no wider than it has to be: no slot is ever lost, so the pass asks for a
 new one only when every slot it has holds a value some operand still reads.
 */
module SpillAccounting {
  import opened StackCode
  import opened RegisterLowering
  import opened LoweredBody
  import opened LoweringCorrect

  /** A borrowed value is kept in spill slot `k`. */
  ghost predicate Held(s: Sim, k: nat) {
    exists e :: 0 <= e < |s.arena| && LiveSpill(s, e) && s.arena[e].location.slot == k
  }

  /** Some operand is read from spill slot `k`. */
  ghost predicate ReadFrom(s: Sim, k: nat) {
    exists j :: 0 <= j < |s.stack| && ReadsSlot(s, s.stack[j], k)
  }

  predicate ReadsSlot(s: Sim, slot: StackSlot, k: nat) {
    slot.SLocal? && slot.entry < |s.arena| && SourceOf(s, slot) == FromSpill(k)
  }

  /** Every slot of the region is free or held, and every recorded borrow of a local has a borrower. */
  ghost predicate Accounted(s: Sim) {
    && (forall k: nat :: k < s.allocLen ==> k in s.free || Held(s, k))
    && forall i :: 0 <= i < |s.origin| && s.origin[i].Some? ==>
      s.origin[i].value < |s.arena| && s.arena[s.origin[i].value].refs != 0
  }

  /** A slot is held exactly when an operand is read from it, and then it is not free. */
  lemma HeldIsRead(s: Sim, k: nat)
    requires SimOk(s)
    ensures Held(s, k) <==> ReadFrom(s, k)
    ensures Held(s, k) ==> k !in s.free
  {
    if Held(s, k) {
      var e :| 0 <= e < |s.arena| && LiveSpill(s, e) && s.arena[e].location.slot == k;
      var j := BorrowerOf(s.stack, e);
      assert ReadsSlot(s, s.stack[j], k);
    }
    if ReadFrom(s, k) {
      var j :| 0 <= j < |s.stack| && ReadsSlot(s, s.stack[j], k);
      SourceBounds(s, j);
      assert LiveSpill(s, s.stack[j].entry);
    }
  }

  lemma {:induction false} BorrowerOf(stack: seq<StackSlot>, e: nat) returns (j: nat)
    requires 0 < Count(stack, e)
    ensures j < |stack| && stack[j] == SLocal(e)
  {
    j := |stack| - 1;
    if stack[j] != SLocal(e) {
      j := BorrowerOf(stack[..j], e);
    }
  }

  lemma ReleaseAccounted(s: Sim, e: nat)
    requires Accounted(s) && OriginsOk(s) && Releasable(s, e)
    ensures Accounted(ReleaseBorrow(s, e))
  {
    var r := ReleaseBorrow(s, e);
    forall k: nat | k < r.allocLen ensures k in r.free || Held(r, k) {
      if k in s.free {
      } else {
        var f :| 0 <= f < |s.arena| && LiveSpill(s, f) && s.arena[f].location.slot == k;
        if f != e || s.arena[e].refs != 1 {
          assert LiveSpill(r, f) && r.arena[f].location.slot == k;
        }
      }
    }
  }

  lemma {:induction false} PopsAccounted(s: Sim, n: nat)
    requires SimOk(s) && Accounted(s) && n <= |s.stack|
    ensures Accounted(Pops(s, n))
    decreases n
  {
    hide SimOk, Accounted;
    if n != 0 {
      PopKeepsOk(s);
      PopAccounted(s);
      PopsAccounted(PopSlot(s), n - 1);
    }
  }

  lemma PopAccounted(s: Sim)
    requires SimOk(s) && Accounted(s) && s.stack != []
    ensures Popable(s) && Accounted(PopSlot(s))
  {
    PopKeepsOk(s);
    var top := s.stack[|s.stack| - 1];
    var rest := s.(stack := s.stack[..|s.stack| - 1]);
    SameAccounts(s, rest);
    match top
    case SLocal(e) => ReleaseAccounted(rest, e);
    case _ => SameAccounts(s, PopSlot(s));
  }

  /** The accounts depend on the region and the entries only. */
  lemma SameAccounts(s: Sim, r: Sim)
    requires Accounted(s) && r.arena == s.arena && r.free == s.free && r.allocLen == s.allocLen && r.origin == s.origin
    ensures Accounted(r)
  {
    forall k: nat | k < r.allocLen && k !in r.free ensures Held(r, k) {
      var e :| 0 <= e < |s.arena| && LiveSpill(s, e) && s.arena[e].location.slot == k;
      assert LiveSpill(r, e);
    }
  }

  lemma PushLocalAccounted(s: Sim, i: nat)
    requires SimOk(s) && Accounted(s) && i < |s.origin|
    ensures Accounted(PushLocal(s, i))
  {
    hide Count, Regs;
    var r := PushLocal(s, i);
    forall k: nat | k < r.allocLen && k !in r.free ensures Held(r, k) {
      var e :| 0 <= e < |s.arena| && LiveSpill(s, e) && s.arena[e].location.slot == k;
      assert LiveSpill(r, e) && r.arena[e].location.slot == k;
    }
  }

  lemma RescueAccounted(s: Sim, i: nat)
    requires SimOk(s) && Accounted(s) && i < |s.origin| && Rescue(s, i).Ok?
    ensures Accounted(Rescue(s, i).value)
  {
    if s.origin[i].Some? {
      var r, e := Rescue(s, i).value, s.origin[i].value;
      var (slot, _) := ReserveSlot(s).value;
      forall k: nat | k < r.allocLen && k !in r.free ensures Held(r, k) {
        if k == slot {
          assert LiveSpill(r, e) && r.arena[e].location.slot == k;
        } else {
          assert k in s.free ==> k in r.free;
          var f :| 0 <= f < |s.arena| && LiveSpill(s, f) && s.arena[f].location.slot == k;
          assert LiveSpill(r, f) && r.arena[f].location.slot == k;
        }
      }
    }
  }

  lemma OpAccounted(s: Sim, op: Op)
    requires SimOk(s) && Accounted(s) && Valid(op, |s.origin|, |s.stack|) && LowerOp(s, op).Ok?
    ensures Accounted(LowerOp(s, op).value)
  {
    hide SimOk, Accounted, PushRegs, LowerCall, Rescue, Materialize;
    EntriesExist(s);
    match op
    case Const(c) => SameAccounts(s, PushConst(s, c).value);
    case LocalGet(i) => PushLocalAccounted(s, i);
    case Drop => PopsAccounted(s, 1);
    case LocalSet(i) =>
      RescueAccounted(s, i);
      RescueKeepsOk(s, i);
      var m := Rescue(s, i).value;
      PopsAccounted(m, 1);
      SameAccounts(Pops(m, 1), LowerOp(s, op).value);
    case LocalTee(i) =>
      RescueAccounted(s, i);
      RescueKeepsOk(s, i);
      SameAccounts(Rescue(s, i).value, LowerOp(s, op).value);
    case Apply(code, ins, outs) =>
      var s1 := Pops(s, ins);
      var value := RegOp.Value(code, Inputs(s, ins), s1.currReg, outs);
      PopsAccounted(s, ins);
      EmitKeepsOk(s1, value);
      PushRegsKeepsOk(Emit(s1, value), outs);
      SameAccounts(s1, LowerOp(s, op).value);
    case Invoke(callee, params, results) => CallAccounted(s, callee, params, results);
  }

  lemma CallAccounted(s: Sim, callee: nat, params: nat, results: nat)
    requires SimOk(s) && Accounted(s) && params <= |s.stack| && LowerCall(s, callee, params, results).Ok?
    ensures Accounted(LowerCall(s, callee, params, results).value)
  {
    hide SimOk, Accounted, PushRegs, LowerCall;
    LowerCallShape(s, callee, params, results);
    StagedAccounted(s, params);
    var s1 := Staged(s, params);
    var s2 := Pops(s1, params);
    PopsAccounted(s1, params);
    PushRegsKeepsOk(Emit(s2, CallLocal(callee, params, results, s2.currReg)), results);
    SameAccounts(s2, LowerCall(s, callee, params, results).value);
  }

  lemma StagedAccounted(s: Sim, n: nat)
    requires SimOk(s) && Accounted(s) && n <= |s.stack| && (n != 0 ==> Materialize(s, n).Ok?)
    ensures Accounted(Staged(s, n))
  {
    hide SimOk, Accounted, PushRegs;
    if n != 0 {
      var s1 := Pops(s, n);
      EntriesExist(s);
      var move := Move(Inputs(s, n), s1.currReg);
      PopsAccounted(s, n);
      EmitKeepsOk(s1, move);
      PushRegsKeepsOk(Emit(s1, move), n);
      SameAccounts(s1, Staged(s, n));
    }
  }

  lemma {:induction false} OpsAccounted(s: Sim, ops: seq<Op>, final: nat)
    requires SimOk(s) && Accounted(s) && ValidCode(ops, |s.origin|, |s.stack|, final) && LowerOps(s, ops, final).Ok?
    ensures Accounted(LowerOps(s, ops, final).value)
    decreases |ops|
  {
    hide SimOk, Accounted, LowerOp;
    if ops != [] {
      LowerOpKeepsOk(s, ops[0]);
      OpAccounted(s, ops[0]);
      OpsAccounted(LowerOp(s, ops[0]).value, ops[1..], final);
    }
  }

  /**
   Each slot of the spill region is either free or read by an operand, never both; so the next
   reservation widens the region only if all of it is read at once.
   */
  ghost predicate ExactAccounts(s: Sim) {
    && (forall k: nat :: k < s.allocLen ==> (ReadFrom(s, k) <==> k !in s.free))
    && (ReserveSlot(s).Ok? && s.allocLen < ReserveSlot(s).value.1.allocLen ==>
      forall k: nat :: k < s.allocLen ==> ReadFrom(s, k))
  }

  lemma AccountsAreExact(s: Sim)
    requires SimOk(s) && Accounted(s)
    ensures ExactAccounts(s)
  {
    hide SimOk, ReadFrom, Held;
    forall k: nat | k < s.allocLen ensures ReadFrom(s, k) <==> k !in s.free {
      HeldIsRead(s, k);
    }
  }

  lemma StartAccounted(locals: nat)
    ensures Accounted(Start(locals))
  {
  }

  /** At every point of every straight-line body the accounts are exact. */
  lemma SpillsNeverLeak(locals: nat, ops: seq<Op>, final: nat)
    requires locals <= MAX_U16 && ValidCode(ops, locals, 0, final) && LowerOps(Start(locals), ops, final).Ok?
    ensures SimOk(Start(locals)) && |Start(locals).origin| == locals
    ensures ExactAccounts(LowerOps(Start(locals), ops, final).value)
  {
    hide SimOk, LowerOps, Accounted, ExactAccounts;
    StartOk(locals);
    StartAccounted(locals);
    OpsAccounted(Start(locals), ops, final);
    LowerOpsKeepsOk(Start(locals), ops, final);
    AccountsAreExact(LowerOps(Start(locals), ops, final).value);
  }
}
