/**
 Calls into the host (`TraceVM::call_imported`).  A caller cannot tell an imported callee
 from a local one: its arguments are read from where a local callee would find its
 parameters, and its results are left where a local callee would leave its own.
 */
module ImportedCalls {
  import opened Values
  import opened Drivers
  import opened FrameConvention
  import opened RegisterFrame
  import opened RegisterLayout
  import opened OperandStack

  /** The instance's linear memory, which a host function may read and write. */
  class InstanceMemory<M> {
    var contents: M

    constructor (contents: M)
      ensures this.contents == contents
    {
      this.contents := contents;
    }
  }

  /** A host function: given arguments and the memory, it answers with results or fails, having changed the memory. */
  type Host<!M> = (seq<Val>, M) -> (Option<seq<Val>>, M)

  /** The arguments the host receives: the staged slots, re-tagged by the callee's declared types. */
  function HostArgs(slots: seq<Value>, base: nat, ty: FuncType): seq<Val>
    requires base + |ty.params| <= |slots|
  {
    RetagAll(slots[base..base + |ty.params|], ty.params)
  }

  /** `call_imported` on the register machine.  `base` is where the caller staged the arguments. */
  method CallImportedRegister<M>(frame: RegFrame, memory: InstanceMemory<M>, host: Host<M>, ty: FuncType, base: nat)
    returns (ok: bool)
    requires frame.Valid() && base + |ty.params| <= |frame.registers|
    requires var answer := host(HostArgs(frame.registers, base, ty), memory.contents).0;
      answer.Some? ==> base + |answer.value| <= |frame.registers|
    modifies frame, memory
    ensures frame.Valid()
    ensures var (answer, written) := host(HostArgs(old(frame.registers), base, ty), old(memory.contents));
      && ok == answer.Some? && memory.contents == written
      && frame.registers == if ok then Overwrite(old(frame.registers), base,
         UntagAll(answer.value)) else old(frame.registers)
  {
    var ws := frame.GetParamsForImportCall(|ty.params|, base);
    var (answer, written) := host(RetagAll(ws, ty.params), memory.contents);
    memory.contents := written;
    match answer
    case None =>
      ok := false;
    case Some(results) =>
      frame.SetResultsFromImportCall(results, base);
      ok := true;
  }

  /** `call_imported` on the stack machine, which consumes its arguments. */
  method CallImportedStack<M>(s: Stack<Value>, memory: InstanceMemory<M>, host: Host<M>,
    ty: FuncType) returns (ok: bool)
    requires s.Valid() && |ty.params| <= |s.Contents()|
    modifies s, memory
    ensures s.Valid()
    ensures var base := |old(s.Contents())| - |ty.params|;
      var (answer, written) := host(HostArgs(old(s.Contents()), base, ty), old(memory.contents));
      && ok == answer.Some? && memory.contents == written
      && s.Contents() == old(s.Contents())[..base] + (if ok then UntagAll(answer.value) else [])
  {
    ghost var before := s.Contents();
    var ws := OperandStack.GetParamsForImportCall(s, |ty.params|);
    var args := RetagAll(ws, ty.params);
    ghost var base: nat := |before| - |ty.params|;
    assert ws == before[base..base + |ty.params|];
    assert args == HostArgs(before, base, ty) && s.Contents() == before[..base];
    var (answer, written) := host(args, memory.contents);
    memory.contents := written;
    match answer
    case None =>
      ok := false;
    case Some(results) =>
      OperandStack.SetResultsFromImportCall(s, results);
      ok := true;
  }

  /**
   What a caller sees of a call that handed its results over: nothing below the base changed,
   the results, read back at their declared types, are the values that were returned, and the
   store ends where the caller expects.
   */
  ghost predicate LooksReturned<L, B, S>(v: View<L, B, S>, base: nat, tys: seq<ValType>, results: seq<Val>, s: S,
    t: S) {
    && Keeps(v, base, s, t)
    && base + |tys| <= |v.slots(t)|
    && RetagAll(v.slots(t)[base..base + |tys|], tys) == results
    && v.endsAt(base + |tys|, t)
  }

  lemma RetagUntag(vs: seq<Val>, tys: seq<ValType>)
    requires AllHaveType(vs, tys)
    ensures RetagAll(UntagAll(vs), tys) == vs
  {
    forall i | 0 <= i < |vs|
      ensures RetagAll(UntagAll(vs), tys)[i] == vs[i]
    {
      TagRoundTrip(vs[i], tys[i]);
    }
  }

  /** A local callee whose body finished with these results looks the same to its caller. */
  lemma LocalLooksReturned<L(!new), B(!new), S(!new)>(
    v: View<L, B, S>, m: Machine<L, B, S>, body: Body<L>, ty: FuncType, b: B, s: S, results: seq<Val>)
    requires Implements(v, m) && v.wellFormed(body, ty) && FrameOk(v, body, b, s) && v.ready(body, |ty.results|, b, s)
    requires AllHaveType(results, ty.results) && v.results(body, |ty.results|, b, s) == UntagAll(results)
    ensures LooksReturned(v, v.baseOf(b), ty.results, results, s, m.exit(|ty.results|, b, body.layout, s))
  {
    assert ExitLaw(v, m, body, ty, b, s);
    RetagUntag(results, ty.results);
  }

  /** So does an imported callee on the register file, whatever it did to the rest of the instance. */
  lemma RegisterImportLooksReturned<W>(s: RegStore<W>, base: nat, tys: seq<ValType>, results: seq<Val>, rest: W)
    requires AllHaveType(results, tys) && base + |results| <= |s.regs|
    ensures LooksReturned(RegView<W>(), base, tys, results, s,
      RegStore(Overwrite(s.regs, base, UntagAll(results)), rest))
  {
    RetagUntag(results, tys);
    var t := Overwrite(s.regs, base, UntagAll(results));
    assert t[base..base + |tys|] == UntagAll(results);
  }

  /** And an imported callee on the operand stack, which ends with the results on top. */
  lemma StackImportLooksReturned<L, W>(s: StackStore<W>, base: nat, tys: seq<ValType>, results: seq<Val>, rest: W)
    requires AllHaveType(results, tys) && base <= |s.slots|
    ensures LooksReturned(StackView<L, W>(), base, tys, results, s,
      StackStore(s.slots[..base] + UntagAll(results), rest))
  {
    RetagUntag(results, tys);
    var t := s.slots[..base] + UntagAll(results);
    assert t[base..base + |tys|] == UntagAll(results);
  }

  /**
   The two machines call the host alike: whatever typed arguments were staged, by whichever
   caller and wherever its frame lies, both hand the host exactly those arguments.
   */
  lemma HostSeesStagedArguments(slots: seq<Value>, base: nat, ty: FuncType, args: seq<Val>)
    requires AllHaveType(args, ty.params) && base + |args| <= |slots|
    requires slots[base..base + |args|] == UntagAll(args)
    ensures HostArgs(slots, base, ty) == args
  {
    RetagUntag(args, ty.params);
  }
}
