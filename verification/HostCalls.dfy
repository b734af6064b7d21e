/**
 The host as the two instruction sets see it: on either machine, a call to an imported function
 from lowered code is `call_imported` with a typed host function.
 */
module HostCalls {
  import opened Values
  import opened Drivers
  import opened ImportedCalls
  import opened LoweredBody
  import opened LoweredPrograms
  import opened OperandStack
  import opened RegisterLayout
  import opened StackCode
  import opened StackExecution

  /** A typed host function on the slots its caller staged. */
  function OnSlots<W>(host: Host<W>, ty: FuncType, slots: seq<Value>, w: W): (Option<seq<Value>>, W)
    requires |slots| == |ty.params|
  {
    var (answer, w') := host(RetagAll(slots, ty.params), w);
    match answer
    case Some(vs) => (Some(UntagAll(vs)), w')
    case None => (None, w')
  }

  /** Callee `g` of the program is this host function. */
  ghost predicate IsHost<W(!new)>(rt: Runtime<W>, g: nat, host: Host<W>, ty: FuncType) {
    g < rt.imports
    && forall slots, w :: |slots| == |ty.params| ==> rt.host(g, slots, w) == OnSlots(host, ty, slots, w)
  }

  /**
   An instruction that calls the host does on the register file what `CallImportedRegister` does,
   with the arguments that its caller staged.
   */
  lemma RegisterHostCall<W(!new)>(
    rt: Runtime<W>, op: FrameOp, host: Host<W>, ty: FuncType, at: nat, regs: seq<Value>, args: seq<Val>, w: W)
    requires op.FCall? && op.params == |ty.params| && op.results == |ty.results|
    requires IsHost(rt, op.callee, host, ty) && AllHaveType(args, ty.params)
    requires at + op.params <= |regs| && at + op.results <= |regs| && regs[at..at + op.params] == UntagAll(args)
    requires host(args, w).0.Some? ==> AllHaveType(host(args, w).0.value, ty.results)
    ensures HostCall(rt, op, at, regs, w) ==
      match host(args, w)
      case (Some(vs), w') => Goes((Overwrite(regs, at, UntagAll(vs)), w'))
      case (None, w') => Trapped(w')
  {
    HostSeesStagedArguments(regs, at, ty, args);
  }

  /** The same of the operand stack and `CallImportedStack`. */
  lemma StackHostCall<W(!new)>(
    rt: Runtime<W>, g: nat, host: Host<W>, ty: FuncType, b: StackBase, s: StackStore<W>, args: seq<Val>)
    requires IsHost(rt, g, host, ty) && AllHaveType(args, ty.params) && |args| <= |s.slots|
    requires s.slots[|s.slots| - |args|..] == UntagAll(args)
    requires host(args, s.rest).0.Some? ==> AllHaveType(host(args, s.rest).0.value, ty.results)
    ensures ExecuteStackOp(Invoke(g, |ty.params|, |ty.results|), rt, b, s) ==
      match host(args, s.rest)
      case (Some(vs), w') => Exec.Ok(Next, StackStore(s.slots[..|s.slots| - |args|] + UntagAll(vs), w'))
      case (None, w') => Exec.Trap(Fault(0), s.(rest := w'))
  {
    var at := |s.slots| - |args|;
    assert s.slots[at..at + |args|] == s.slots[at..];
    HostSeesStagedArguments(s.slots, at, ty, args);
  }
}
