/**
 Lowering of straight-line code for the register machine
 (`tracewasm-core/src/instruction/register/mod.rs`, `lazy.rs`, `backpatch.rs`).

 The pass simulates the operand stack with descriptions of operands.  `local.get` moves
 nothing: the operand is described as "read local i" until a write to that local, which
 first copies the old value to a spill slot and redirects every operand sharing it.  Operands
 are recorded by what they are and given frame indices at the end, when the sizes of the
 constant and spill regions are known.
 */
module RegisterLowering {
  import Interning
  import opened Values

  const MAX_U16: nat := 65535

  /** `StackSlot`: what one simulated operand is. */
  datatype StackSlot = SConst(id: nat) | SReg(index: nat) | SLocal(entry: nat)

  /** `LazyLocation`: where a borrowed local's value is now. */
  datatype Location = Original(local: nat) | Spilled(slot: nat)

  /** `LazyEntry`: one value of a local, shared by every operand that reads it. */
  datatype Entry = Entry(location: Location, refs: nat)

  /** `BackPatchableSlot`: an operand before the frame layout is final. */
  datatype Source = FromReg(index: nat) | FromSpill(slot: nat) | FromConst(id: nat) | FromLocal(local: nat)

  /** Instructions with their operands not yet resolved; destinations are provisional registers. */
  datatype RegOp =
    | Spill(local: nat, slot: nat)
    | SetLocal(local: nat, input: Source)
    | Value(code: int, inputs: seq<Source>, out: nat, outs: nat)
    | Move(inputs: seq<Source>, out: nat)
    | CallLocal(callee: nat, params: nat, results: nat, base: nat)
    | EndBody

  datatype Lowered<+T> = Ok(value: T) | FrameTooLarge(what: string)

  /** `SimulatedStack`, with the instructions emitted so far. */
  datatype Sim = Sim(
    stack: seq<StackSlot>,
    currReg: nat,
    maxReg: nat,
    arena: seq<Entry>,
    origin: seq<Option<nat>>,
    allocLen: nat,
    free: seq<nat>,
    consts: seq<Val>,
    code: seq<RegOp>)

  function Start(locals: nat): Sim {
    Sim([], locals, locals, [], seq(locals, _ => None), 0, [], [], [])
  }

  // ------------------------------------------------------------------ the simulated stack

  /** Where an operand is read from at this point of the pass. */
  function SourceOf(s: Sim, slot: StackSlot): Source
    requires slot.SLocal? ==> slot.entry < |s.arena|
  {
    match slot
    case SConst(id) => FromConst(id)
    case SReg(r) => FromReg(r)
    case SLocal(e) =>
      match s.arena[e].location
      case Original(i) => FromLocal(i)
      case Spilled(k) => FromSpill(k)
  }

  /** `pop_lazy`: the last borrow of an entry gives back its origin or its spill slot. */
  function ReleaseBorrow(s: Sim, e: nat): Sim
    requires Releasable(s, e)
  {
    var entry := s.arena[e];
    var s' := s.(arena := s.arena[e := entry.(refs := entry.refs - 1)]);
    if entry.refs != 1 then s'
    else
      match entry.location
      case Original(i) => s'.(origin := s.origin[i := None])
      case Spilled(k) => s'.(free := s.free + [k])
  }

  /** `pop`, without its result. */
  function PopSlot(s: Sim): Sim
    requires s.stack != [] && Popable(s)
  {
    var top := s.stack[|s.stack| - 1];
    var rest := s.(stack := s.stack[..|s.stack| - 1]);
    match top
    case SConst(_) => rest
    case SReg(_) => rest.(currReg := s.currReg - 1)
    case SLocal(e) => ReleaseBorrow(rest, e)
  }

  predicate Popable(s: Sim) {
    s.stack != [] ==>
      match s.stack[|s.stack| - 1]
      case SConst(_) => true
      case SReg(_) => 1 <= s.currReg
      case SLocal(e) => Releasable(s, e)
  }

  predicate Releasable(s: Sim, e: nat) {
    && e < |s.arena| && 1 <= s.arena[e].refs
    && (s.arena[e].location.Original? ==> s.arena[e].location.local < |s.origin|)
  }

  /** `local.get`: starts or joins a borrow. */
  function PushLocal(s: Sim, i: nat): Sim
    requires i < |s.origin| && (s.origin[i].Some? ==> s.origin[i].value < |s.arena|)
  {
    match s.origin[i]
    case Some(e) =>
      s.(arena := s.arena[e := s.arena[e].(refs := s.arena[e].refs + 1)], stack := s.stack + [SLocal(e)])
    case None =>
      var e := |s.arena|;
      s.(arena := s.arena + [Entry(Original(i), 1)], origin := s.origin[i := Some(e)], stack := s.stack + [SLocal(e)])
  }

  /** Pushing an operand register, which may widen the frame. */
  function PushReg(s: Sim): Lowered<Sim> {
    var s' := s.(stack := s.stack + [SReg(s.currReg)], currReg := s.currReg + 1);
    if s.currReg + 1 <= s.maxReg then Ok(s')
    else if MAX_U16 <= s.maxReg then FrameTooLarge("locals and operand registers")
    else Ok(s'.(maxReg := s.maxReg + 1))
  }

  function PushRegs(s: Sim, n: nat): Lowered<Sim>
    decreases n
  {
    if n == 0 then Ok(s)
    else
      match PushReg(s)
      case Ok(s') => PushRegs(s', n - 1)
      case FrameTooLarge(what) => FrameTooLarge(what)
  }

  /** An immediate is interned in the constant pool and costs no instruction. */
  function PushConst(s: Sim, c: Val): Lowered<Sim> {
    var (answer, pool) := Interning.Intern(s.consts, MAX_U16, c);
    if answer.Id? then Ok(s.(consts := pool, stack := s.stack + [SConst(answer.id)]))
    else FrameTooLarge("constants")
  }

  /** `reserve_slot`: a freed slot before a new one. */
  function ReserveSlot(s: Sim): Lowered<(nat, Sim)> {
    if s.free != [] then Ok((s.free[|s.free| - 1], s.(free := s.free[..|s.free| - 1])))
    else if MAX_U16 <= s.allocLen then FrameTooLarge("spill slots")
    else Ok((s.allocLen, s.(allocLen := s.allocLen + 1)))
  }

  /** `set_lazy` and the spill it calls for: rescues every operand still reading local `i`. */
  function Rescue(s: Sim, i: nat): Lowered<Sim>
    requires i < |s.origin| && (s.origin[i].Some? ==> s.origin[i].value < |s.arena|)
  {
    match s.origin[i]
    case None => Ok(s)
    case Some(e) =>
      match ReserveSlot(s)
      case FrameTooLarge(what) => FrameTooLarge(what)
      case Ok((k, s')) =>
        Ok(s'.(arena := s.arena[e := s.arena[e].(location := Spilled(k))], origin := s.origin[i := None],
               code := s.code + [Spill(i, k)]))
  }

  // ------------------------------------------------------------------ what the pass maintains

  function Count(stack: seq<StackSlot>, e: nat): nat {
    if stack == [] then 0
    else Count(stack[..|stack| - 1], e) + (if stack[|stack| - 1] == SLocal(e) then 1 else 0)
  }

  function Regs(stack: seq<StackSlot>): nat {
    if stack == [] then 0 else Regs(stack[..|stack| - 1]) + (if stack[|stack| - 1].SReg? then 1 else 0)
  }

  ghost predicate DistinctNats(xs: seq<nat>) {
    forall i, j :: 0 <= i < j < |xs| ==> xs[i] != xs[j]
  }

  /** The spill slots of borrowed values are in use, and no two values share one. */
  ghost predicate SpillsOk(s: Sim) {
    && (forall i :: 0 <= i < |s.free| ==> s.free[i] < s.allocLen)
    && DistinctNats(s.free)
    && (forall e :: 0 <= e < |s.arena| && LiveSpill(s, e) ==>
      s.arena[e].location.slot < s.allocLen && s.arena[e].location.slot !in s.free)
    && forall e, f :: 0 <= e < f < |s.arena| && LiveSpill(s, e) && LiveSpill(s, f) ==>
      s.arena[e].location.slot != s.arena[f].location.slot
  }

  /** Entry `e` is borrowed and has been moved to a spill slot. */
  predicate LiveSpill(s: Sim, e: nat)
    requires e < |s.arena|
  {
    s.arena[e].refs != 0 && s.arena[e].location.Spilled?
  }

  /** An entry found through `origin` reads its local in place, and so does no other live entry. */
  ghost predicate OriginsOk(s: Sim) {
    && (forall i :: 0 <= i < |s.origin| && s.origin[i].Some? ==>
      s.origin[i].value < |s.arena| && s.arena[s.origin[i].value].location == Original(i))
    && forall e :: 0 <= e < |s.arena| && s.arena[e].refs != 0 && s.arena[e].location.Original? ==>
      s.arena[e].location.local < |s.origin| && s.origin[s.arena[e].location.local] == Some(e)
  }

  /** Every operand on the stack is a live constant, borrow or register, and every borrow is counted. */
  ghost predicate StackOk(s: Sim) {
    && (forall j :: 0 <= j < |s.stack| && s.stack[j].SConst? ==> s.stack[j].id < |s.consts|)
    && (forall j :: 0 <= j < |s.stack| && s.stack[j].SLocal? ==> s.stack[j].entry < |s.arena|)
    && (forall e :: 0 <= e < |s.arena| ==> s.arena[e].refs == Count(s.stack, e))
    && forall j :: 0 <= j < |s.stack| && s.stack[j].SReg? ==> s.stack[j].index == |s.origin| + Regs(s.stack[..j])
  }

  ghost predicate SimOk(s: Sim) {
    && SpillsOk(s) && OriginsOk(s) && StackOk(s)
    && s.currReg == |s.origin| + Regs(s.stack) <= s.maxReg <= MAX_U16
    && s.allocLen <= MAX_U16 && |s.consts| <= MAX_U16
  }

  lemma {:induction false} CountPositive(stack: seq<StackSlot>, j: nat)
    requires j < |stack| && stack[j].SLocal?
    ensures 1 <= Count(stack, stack[j].entry)
    decreases |stack|
  {
    if j < |stack| - 1 {
      assert stack[..|stack| - 1][j] == stack[j];
      CountPositive(stack[..|stack| - 1], j);
    }
  }

  lemma {:induction false} RegsMonotone(stack: seq<StackSlot>, j: nat)
    requires j <= |stack|
    ensures Regs(stack[..j]) <= Regs(stack)
    ensures j < |stack| && stack[j].SReg? ==> Regs(stack[..j]) < Regs(stack)
    decreases |stack|
  {
    if j == |stack| {
      assert stack[..j] == stack;
    } else {
      var front := stack[..|stack| - 1];
      assert stack[..j] == front[..j];
      if j < |front| {
        assert front[j] == stack[j];
      }
      RegsMonotone(front, j);
      if j == |front| {
        assert front[..j] == front;
      }
    }
  }

  lemma PushShape(stack: seq<StackSlot>, slot: StackSlot)
    ensures (stack + [slot])[..|stack|] == stack
    ensures forall e :: Count(stack + [slot], e) == Count(stack, e) + (if slot == SLocal(e) then 1 else 0)
    ensures Regs(stack + [slot]) == Regs(stack) + (if slot.SReg? then 1 else 0)
    ensures forall j :: 0 <= j < |stack| ==> (stack + [slot])[j] == stack[j] && (stack + [slot])[..j] == stack[..j]
  {
    assert (stack + [slot])[..|stack|] == stack;
    forall j | 0 <= j < |stack| ensures (stack + [slot])[..j] == stack[..j] {
    }
  }

  lemma PopShape(stack: seq<StackSlot>)
    requires stack != []
    ensures var front := stack[..|stack| - 1];
      && (forall j :: 0 <= j < |front| ==> front[j] == stack[j] && front[..j] == stack[..j])
      && (forall e :: Count(stack, e) == Count(front, e) + (if stack[|stack| - 1] == SLocal(e) then 1 else 0))
      && Regs(stack) == Regs(front) + (if stack[|stack| - 1].SReg? then 1 else 0)
  {
    var front := stack[..|stack| - 1];
    forall j | 0 <= j < |front| ensures front[..j] == stack[..j] {
    }
  }

  lemma TopPopable(s: Sim)
    requires SimOk(s)
    ensures Popable(s)
  {
    if s.stack != [] && s.stack[|s.stack| - 1].SLocal? {
      CountPositive(s.stack, |s.stack| - 1);
    }
  }

  /** Popping an operand keeps the pass's bookkeeping exact. */
  lemma PopKeepsOk(s: Sim)
    requires SimOk(s) && s.stack != []
    ensures Popable(s) && SimOk(PopSlot(s)) && PopFrame(s, PopSlot(s))
  {
    TopPopable(s);
    PopKeepsStack(s);
    var top := s.stack[|s.stack| - 1];
    var rest := s.(stack := s.stack[..|s.stack| - 1]);
    if top.SLocal? {
      ReleaseKeepsSpills(rest, top.entry);
    } else {
      assert SpillsOk(PopSlot(s)) && OriginsOk(PopSlot(s));
    }
  }

  /** What popping leaves alone. */
  ghost predicate PopFrame(s: Sim, s': Sim)
    requires s.stack != []
  {
    && s'.stack == s.stack[..|s.stack| - 1] && |s'.origin| == |s.origin|
    && s'.consts == s.consts && s'.allocLen == s.allocLen && s'.maxReg == s.maxReg && s'.code == s.code
    && |s'.arena| == |s.arena| && forall e :: 0 <= e < |s.arena| ==> s'.arena[e].location == s.arena[e].location
  }

  lemma PopKeepsStack(s: Sim)
    requires StackOk(s) && s.stack != [] && Popable(s)
    requires s.currReg == |s.origin| + Regs(s.stack)
    ensures StackOk(PopSlot(s)) && PopFrame(s, PopSlot(s))
    ensures PopSlot(s).currReg == |s.origin| + Regs(PopSlot(s).stack) <= s.currReg
  {
    hide Count, Regs;
    PopShape(s.stack);
  }

  lemma ReleaseKeepsSpills(s: Sim, e: nat)
    requires SpillsOk(s) && OriginsOk(s) && Releasable(s, e)
    ensures SpillsOk(ReleaseBorrow(s, e)) && OriginsOk(ReleaseBorrow(s, e))
  {
    ReleaseKeepsSlots(s, e);
    ReleaseKeepsOrigins(s, e);
  }

  lemma ReleaseKeepsSlots(s: Sim, e: nat)
    requires SpillsOk(s) && Releasable(s, e)
    ensures SpillsOk(ReleaseBorrow(s, e))
  {
  }

  lemma ReleaseKeepsOrigins(s: Sim, e: nat)
    requires OriginsOk(s) && Releasable(s, e)
    ensures OriginsOk(ReleaseBorrow(s, e))
  {
  }

  lemma PushLocalKeepsOk(s: Sim, i: nat)
    requires SimOk(s) && i < |s.origin|
    ensures SimOk(PushLocal(s, i))
  {
    PushLocalKeepsStack(s, i);
    PushLocalKeepsSpills(s, i);
    PushLocalKeepsOrigins(s, i);
  }

  lemma PushLocalKeepsStack(s: Sim, i: nat)
    requires StackOk(s) && OriginsOk(s) && i < |s.origin|
    ensures StackOk(PushLocal(s, i)) && Regs(PushLocal(s, i).stack) == Regs(s.stack)
  {
    hide Count, Regs;
    var e := if s.origin[i].Some? then s.origin[i].value else |s.arena|;
    PushShape(s.stack, SLocal(e));
    NoStraySlots(s);
  }

  lemma PushLocalKeepsSpills(s: Sim, i: nat)
    requires SpillsOk(s) && OriginsOk(s) && i < |s.origin|
    ensures SpillsOk(PushLocal(s, i))
  {
    var s' := PushLocal(s, i);
    assert forall e :: 0 <= e < |s'.arena| && LiveSpill(s', e) ==> e < |s.arena| && LiveSpill(s, e);
  }

  lemma PushLocalKeepsOrigins(s: Sim, i: nat)
    requires OriginsOk(s) && i < |s.origin|
    ensures OriginsOk(PushLocal(s, i))
  {
  }

  /** Nothing on the stack reads an entry that does not exist yet. */
  lemma NoStraySlots(s: Sim)
    requires StackOk(s)
    ensures Count(s.stack, |s.arena|) == 0
  {
    CountAbsent(s.stack, |s.arena|);
  }

  lemma {:induction false} CountAbsent(stack: seq<StackSlot>, e: nat)
    requires SLocal(e) !in stack
    ensures Count(stack, e) == 0
  {
    if stack != [] {
      CountAbsent(stack[..|stack| - 1], e);
    }
  }

  lemma PushRegKeepsOk(s: Sim)
    requires SimOk(s) && PushReg(s).Ok?
    ensures SimOk(PushReg(s).value)
  {
    hide Count, Regs;
    PushShape(s.stack, SReg(s.currReg));
  }

  lemma PushConstKeepsOk(s: Sim, c: Val)
    requires SimOk(s) && PushConst(s, c).Ok?
    ensures SimOk(PushConst(s, c).value)
  {
    hide Count, Regs;
    var s' := PushConst(s, c).value;
    PushShape(s.stack, s'.stack[|s.stack|]);
  }

  lemma RescueKeepsOk(s: Sim, i: nat)
    requires SimOk(s) && i < |s.origin| && Rescue(s, i).Ok?
    ensures SimOk(Rescue(s, i).value)
    ensures var s' := Rescue(s, i).value;
      && s'.stack == s.stack && s'.consts == s.consts && |s'.origin| == |s.origin| && |s'.arena| == |s.arena|
      && s.allocLen <= s'.allocLen && s'.maxReg == s.maxReg && s'.origin[i] == None && s.code <= s'.code
  {
    RescueKeepsSlots(s, i);
    RescueKeepsRest(s, i);
  }

  /** The slot a rescue reserves was nobody's. */
  lemma RescueKeepsSlots(s: Sim, i: nat)
    requires SpillsOk(s) && OriginsOk(s) && i < |s.origin| && s.allocLen <= MAX_U16 && Rescue(s, i).Ok?
    ensures SpillsOk(Rescue(s, i).value)
    ensures s.allocLen <= Rescue(s, i).value.allocLen <= MAX_U16
  {
  }

  lemma RescueKeepsRest(s: Sim, i: nat)
    requires OriginsOk(s) && StackOk(s) && i < |s.origin| && Rescue(s, i).Ok?
    ensures OriginsOk(Rescue(s, i).value) && StackOk(Rescue(s, i).value)
  {
    hide Count, Regs;
  }
}
