/**
 How the register machine lays a frame out in its file of slots
 (`tracewasm-core/src/runtime/reg.rs`): four consecutive regions,
 `locals | constants | spills | operand registers`, and what entering and leaving a frame
 make of the file.
 */
module RegisterLayout {
  import opened Values

  /** The sizes a frame is laid out from; `registers` counts from the frame base and so includes the locals. */
  datatype RegLayout = RegLayout(registers: nat, spills: nat, localsCount: nat, consts: seq<Val>)

  function Width(l: RegLayout): nat {
    l.registers + l.spills + |l.consts|
  }

  /** Where a frame's operand registers begin, relative to its base. */
  function OperandStart(l: RegLayout): nat {
    l.localsCount + |l.consts| + l.spills
  }

  // ------------------------------------------------------------------ the meaning of a frame

  function Grown(regs: seq<Value>, n: nat): (r: seq<Value>)
    ensures |r| == if |regs| < n then n else |regs|
    ensures regs <= r
    ensures forall i :: |regs| <= i < |r| ==> r[i] == 0
  {
    if |regs| < n then regs + seq(n - |regs|, _ => 0) else regs
  }

  function Overwrite(regs: seq<Value>, at: nat, ws: seq<Value>): (r: seq<Value>)
    requires at + |ws| <= |regs|
  {
    Patched(regs, at, ws, |ws|)
  }

  /** The file after `enter_frame`. */
  function EnterRegs(regs: seq<Value>, params: nat, locals: seq<ValType>, base: nat, l: RegLayout): (r: seq<Value>)
    requires params <= |locals| <= l.registers
    ensures |r| == if |regs| < base + Width(l) then base + Width(l) else |regs|
  {
    var zeroed := Overwrite(Grown(regs, base + Width(l)), base + params, Zeros(locals[params..]));
    Overwrite(zeroed, base + |locals|, UntagAll(l.consts))
  }

  /** The file after `exit_frame`. */
  function ExitRegs(regs: seq<Value>, results: nat, base: nat, l: RegLayout): (r: seq<Value>)
    requires base + OperandStart(l) + results <= |regs|
    ensures |r| == |regs|
  {
    var from := base + OperandStart(l);
    regs[..base] + regs[from..from + results] + regs[base + results..]
  }

  lemma ExitIsPatched(regs: seq<Value>, results: nat, base: nat, l: RegLayout)
    requires base + OperandStart(l) + results <= |regs|
    ensures var from := base + OperandStart(l);
      Patched(regs, base, regs[from..from + results], results) == ExitRegs(regs, results, base, l)
  {
    var from := base + OperandStart(l);
    assert regs[from..from + results][..results] == regs[from..from + results];
  }

  predicate RegIntact(l: RegLayout, b: nat, regs: seq<Value>) {
    && b + Width(l) <= |regs|
    && b + l.localsCount + |l.consts| <= |regs|
    && regs[b + l.localsCount..b + l.localsCount + |l.consts|] == UntagAll(l.consts)
  }

  lemma EnterRegsShape(regs: seq<Value>, params: nat, locals: seq<ValType>, base: nat, l: RegLayout)
    requires params <= |locals| == l.localsCount <= l.registers && base + params <= |regs|
    ensures var r := EnterRegs(regs, params, locals, base, l);
      && r[..base + params] == regs[..base + params]
      && r[base + params..base + |locals|] == Zeros(locals[params..])
      && RegIntact(l, base, r)
  {
    var zeros, pool := Zeros(locals[params..]), UntagAll(l.consts);
    var g := Grown(regs, base + Width(l));
    var zeroed := Overwrite(g, base + params, zeros);
    OverwriteShape(g, base + params, zeros);
    OverwriteShape(zeroed, base + |locals|, pool);
    var r := Overwrite(zeroed, base + |locals|, pool);
    SliceOfPrefix(r, base + |locals|, 0, base + params);
    SliceOfPrefix(zeroed, base + |locals|, 0, base + params);
    SliceOfPrefix(r, base + |locals|, base + params, base + |locals|);
    SliceOfPrefix(zeroed, base + |locals|, base + params, base + |locals|);
    assert g[..base + params] == regs[..base + params];
  }

  lemma ExitRegsShape(regs: seq<Value>, results: nat, base: nat, l: RegLayout)
    requires base + OperandStart(l) + results <= |regs|
    ensures var r, from := ExitRegs(regs, results, base, l), base + OperandStart(l);
      r[..base] == regs[..base] && r[base..base + results] == regs[from..from + results]
  {
  }

  lemma OverwriteShape(regs: seq<Value>, at: nat, ws: seq<Value>)
    requires at + |ws| <= |regs|
    ensures var r := Overwrite(regs, at, ws);
      && |r| == |regs|
      && r[..at] == regs[..at] && r[at..at + |ws|] == ws && r[at + |ws|..] == regs[at + |ws|..]
  {
  }

  lemma IntactBelow(l: RegLayout, b: nat, base: nat, regs: seq<Value>, regs': seq<Value>)
    requires RegIntact(l, b, regs) && b + OperandStart(l) <= base <= |regs| <= |regs'|
    requires regs'[..base] == regs[..base]
    ensures regs'[..b + OperandStart(l)] == regs[..b + OperandStart(l)] && RegIntact(l, b, regs')
  {
    var limit := b + OperandStart(l);
    var lo, hi := b + l.localsCount, b + l.localsCount + |l.consts|;
    SliceOfPrefix(regs', base, 0, limit);
    SliceOfPrefix(regs, base, 0, limit);
    SliceOfPrefix(regs', base, lo, hi);
    SliceOfPrefix(regs, base, lo, hi);
  }
}
