/**
 Linear memory (`tracewasm-core/src/memory/linear.rs` and the provided methods of
 `tracewasm-core/src/memory/mod.rs`) on a host with a 64-bit `usize`.
 */
module LinearMemory {
  import opened Values

  type Byte = b: nat | b < 0x100
  type Usize = n: nat | n < POW2_64
  type Pages = n: nat | n < POW2_32

  /** One wasm page. */
  const PAGE_SIZE: nat := 0x1_0000
  /** The longest run `fill` writes at once. */
  const CHUNK_LEN: nat := 4096

  datatype AccessKind = Reading | Writing

  datatype MemoryError =
    | OutOfBoundsAccess(kind: AccessKind, offset: nat, size: nat)
    | GrowFailed(max: nat, delta: nat, was: nat)

  datatype Result<+T> = Ok(value: T) | Err(error: MemoryError)

  // ------------------------------------------------------------------ the meaning of an access

  /** An access is granted when its end does not overflow and lies within the memory. */
  predicate InBounds(size: nat, offset: nat, len: nat) {
    offset + len < POW2_64 && offset + len <= size
  }

  function Splice(mem: seq<Byte>, at: nat, data: seq<Byte>): (r: seq<Byte>)
    requires at + |data| <= |mem|
    ensures |r| == |mem|
  {
    mem[..at] + data + mem[at + |data|..]
  }

  function WriteTo(mem: seq<Byte>, offset: nat, data: seq<Byte>): (Result<()>, seq<Byte>) {
    if InBounds(|mem|, offset, |data|) then (Ok(()), Splice(mem, offset, data))
    else (Err(OutOfBoundsAccess(Writing, offset, |mem|)), mem)
  }

  function ReadFrom(mem: seq<Byte>, offset: nat, len: nat): Result<seq<Byte>> {
    if InBounds(|mem|, offset, len) then Ok(mem[offset..offset + len])
    else Err(OutOfBoundsAccess(Reading, offset, |mem|))
  }

  function Repeat(b: Byte, n: nat): (r: seq<Byte>)
    ensures |r| == n && forall i :: 0 <= i < n ==> r[i] == b
  {
    seq(n, _ => b)
  }

  function FillTo(mem: seq<Byte>, dest: nat, val: nat, len: nat): (Result<()>, seq<Byte>) {
    WriteTo(mem, dest, Repeat(val % 0x100, len))
  }

  function CopyTo(mem: seq<Byte>, dest: nat, src: nat, len: nat): (Result<()>, seq<Byte>) {
    if !InBounds(|mem|, src, len) then (Err(OutOfBoundsAccess(Reading, src, |mem|)), mem)
    else if !InBounds(|mem|, dest, len) then (Err(OutOfBoundsAccess(Writing, dest, |mem|)), mem)
    else (Ok(()), Splice(mem, dest, mem[src..src + len]))
  }

  /** `size_in_pages`, which divides before it narrows. */
  function PagesOf(size: nat): nat {
    (size / PAGE_SIZE) % POW2_32
  }

  function GrowTo(mem: seq<Byte>, delta: Pages, max: Pages): (Result<nat>, seq<Byte>) {
    var was := PagesOf(|mem|);
    if POW2_32 <= was + delta || max < was + delta then (Err(GrowFailed(max, delta, was)), mem)
    else
      var size := (was + delta) * PAGE_SIZE;
      (Ok(was), if size <= |mem| then mem[..size] else mem + Repeat(0, size - |mem|))
  }

  // ------------------------------------------------------------------ the memory itself

  class LinearMemory {
    var inner: seq<Byte>

    /** `LinearMemory::new`: zeroed pages. */
    constructor (pages: Pages)
      ensures inner == Repeat(0, pages * PAGE_SIZE)
    {
      inner := seq(pages * PAGE_SIZE, _ => 0);
    }

    method Grow(delta: Pages, max: Pages) returns (r: Result<nat>)
      modifies this
      ensures (r, inner) == GrowTo(old(inner), delta, max)
    {
      var oldSize := PagesOf(|inner|);
      if POW2_32 <= delta + oldSize {
        return Err(GrowFailed(max, delta, oldSize));
      }
      var newSize := delta + oldSize;
      if newSize > max {
        return Err(GrowFailed(max, delta, oldSize));
      }
      var size := newSize * PAGE_SIZE;
      inner := if size <= |inner| then inner[..size] else inner + seq(size - |inner|, _ => 0);
      r := Ok(oldSize);
    }

    /** Both ranges are validated before anything moves; the move itself is a memmove. */
    method CopyWithin(dest: Usize, src: Usize, len: Usize) returns (r: Result<()>)
      modifies this
      ensures (r, inner) == CopyTo(old(inner), dest, src, len)
    {
      if POW2_64 <= src + len || |inner| < src + len {
        return Err(OutOfBoundsAccess(Reading, src, |inner|));
      }
      if POW2_64 <= dest + len || |inner| < dest + len {
        return Err(OutOfBoundsAccess(Writing, dest, |inner|));
      }
      inner := inner[..dest] + inner[src..src + len] + inner[dest + len..];
      r := Ok(());
    }

    method Read(offset: Usize, len: Usize) returns (r: Result<seq<Byte>>)
      ensures r == ReadFrom(inner, offset, len)
    {
      if POW2_64 <= offset + len || |inner| < offset + len {
        return Err(OutOfBoundsAccess(Reading, offset, |inner|));
      }
      r := Ok(inner[offset..offset + len]);
    }

    method Write(offset: Usize, data: seq<Byte>) returns (r: Result<()>)
      modifies this
      ensures (r, inner) == WriteTo(old(inner), offset, data)
    {
      if POW2_64 <= offset + |data| || |inner| < offset + |data| {
        return Err(OutOfBoundsAccess(Writing, offset, |inner|));
      }
      inner := inner[..offset] + data + inner[offset + |data|..];
      r := Ok(());
    }

    /** `fill`: bounds first, then chunk by chunk through `write`. */
    method Fill(dest: Usize, val: Pages, len: Usize) returns (r: Result<()>)
      modifies this
      ensures (r, inner) == FillTo(old(inner), dest, val, len)
    {
      FillIsGuarded(inner, dest, val, len);
      if POW2_64 <= dest + len || dest + len > |inner| {
        return Err(OutOfBoundsAccess(Writing, dest, |inner|));
      }
      hide *;
      var b: Byte := val % 0x100;
      var chunk := Repeat(b, CHUNK_LEN);
      var written: nat := 0;
      ghost var before := inner;
      FilledNone(before, dest, b);
      while written < len
        invariant written <= len
        invariant inner == Filled(before, dest, b, written)
      {
        var n := if len - written < CHUNK_LEN then len - written else CHUNK_LEN;
        FillOneChunk(before, dest, b, written, n);
        var step := Write(dest + written, chunk[..n]);
        if step.Err? {
          return step;
        }
        written := written + n;
      }
      r := Ok(());
    }

    // The reads below decode in place; each carries its own bound.

    method ReadU8(offset: Usize) returns (r: Result<nat>)
      ensures r == SizedRead(inner, offset, 1)
    {
      if POW2_64 <= offset + 1 || |inner| < offset + 1 {
        return Err(OutOfBoundsAccess(Reading, offset, |inner|));
      }
      r := Ok(FromLittleEndian(inner[offset..offset + 1]));
    }

    method ReadU16(offset: Usize) returns (r: Result<nat>)
      ensures r == SizedRead(inner, offset, 2)
    {
      if POW2_64 <= offset + 2 || |inner| < offset + 2 {
        return Err(OutOfBoundsAccess(Reading, offset, |inner|));
      }
      r := Ok(FromLittleEndian(inner[offset..offset + 2]));
    }

    method ReadU32(offset: Usize) returns (r: Result<nat>)
      ensures r == SizedRead(inner, offset, 4)
    {
      if POW2_64 <= offset + 4 || |inner| < offset + 4 {
        return Err(OutOfBoundsAccess(Reading, offset, |inner|));
      }
      r := Ok(FromLittleEndian(inner[offset..offset + 4]));
    }

    method ReadU64(offset: Usize) returns (r: Result<nat>)
      ensures r == SizedRead(inner, offset, 8)
    {
      if POW2_64 <= offset + 8 || |inner| < offset + 8 {
        return Err(OutOfBoundsAccess(Reading, offset, |inner|));
      }
      r := Ok(FromLittleEndian(inner[offset..offset + 8]));
    }

    /** A float is its bit pattern. */
    method ReadF32(offset: Usize) returns (r: Result<nat>)
      ensures r == SizedRead(inner, offset, 4)
    {
      if POW2_64 <= offset + 4 || |inner| < offset + 4 {
        return Err(OutOfBoundsAccess(Reading, offset, |inner|));
      }
      r := Ok(FromLittleEndian(inner[offset..offset + 4]));
    }

    method ReadF64(offset: Usize) returns (r: Result<nat>)
      ensures r == SizedRead(inner, offset, 8)
    {
      if POW2_64 <= offset + 8 || |inner| < offset + 8 {
        return Err(OutOfBoundsAccess(Reading, offset, |inner|));
      }
      r := Ok(FromLittleEndian(inner[offset..offset + 8]));
    }

    /** The provided method every specialised read overrides: through a buffer and `read`. */
    method DefaultSizedRead(offset: Usize, width: nat) returns (r: Result<nat>)
      requires width == 1 || width == 2 || width == 4 || width == 8
      ensures r == SizedRead(inner, offset, width)
    {
      var buf := Read(offset, width);
      match buf
      case Err(e) => r := Err(e);
      case Ok(bytes) => r := Ok(FromLittleEndian(bytes));
    }

    /** The provided sized writes: through a buffer and `write`. */
    method SizedWrite(offset: Usize, x: nat, width: nat) returns (r: Result<()>)
      requires width == 1 || width == 2 || width == 4 || width == 8
      modifies this
      ensures (r, inner) == WriteTo(old(inner), offset, ToLittleEndian(x, width))
    {
      r := Write(offset, ToLittleEndian(x, width));
    }
  }

  lemma FillIsGuarded(mem: seq<Byte>, dest: nat, val: nat, len: nat)
    ensures FillTo(mem, dest, val, len) ==
      if POW2_64 <= dest + len || |mem| < dest + len then (Err(OutOfBoundsAccess(Writing, dest, |mem|)), mem)
      else (Ok(()), Filled(mem, dest, val % 0x100, len))
  {
  }

  /** The memory with `n` copies of `b` from `at` on. */
  ghost function Filled(mem: seq<Byte>, at: nat, b: Byte, n: nat): (r: seq<Byte>)
    requires at + n <= |mem|
    ensures |r| == |mem|
  {
    Splice(mem, at, Repeat(b, n))
  }

  lemma FilledNone(mem: seq<Byte>, at: nat, b: Byte)
    requires at <= |mem|
    ensures Filled(mem, at, b, 0) == mem
  {
    SpliceNothing(mem, at, Repeat(b, 0));
  }

  /** The next `n` bytes, cut off the chunk that the loop keeps at hand. */
  lemma FillOneChunk(mem: seq<Byte>, dest: nat, b: Byte, written: nat, n: nat)
    requires dest + written + n <= |mem| && dest + written + n < POW2_64 && n <= CHUNK_LEN
    ensures WriteTo(Filled(mem, dest, b, written), dest + written, Repeat(b, CHUNK_LEN)[..n])
         == (Ok(()), Filled(mem, dest, b, written + n))
  {
    var chunk := Repeat(b, CHUNK_LEN)[..n];
    assert Repeat(b, written) + chunk == Repeat(b, written + n);
    var once := Splice(mem, dest, Repeat(b, written));
    assert once[..dest + written] == mem[..dest] + Repeat(b, written);
    assert once[dest + written + n..] == mem[dest + written + n..];
    assert Splice(once, dest + written, chunk) == Splice(mem, dest, Repeat(b, written + n));
  }

  // ------------------------------------------------------------------ little-endian numbers

  function Pow256(n: nat): nat {
    if n == 0 then 1 else 0x100 * Pow256(n - 1)
  }

  function FromLittleEndian(bytes: seq<Byte>): nat {
    if bytes == [] then 0 else bytes[0] + 0x100 * FromLittleEndian(bytes[1..])
  }

  function ToLittleEndian(x: nat, n: nat): (bytes: seq<Byte>)
    ensures |bytes| == n
  {
    if n == 0 then [] else [x % 0x100] + ToLittleEndian(x / 0x100, n - 1)
  }

  function SizedRead(mem: seq<Byte>, offset: nat, width: nat): Result<nat> {
    match ReadFrom(mem, offset, width)
    case Ok(bytes) => Ok(FromLittleEndian(bytes))
    case Err(e) => Err(e)
  }

  /** Every number that fits a width survives being stored and loaded at it. */
  lemma {:induction false} LittleEndianRoundTrip(x: nat, n: nat)
    requires x < Pow256(n)
    ensures FromLittleEndian(ToLittleEndian(x, n)) == x
  {
    if n != 0 {
      LittleEndianRoundTrip(x / 0x100, n - 1);
      assert ToLittleEndian(x, n)[1..] == ToLittleEndian(x / 0x100, n - 1);
    }
  }

  /** Every byte pattern is the pattern of the number it reads as. */
  lemma {:induction false} BytesRoundTrip(bytes: seq<Byte>)
    ensures FromLittleEndian(bytes) < Pow256(|bytes|)
    ensures ToLittleEndian(FromLittleEndian(bytes), |bytes|) == bytes
  {
    if bytes != [] {
      BytesRoundTrip(bytes[1..]);
      assert bytes == [bytes[0]] + bytes[1..];
    }
  }

  /**
   A granted sized write is read back as the number written, and an access that does not
   overlap it, of any width, reads what it read before.
   */
  lemma WriteThenRead(mem: seq<Byte>, offset: nat, x: nat, width: nat, other: nat, otherWidth: nat)
    requires x < Pow256(width) && InBounds(|mem|, offset, width)
    ensures var mem' := WriteTo(mem, offset, ToLittleEndian(x, width)).1;
      && SizedRead(mem', offset, width) == Ok(x)
      && (other + otherWidth <= offset || offset + width <= other ==>
        SizedRead(mem', other, otherWidth) == SizedRead(mem, other, otherWidth))
  {
    hide Splice, FromLittleEndian, ToLittleEndian;
    var data := ToLittleEndian(x, width);
    LittleEndianRoundTrip(x, width);
    SpliceInside(mem, offset, data);
    if InBounds(|mem|, other, otherWidth) && (other + otherWidth <= offset || offset + width <= other) {
      SpliceOutside(mem, offset, data, other, other + otherWidth);
    }
  }

  lemma SpliceInside(mem: seq<Byte>, at: nat, data: seq<Byte>)
    requires at + |data| <= |mem|
    ensures Splice(mem, at, data)[at..at + |data|] == data
  {
  }

  lemma SpliceOutside(mem: seq<Byte>, at: nat, data: seq<Byte>, lo: nat, hi: nat)
    requires at + |data| <= |mem| && lo <= hi <= |mem| && (hi <= at || at + |data| <= lo)
    ensures Splice(mem, at, data)[lo..hi] == mem[lo..hi]
  {
    var mem' := Splice(mem, at, data);
    if hi <= at {
      SliceOfPrefix(mem, at, lo, hi);
      SliceOfPrefix(mem', at, lo, hi);
      assert mem'[..at] == mem[..at];
    } else {
      assert forall i :: lo <= i < hi ==> mem'[i] == mem[i];
    }
  }

  lemma SpliceNothing(mem: seq<Byte>, at: nat, data: seq<Byte>)
    requires at <= |mem| && data == []
    ensures Splice(mem, at, data) == mem
  {
  }

  lemma SpliceAt(mem: seq<Byte>, at: nat, data: seq<Byte>, i: nat)
    requires at + |data| <= |mem| && i < |mem|
    ensures Splice(mem, at, data)[i] == if at <= i < at + |data| then data[i - at] else mem[i]
  {
  }

  // ------------------------------------------------------------------ any history

  datatype Op =
    | OpWrite(offset: Usize, data: seq<Byte>)
    | OpFill(dest: Usize, val: Pages, len: Usize)
    | OpCopy(to: Usize, src: Usize, count: Usize)
    | OpGrow(delta: Pages, max: Pages)

  function Apply(mem: seq<Byte>, op: Op): seq<Byte> {
    match op
    case OpWrite(offset, data) => WriteTo(mem, offset, data).1
    case OpFill(dest, val, len) => FillTo(mem, dest, val, len).1
    case OpCopy(dest, src, len) => CopyTo(mem, dest, src, len).1
    case OpGrow(delta, max) => GrowTo(mem, delta, max).1
  }

  function RunAll(mem: seq<Byte>, ops: seq<Op>): seq<Byte> {
    if ops == [] then mem else Apply(RunAll(mem, ops[..|ops| - 1]), ops[|ops| - 1])
  }

  /** The page count, from the initial pages and the granted requests alone. */
  function PagesAfter(initial: nat, ops: seq<Op>): nat {
    if ops == [] then initial
    else
      var before := PagesAfter(initial, ops[..|ops| - 1]);
      match ops[|ops| - 1]
      case OpGrow(delta, max) => if before + delta <= max then before + delta else before
      case _ => before
  }

  /**
   The byte at address `i`, read off the history: what the last granted operation that
   covered `i` put there, following copies to their source, or zero.
   */
  function ByteAt(initial: nat, ops: seq<Op>, i: nat): Byte {
    if ops == [] then 0
    else
      var before := ops[..|ops| - 1];
      var size := PagesAfter(initial, before) * PAGE_SIZE;
      match ops[|ops| - 1]
      case OpWrite(offset, data) =>
        if InBounds(size, offset, |data|) && offset <= i < offset + |data| then data[i - offset]
        else ByteAt(initial, before, i)
      case OpFill(dest, val, len) =>
        if InBounds(size, dest, len) && dest <= i < dest + len then val % 0x100
        else ByteAt(initial, before, i)
      case OpCopy(dest, src, len) =>
        if InBounds(size, src, len) && InBounds(size, dest, len) && dest <= i < dest + len
        then ByteAt(initial, before, src + (i - dest))
        else ByteAt(initial, before, i)
      case OpGrow(_, _) => ByteAt(initial, before, i)
  }

  /** No byte at or past the end of the memory has been stored. */
  lemma {:induction false} BeyondIsZero(initial: nat, ops: seq<Op>, i: nat)
    requires PagesAfter(initial, ops) * PAGE_SIZE <= i
    ensures ByteAt(initial, ops, i) == 0
    decreases |ops|
  {
    if ops != [] {
      var before := ops[..|ops| - 1];
      assert PagesAfter(initial, before) <= PagesAfter(initial, ops);
      BeyondIsZero(initial, before, i);
    }
  }

  lemma {:induction false} PagesInRange(initial: Pages, ops: seq<Op>)
    ensures initial <= PagesAfter(initial, ops) < POW2_32
    decreases |ops|
  {
    if ops != [] {
      PagesInRange(initial, ops[..|ops| - 1]);
    }
  }

  /**
   Linear memory is a byte map: after any history its length is its page count, and each byte
   is the last one stored at its address, or zero.
   */
  lemma {:induction false} MemoryIsByteMap(initial: Pages, ops: seq<Op>)
    ensures var mem := RunAll(Repeat(0, initial * PAGE_SIZE), ops);
      && |mem| == PagesAfter(initial, ops) * PAGE_SIZE
      && forall i :: 0 <= i < |mem| ==> mem[i] == ByteAt(initial, ops, i)
    decreases |ops|
  {
    hide GrowTo, Splice, InBounds;
    if ops != [] {
      var before := ops[..|ops| - 1];
      MemoryIsByteMap(initial, before);
      PagesInRange(initial, before);
      var mem := RunAll(Repeat(0, initial * PAGE_SIZE), before);
      var pages := PagesAfter(initial, before);
      assert PagesOf(pages * PAGE_SIZE) == pages;
      var op := ops[|ops| - 1];
      if op.OpGrow? {
        GrowIsByteMap(initial, before, mem, op.delta, op.max);
      } else {
        StoreIsByteMap(initial, before, mem, op);
      }
    }
  }

  lemma GrowIsByteMap(initial: Pages, before: seq<Op>, mem: seq<Byte>, delta: Pages, max: Pages)
    requires var pages := PagesAfter(initial, before);
      |mem| == pages * PAGE_SIZE && PagesOf(|mem|) == pages < POW2_32
    requires forall i :: 0 <= i < |mem| ==> mem[i] == ByteAt(initial, before, i)
    ensures var ops := before + [OpGrow(delta, max)];
      var mem' := GrowTo(mem, delta, max).1;
      && |mem'| == PagesAfter(initial, ops) * PAGE_SIZE
      && forall i :: 0 <= i < |mem'| ==> mem'[i] == ByteAt(initial, ops, i)
  {
    var ops := before + [OpGrow(delta, max)];
    var mem' := GrowTo(mem, delta, max).1;
    assert ops[..|ops| - 1] == before;
    forall i | 0 <= i < |mem'| ensures mem'[i] == ByteAt(initial, ops, i) {
      if |mem| <= i {
        BeyondIsZero(initial, before, i);
      }
    }
  }

  lemma StoreIsByteMap(initial: Pages, before: seq<Op>, mem: seq<Byte>, op: Op)
    requires !op.OpGrow? && |mem| == PagesAfter(initial, before) * PAGE_SIZE
    requires forall i :: 0 <= i < |mem| ==> mem[i] == ByteAt(initial, before, i)
    ensures var mem' := Apply(mem, op);
      && |mem'| == PagesAfter(initial, before + [op]) * PAGE_SIZE
      && forall i :: 0 <= i < |mem'| ==> mem'[i] == ByteAt(initial, before + [op], i)
  {
    var ops := before + [op];
    assert ops[..|ops| - 1] == before && ops[|ops| - 1] == op;
    forall i | 0 <= i < |Apply(mem, op)| ensures Apply(mem, op)[i] == ByteAt(initial, ops, i) {
      StoreOneByte(initial, before, mem, op, i);
    }
  }

  lemma StoreOneByte(initial: Pages, before: seq<Op>, mem: seq<Byte>, op: Op, i: nat)
    requires !op.OpGrow? && |mem| == PagesAfter(initial, before) * PAGE_SIZE && i < |mem|
    requires forall j :: 0 <= j < |mem| ==> mem[j] == ByteAt(initial, before, j)
    ensures |Apply(mem, op)| == |mem| && Apply(mem, op)[i] == ByteAt(initial, before + [op], i)
  {
    hide Splice, PagesAfter;
    var ops := before + [op];
    assert ops[..|ops| - 1] == before && ops[|ops| - 1] == op;
    match op
    case OpWrite(offset, data) =>
      if InBounds(|mem|, offset, |data|) {
        SpliceAt(mem, offset, data, i);
      }
    case OpFill(dest, val, len) =>
      if InBounds(|mem|, dest, len) {
        SpliceAt(mem, dest, Repeat(val % 0x100, len), i);
      }
    case OpCopy(dest, src, len) =>
      if InBounds(|mem|, src, len) && InBounds(|mem|, dest, len) {
        SpliceAt(mem, dest, mem[src..src + len], i);
      }
    case _ =>
  }

  /** Under one cap, the page count never shrinks and never passes the cap (or the initial size). */
  lemma {:induction false} PagesStayUnderCap(initial: Pages, ops: seq<Op>, cap: nat, k: nat)
    requires forall i :: 0 <= i < |ops| && ops[i].OpGrow? ==> ops[i].max == cap
    requires k <= |ops|
    ensures PagesAfter(initial, ops[..k]) <= PagesAfter(initial, ops) <= if initial < cap then cap else initial
    decreases |ops|
  {
    if k < |ops| {
      var before := ops[..|ops| - 1];
      assert ops[..k] == before[..k];
      PagesStayUnderCap(initial, before, cap, k);
    } else {
      assert ops[..k] == ops;
      if ops != [] {
        PagesStayUnderCap(initial, ops[..|ops| - 1], cap, 0);
      }
    }
  }

  /** A granted `grow` answers with the size before it; a refused one leaves the memory alone. */
  lemma GrowAnswers(initial: Pages, ops: seq<Op>, delta: Pages, max: Pages)
    ensures var mem := RunAll(Repeat(0, initial * PAGE_SIZE), ops);
      var pages := PagesAfter(initial, ops);
      var (r, mem') := GrowTo(mem, delta, max);
      && (r == Ok(pages) <==> pages + delta <= max)
      && (r.Err? <==> max < pages + delta)
      && (r.Err? ==> mem' == mem && r.error == GrowFailed(max, delta, pages))
      && (r.Ok? ==> |mem'| == (pages + delta) * PAGE_SIZE && mem <= mem')
  {
    MemoryIsByteMap(initial, ops);
    PagesInRange(initial, ops);
    var pages := PagesAfter(initial, ops);
    assert PagesOf(pages * PAGE_SIZE) == pages;
  }
}
