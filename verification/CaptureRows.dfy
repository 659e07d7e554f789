/**
The rows a capture callback appends - contexts, blocks, register samples and
memory accesses - as bytes, and what each of them does to its source in the
validator.
*/
module CaptureRows {
  import opened Words
  import opened Wire
  import opened Validator
  import opened RowBatches
  import opened MixedTables
  import opened Contexts
  import opened RowAcceptance

  function ContextRow(pc: u64, c: Context, known: nat): Item {
    Item(AddressContext, Bytes(pc, 8) + Bytes(c.cr0, 8) + Bytes(c.cr3, 8) + Bytes(c.cr4, 8) + Bytes(c.efer, 8) +
                         Bytes(c.csBase, 8) + Bytes(c.mode, 8) + Bytes(known, 8))
  }

  function BlockRow(pc: u64): Item {
    Item(Blocks, Bytes(pc, 8))
  }

  /** A register sample: its checkpoint and, on its first row only, the baseline flag. */
  function RegisterRow(pc: u64, id: nat, checkpoint: nat, baseline: bool, value: seq<byte>): Item {
    Item(Registers,
         Bytes(pc, 8) + Bytes(id, 4) + Bytes(|value|, 2) + Bytes(checkpoint + if baseline then 256 else 0, 2) + value)
  }

  /** A memory access as the emulator reports it; `mapping` 0 means no physical prefix is known. */
  datatype Access = Access(pc: u64, address: u64, size: nat, flags: nat, physical: u64, mapping: nat, value: seq<byte>)

  /** The physically contiguous prefix: up to the end of the page. */
  function MappedSize(a: Access): nat {
    if a.mapping == 0 then 0 else Min(a.size, 4096 - a.address % 4096)
  }

  function PhysicalAddress(a: Access): u64 {
    if a.mapping == 0 then 0 else a.physical
  }

  function Padding(value: seq<byte>): (b: seq<byte>)
    ensures |value| <= 16 ==> |value + b| == 16
    ensures forall i :: 0 <= i < |b| ==> b[i] == 0
  {
    if |value| <= 16 then seq(16 - |value|, _ => 0) else []
  }

  function MemoryRow(f: Features, a: Access, contextSequence: nat): Item {
    Item(Memory,
         Bytes(a.pc, 8) + Bytes(a.address, 8) + Bytes(a.size, 4) + Bytes(a.flags, 4) +
         (if f.systemMemory
          then Bytes(PhysicalAddress(a), 8) + Bytes(MappedSize(a), 4) + Bytes(a.mapping, 4) + Bytes(contextSequence, 8)
          else []) +
         (if f.memoryValues then a.value + Padding(a.value) else []))
  }

  /** What the emulator reports: power-of-two sizes, known flags, values of the access's own size. */
  predicate Reported(f: Features, a: Access) {
    && PowerOfTwo(a.size) && a.size <= MAX32 && a.flags <= 3
    && (f.memoryValues ==> a.size <= 16 && |a.value| == a.size)
    && (a.mapping == 0 || a.mapping == 1 || a.mapping == 3 || a.mapping == 7)
    && (a.mapping != 0 ==> a.physical + MappedSize(a) - 1 <= MAX64)
  }

  // ---------------------------------------------------------------- contexts and blocks

  lemma ContextRowFields(pc: u64, c: Context, known: nat)
    requires known <= MAX64
    ensures var d := ContextRow(pc, c, known).data;
      |d| == CONTEXT_BYTES && U64(d, 40) == c.csBase && U64(d, 48) == c.mode && U64(d, 56) == known
  {
    hide Load, Bytes;
    Pow256Words();
    var d := ContextRow(pc, c, known).data;
    assert d[40..48] == Bytes(c.csBase, 8);
    assert d[48..56] == Bytes(c.mode, 8);
    assert d[56..64] == d[56..] == Bytes(known, 8);
    LoadStored(d, 40, 8, c.csBase);
    LoadStored(d, 48, 8, c.mode);
    LoadStored(d, 56, 8, known);
  }

  /** A context row sets the source's context to itself. */
  lemma ContextFollows(f: Features, index: nat, source: Source, pc: u64, c: Context, known: nat)
    requires f.addressContext && ValidMode(known, c) && known <= MAX64 && !f.observationReduction
    requires (f.stdio ==> index == 0) && !source.ended && source.next < MAX64
    ensures var x := ContextRow(pc, c, known);
      && RawRow(f, x)
      && SourceRow(f, index, source, x) == Some(source.(hasContext := true, contextSequence := source.next,
           seen := true, data := true, next := source.next + 1))
  {
    hide Load, Bytes, BaselineComplete;
    ContextRowFields(pc, c, known);
  }

  /** A block row needs a context where contexts are on, and complete baselines where registers are. */
  lemma BlockFollows(f: Features, index: nat, source: Source, pc: u64)
    requires !f.observationReduction && (f.stdio ==> index == 0) && !source.ended && source.next < MAX64
    requires f.addressContext ==> source.hasContext
    requires f.registers && !f.contextFilter ==> BaselineComplete(source.registers)
    ensures var x := BlockRow(pc);
      && RawRow(f, x)
      && SourceRow(f, index, source, x) == Some(source.(seen := true, data := true, next := source.next + 1))
  {
    hide Load, Bytes, BaselineComplete;
  }

  // ---------------------------------------------------------------- registers

  lemma RegisterRowFields(pc: u64, id: nat, checkpoint: nat, baseline: bool, value: seq<byte>)
    requires id <= MAX32 && |value| <= MAX16 && 1 <= checkpoint <= 3
    ensures var d := RegisterRow(pc, id, checkpoint, baseline, value).data;
      && |d| == 16 + |value| && U16(d, 12) == |value|
      && SampleAt(d, 0) == Some(Sample(id, |value|, checkpoint, baseline))
  {
    hide Load, Bytes;
    Pow256Words();
    var d := RegisterRow(pc, id, checkpoint, baseline, value).data;
    var flags := checkpoint + if baseline then 256 else 0;
    assert d[8..12] == Bytes(id, 4);
    assert d[12..14] == Bytes(|value|, 2);
    assert d[14..16] == Bytes(flags, 2);
    LoadStored(d, 8, 4, id);
    LoadStored(d, 12, 2, |value|);
    LoadStored(d, 14, 2, flags);
  }

  /** A register row is a baseline exactly on the register's first sample. */
  lemma RegisterFollows(f: Features, index: nat, source: Source, pc: u64, id: nat, checkpoint: nat, value: seq<byte>)
    requires f.registers && (f.stdio ==> index == 0) && !source.ended && source.next < MAX64 && 1 <= checkpoint <= 3
    requires (f.addressContext ==> source.hasContext) && source.registers.Some? && id in source.registers.value
    requires id < MAX_REGISTERS
    requires |value| == source.registers.value[id].width && 0 < |value| <= MAX_REGISTER_BYTES
    ensures var regs := source.registers.value;
      var x := RegisterRow(pc, id, checkpoint, !regs[id].sampled, value);
      && RawRow(f, x)
      && SourceRow(f, index, source, x) == Some(source.(registers := Some(regs[id := regs[id].(sampled := true)]),
           seen := true, data := true, next := source.next + 1))
  {
    hide RawRow, AfterRows, Barred, RegisterRow, SourceRow;
    var regs := source.registers.value;
    var x := RegisterRow(pc, id, checkpoint, !regs[id].sampled, value);
    RegisterRaw(f, pc, id, checkpoint, !regs[id].sampled, value);
    RegisterAfter(f, source, x, Sample(id, |value|, checkpoint, !regs[id].sampled));
    NotBarred(f, index, Registers, source);
    TakesRow(f, index, source, x, source.(registers := Some(regs[id := regs[id].(sampled := true)])));
  }

  lemma RegisterRaw(f: Features, pc: u64, id: nat, checkpoint: nat, baseline: bool, value: seq<byte>)
    requires id < MAX_REGISTERS && 0 < |value| <= MAX_REGISTER_BYTES && 1 <= checkpoint <= 3
    ensures var x := RegisterRow(pc, id, checkpoint, baseline, value);
      && RawRow(f, x) && x.kind == Registers
      && SampleAt(x.data, 0) == Some(Sample(id, |value|, checkpoint, baseline))
  {
    RegisterRowFields(pc, id, checkpoint, baseline, value);
    hide Load, Bytes, SampleAt;
  }

  lemma RegisterAfter(f: Features, source: Source, x: Item, sample: Sample)
    requires RawRow(f, x) && x.kind == Registers && SampleAt(x.data, 0) == Some(sample)
    requires f.registers && (f.addressContext ==> source.hasContext) && source.registers.Some?
    requires var regs := source.registers.value;
      sample.id in regs && sample.width == regs[sample.id].width && sample.baseline != regs[sample.id].sampled
    ensures var regs := source.registers.value;
      AfterRows(f, source, Registers, [x]) ==
        Some(source.(registers := Some(regs[sample.id := regs[sample.id].(sampled := true)])))
  {
    hide SampleAt, RawRow, Apply, ItemSamples;
    SamplesAppend([], x);
    ApplyOne(source.registers.value, sample);
  }

  lemma NotBarred(f: Features, index: nat, kind: Kind, source: Source)
    requires (f.stdio ==> index == 0) && !source.ended
    requires (f.observationReduction ==> kind == Registers || kind == Memory)
    requires f.registers && !f.contextFilter && (kind == Blocks || kind == Memory) ==>
      BaselineComplete(source.registers)
    ensures !Barred(f, index, kind, source)
  {
    hide BaselineComplete;
  }

  /** A row its source is not barred from takes effect. */
  lemma TakesRow(f: Features, index: nat, source: Source, x: Item, after: Source)
    requires RawRow(f, x) && x.kind != AddressContext && AfterRows(f, source, x.kind, [x]) == Some(after)
    requires !Barred(f, index, x.kind, source) && source.next < MAX64 && !after.ended && after.next == source.next
    ensures SourceRow(f, index, source, x) == Some(after.(seen := true, data := true, next := source.next + 1))
  {
    hide RawRow, AfterRows, Barred;
  }

  lemma ApplyOne(regs: RegisterFile, sample: Sample)
    requires sample.id in regs && sample.width == regs[sample.id].width && sample.baseline != regs[sample.id].sampled
    ensures Apply(regs, [sample]) == Some(regs[sample.id := regs[sample.id].(sampled := true)])
  {
    assert [sample][1..] == [];
  }

  // ---------------------------------------------------------------- memory accesses

  function AccessHead(a: Access): (b: seq<byte>)
    ensures |b| == 24
  {
    Bytes(a.pc, 8) + Bytes(a.address, 8) + Bytes(a.size, 4) + Bytes(a.flags, 4)
  }

  function AccessMapping(a: Access, contextSequence: nat): (b: seq<byte>)
    ensures |b| == 24
  {
    Bytes(PhysicalAddress(a), 8) + Bytes(MappedSize(a), 4) + Bytes(a.mapping, 4) + Bytes(contextSequence, 8)
  }

  lemma HeadFields(a: Access, rest: seq<byte>)
    requires a.size <= MAX32 && a.flags <= MAX32
    ensures var d := AccessHead(a) + rest; U64(d, 8) == a.address && U32(d, 16) == a.size && U32(d, 20) == a.flags
  {
    hide Load, Bytes;
    Pow256Words();
    var d := AccessHead(a) + rest;
    assert d[8..16] == AccessHead(a)[8..16] == Bytes(a.address, 8);
    assert d[16..20] == AccessHead(a)[16..20] == Bytes(a.size, 4);
    assert d[20..24] == AccessHead(a)[20..] == Bytes(a.flags, 4);
    LoadStored(d, 8, 8, a.address);
    LoadStored(d, 16, 4, a.size);
    LoadStored(d, 20, 4, a.flags);
  }

  lemma MappingFields(a: Access, sequence: nat, rest: seq<byte>)
    requires a.size <= MAX32 && a.mapping <= MAX32 && sequence <= MAX64
    ensures var d := AccessHead(a) + AccessMapping(a, sequence) + rest;
      U64(d, 24) == PhysicalAddress(a) && U32(d, 32) == MappedSize(a) && U32(d, 36) == a.mapping &&
        U64(d, 40) == sequence
  {
    hide Load, Bytes, AccessHead, PhysicalAddress;
    Pow256Words();
    var m := AccessMapping(a, sequence);
    var d := AccessHead(a) + m + rest;
    assert d[24..48] == m;
    assert m[..8] == Bytes(PhysicalAddress(a), 8) && m[8..12] == Bytes(MappedSize(a), 4);
    assert m[12..16] == Bytes(a.mapping, 4) && m[16..] == Bytes(sequence, 8);
    SubSlice(d, 24, 48, 0, 8);
    SubSlice(d, 24, 48, 8, 12);
    SubSlice(d, 24, 48, 12, 16);
    SubSlice(d, 24, 48, 16, 24);
    LoadStored(d, 24, 8, PhysicalAddress(a));
    LoadStored(d, 32, 4, MappedSize(a));
    LoadStored(d, 36, 4, a.mapping);
    LoadStored(d, 40, 8, sequence);
  }

  lemma RowParts(f: Features, a: Access, sequence: nat)
    requires Reported(f, a)
    ensures var d := MemoryRow(f, a, sequence).data;
      && |d| == MemoryStride(f)
      && (f.systemMemory ==>
            d == AccessHead(a) + AccessMapping(a, sequence) + if f.memoryValues then a.value + Padding(a.value) else [])
      && (!f.systemMemory ==> d == AccessHead(a) + if f.memoryValues then a.value + Padding(a.value) else [])
  {
    hide Bytes, Padding;
  }

  lemma ValuePadding(front: seq<byte>, value: seq<byte>)
    requires |value| <= 16
    ensures var d := front + (value + Padding(value));
      forall i :: |front| + |value| <= i < |front| + 16 ==> d[i] == 0
  {
  }

  lemma PowerBound(n: nat)
    requires PowerOfTwo(n)
    ensures n > 0
  {
  }

  /** The row of a reported access is valid for a source whose latest context it names. */
  lemma AccessValid(f: Features, source: Source, a: Access)
    requires Reported(f, a) && source.contextSequence <= MAX64 && (f.systemMemory ==> source.hasContext)
    ensures var d := MemoryRow(f, a, source.contextSequence).data;
      |d| == MemoryStride(f) && ValidAccess(d, 0, f, source)
  {
    hide Load, Bytes, PowerOfTwo, AccessHead, AccessMapping, Padding, MemoryRow, Reported, ValidMapping;
    var d, sequence := MemoryRow(f, a, source.contextSequence).data, source.contextSequence;
    RowParts(f, a, sequence);
    RowHead(f, a, sequence);
    RowPadding(f, a, sequence);
    if f.systemMemory { RowMapping(f, a, sequence, source); }
    SizeFlags(f, a);
  }

  lemma SizeFlags(f: Features, a: Access)
    requires Reported(f, a)
    ensures PowerOfTwo(a.size) && a.flags <= 3 && (f.memoryValues ==> a.size <= 16)
  {
  }

  lemma RowHead(f: Features, a: Access, sequence: nat)
    requires Reported(f, a)
    ensures var d := MemoryRow(f, a, sequence).data;
      |d| == MemoryStride(f) && U64(d, 8) == a.address && U32(d, 16) == a.size && U32(d, 20) == a.flags
  {
    RowParts(f, a, sequence);
    hide Load, Bytes, PowerOfTwo, AccessHead, AccessMapping, Padding, MemoryRow;
    var values, m := if f.memoryValues then a.value + Padding(a.value) else [], AccessMapping(a, sequence);
    if f.systemMemory {
      assert AccessHead(a) + m + values == AccessHead(a) + (m + values);
      HeadFields(a, m + values);
    } else {
      HeadFields(a, values);
    }
  }

  lemma RowPadding(f: Features, a: Access, sequence: nat)
    requires Reported(f, a)
    ensures var d := MemoryRow(f, a, sequence).data;
      && |d| == MemoryStride(f)
      && (f.memoryValues ==> forall i :: MemoryStride(f) - 16 + a.size <= i < MemoryStride(f) ==> d[i] == 0)
  {
    RowParts(f, a, sequence);
    hide Bytes, PowerOfTwo, AccessHead, AccessMapping, Padding, MemoryRow;
    if f.memoryValues {
      if f.systemMemory { ValuePadding(AccessHead(a) + AccessMapping(a, sequence), a.value); }
      else { ValuePadding(AccessHead(a), a.value); }
    }
  }

  lemma RowMapping(f: Features, a: Access, sequence: nat, source: Source)
    requires Reported(f, a) && f.systemMemory && source.hasContext && source.contextSequence == sequence <= MAX64
    ensures var d := MemoryRow(f, a, sequence).data;
      |d| == MemoryStride(f) && ValidMapping(d, 0, a.size, source)
  {
    RowParts(f, a, sequence);
    RowHead(f, a, sequence);
    PowerBound(a.size);
    hide Load, Bytes, PowerOfTwo, AccessHead, AccessMapping, Padding, MemoryRow;
    MappingFields(a, sequence, if f.memoryValues then a.value + Padding(a.value) else []);
  }

  /** A memory row names the source's latest context. */
  lemma MemoryFollows(f: Features, index: nat, source: Source, a: Access)
    requires Reported(f, a) && f.memory && (f.systemMemory ==> source.hasContext) && source.contextSequence <= MAX64
    requires (f.stdio ==> index == 0) && !source.ended && source.next < MAX64
    requires f.registers && !f.contextFilter ==> BaselineComplete(source.registers)
    ensures var x := MemoryRow(f, a, source.contextSequence);
      && RawRow(f, x)
      && SourceRow(f, index, source, x) == Some(source.(seen := true, data := true, next := source.next + 1))
  {
    hide RawRow, AfterRows, Barred, SourceRow, BaselineComplete, MemoryRow;
    var x := MemoryRow(f, a, source.contextSequence);
    AccessValid(f, source, a);
    MemoryRaw(f, a, source.contextSequence);
    MemoryAfter(f, source, x);
    NotBarred(f, index, Memory, source);
    TakesRow(f, index, source, x, source);
  }

  lemma MemoryRaw(f: Features, a: Access, sequence: nat)
    requires Reported(f, a)
    ensures RawRow(f, MemoryRow(f, a, sequence)) && MemoryRow(f, a, sequence).kind == Memory
  {
    RowParts(f, a, sequence);
    hide Bytes, Padding, Reported;
  }

  lemma MemoryAfter(f: Features, source: Source, x: Item)
    requires RawRow(f, x) && x.kind == Memory && f.memory && |x.data| == MemoryStride(f)
    requires ValidAccess(x.data, 0, f, source)
    ensures AfterRows(f, source, Memory, [x]) == Some(source)
  {
    hide ValidAccess, RawRow, MemoryStride;
    MemoryStrides(f, [x]);
  }
}
