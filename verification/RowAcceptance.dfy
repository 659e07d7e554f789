/**
Batching does not matter to the validator: a frame of buffered rows, legacy or
mixed, is accepted exactly when the same rows sent one per frame are, except that
two context rows may not be neighbours in one frame.
*/
module RowAcceptance {
  import opened Words
  import opened Wire
  import opened Validator
  import opened ValidatorRuns
  import opened RowBatches
  import opened MixedTables
  import opened BatchRuns
  import BoundaryRuns

  /** A row of the size its kind announces, small enough for a frame of its own. */
  predicate RawRow(f: Features, item: Item) {
    && RunKind(item.kind) && SelfSized(f, item)
    && (item.kind == Blocks || 17 <= |item.data|) && |item.data| + 8 <= MAX_PAYLOAD
  }

  predicate RawRows(f: Features, items: seq<Item>) {
    forall i :: 0 <= i < |items| ==> RawRow(f, items[i])
  }

  predicate OneKind(items: seq<Item>, kind: Kind) {
    forall i :: 0 <= i < |items| ==> items[i].kind == kind
  }

  /** No two context rows next to each other. */
  predicate NoTwins(items: seq<Item>) {
    forall i :: 0 < i < |items| ==> !TwinAt(items, i)
  }

  predicate TwinAt(items: seq<Item>, i: nat)
    requires 0 < i < |items|
  {
    items[i - 1].kind == AddressContext && items[i].kind == AddressContext
  }

  /** Rows of one kind in one frame. */
  function KindFrame(index: nat, first: nat, kind: Kind, items: seq<Item>): Frame {
    Frame(Header(kind, index, |items|, first, if kind == Blocks then 0 else |Joined(items)|, VERSION), Joined(items))
  }

  /** One row as a frame of its own. */
  function RowFrame(index: nat, sequence: nat, item: Item): Frame {
    Frame(Header(item.kind, index, 1, sequence, if item.kind == Blocks then 0 else |item.data|, VERSION), item.data)
  }

  /** The rows as frames of their own, numbered on from `first`. */
  function RowFrames(index: nat, first: nat, items: seq<Item>): (frames: seq<Frame>)
    ensures |frames| == |items|
    ensures forall i :: 0 <= i < |items| ==> frames[i] == RowFrame(index, first + i, items[i])
  {
    seq(|items|, i requires 0 <= i < |items| => RowFrame(index, first + i, items[i]))
  }

  // ---------------------------------------------------------------- sizes and headers

  lemma {:induction false} EqualSizes(items: seq<Item>, size: nat)
    requires forall i :: 0 <= i < |items| ==> |items[i].data| == size
    ensures |Joined(items)| == |items| * size
  {
    if items == [] {
    } else {
      var front, x := items[..|items| - 1], items[|items| - 1];
      EqualSizes(front, size);
      NextSize(|front|, size);
    }
  }

  lemma NextSize(n: nat, size: nat)
    ensures (n + 1) * size == n * size + size
  {
  }

  lemma {:induction false} LeastSizes(items: seq<Item>)
    requires forall i :: 0 <= i < |items| ==> |items[i].data| >= 17
    ensures |Joined(items)| >= 17 * |items|
  {
    if items == [] {
    } else {
      LeastSizes(items[..|items| - 1]);
    }
  }

  lemma RowSizes(f: Features, item: Item)
    requires RawRow(f, item)
    ensures item.kind == Blocks ==> |item.data| == 8
    ensures item.kind == AddressContext ==> |item.data| == CONTEXT_BYTES
    ensures item.kind == Memory ==> |item.data| == MemoryStride(f)
    ensures item.kind == Registers ==> |item.data| >= 17
  {
  }

  lemma JoinedSizes(f: Features, items: seq<Item>, kind: Kind)
    requires RawRows(f, items) && OneKind(items, kind)
    ensures kind == Blocks ==> |Joined(items)| == |items| * 8
    ensures kind == AddressContext ==> |Joined(items)| == |items| * CONTEXT_BYTES
    ensures kind == Memory ==> |Joined(items)| == |items| * MemoryStride(f)
    ensures kind == Registers ==> |Joined(items)| >= 17 * |items|
  {
    hide Joined, RawRow, MemoryStride;
    forall i | 0 <= i < |items|
      ensures kind == Blocks ==> |items[i].data| == 8
      ensures kind == AddressContext ==> |items[i].data| == CONTEXT_BYTES
      ensures kind == Memory ==> |items[i].data| == MemoryStride(f)
      ensures kind == Registers ==> |items[i].data| >= 17
    {
      RowSizes(f, items[i]);
    }
    if kind == Blocks { EqualSizes(items, 8); }
    else if kind == AddressContext { EqualSizes(items, CONTEXT_BYTES); }
    else if kind == Memory { EqualSizes(items, MemoryStride(f)); }
    else if kind == Registers { LeastSizes(items); }
  }

  /** A frame of rows of one kind is legal, except that a context frame holds a single row. */
  lemma KindFrameLegal(f: Features, index: nat, first: nat, kind: Kind, items: seq<Item>)
    requires RawRows(f, items) && OneKind(items, kind) && RunKind(kind)
    requires 0 < |items| <= MAX_ROWS && |Joined(items)| <= MAX_PAYLOAD && index < MAX_SOURCES && first <= MAX64
    ensures WellSized(KindFrame(index, first, kind, items))
    ensures LegalHeader(KindFrame(index, first, kind, items).header) <==> !(kind == AddressContext && |items| > 1)
  {
    JoinedSizes(f, items, kind);
    hide Joined;
  }

  lemma RowFrameLegal(f: Features, index: nat, sequence: nat, item: Item)
    requires RawRow(f, item) && index < MAX_SOURCES && sequence <= MAX64
    ensures WellSized(RowFrame(index, sequence, item)) && LegalHeader(RowFrame(index, sequence, item).header)
    ensures KindFrame(index, sequence, item.kind, [item]) == RowFrame(index, sequence, item)
  {
    OneJoined(item);
    hide Joined;
    KindFrameLegal(f, index, sequence, item.kind, [item]);
  }

  lemma OneJoined(item: Item)
    ensures Joined([item]) == item.data
  {
    assert [item][..0] == [];
  }

  lemma RowFramesSized(f: Features, index: nat, first: nat, items: seq<Item>)
    requires RawRows(f, items) && index < MAX_SOURCES
    ensures Sized(RowFrames(index, first, items))
  {
    hide SelfSized, Joined;
    forall i | 0 <= i < |items| ensures WellSized(RowFrame(index, first + i, items[i])) {
      assert RawRow(f, items[i]);
      RowSized(f, index, first + i, items[i]);
    }
  }

  lemma RowSized(f: Features, index: nat, sequence: nat, item: Item)
    requires RawRow(f, item)
    ensures WellSized(RowFrame(index, sequence, item))
  {
  }

  // ---------------------------------------------------------------- memory rows

  lemma AccessSlice(b: seq<byte>, at: nat, row: seq<byte>, f: Features, source: Source)
    requires |row| == MemoryStride(f) && at + |row| <= |b| && b[at..at + |row|] == row
    ensures ValidAccess(b, at, f, source) == ValidAccess(row, 0, f, source)
  {
    hide Load;
    SameWord(b, at, row, 16, 4);
    SameWord(b, at, row, 20, 4);
    SameWord(b, at, row, 8, 8);
    if f.systemMemory {
      SameWord(b, at, row, 24, 8);
      SameWord(b, at, row, 32, 4);
      SameWord(b, at, row, 36, 4);
      SameWord(b, at, row, 40, 8);
    }
    if f.memoryValues {
      var stride, width := MemoryStride(f), U32(row, 16);
      SamePadding(b, at, row, width, stride);
    }
  }

  lemma SamePadding(b: seq<byte>, at: nat, row: seq<byte>, width: nat, stride: nat)
    requires |row| == stride && 16 <= stride && at + stride <= |b| && b[at..at + stride] == row
    ensures (forall i :: at + stride - 16 + width <= i < at + stride ==> b[i] == 0) <==>
      (forall i :: stride - 16 + width <= i < stride ==> row[i] == 0)
  {
    forall i | 0 <= i < stride ensures row[i] == b[at + i] { assert b[at..at + stride][i] == b[at + i]; }
    if forall i :: at + stride - 16 + width <= i < at + stride ==> b[i] == 0 {
      forall i | stride - 16 + width <= i < stride ensures row[i] == 0 { assert b[at + i] == 0; }
    }
    if forall i :: stride - 16 + width <= i < stride ==> row[i] == 0 {
      forall i | at + stride - 16 + width <= i < at + stride ensures b[i] == 0 { assert row[i - at] == 0; }
    }
  }

  lemma SameWord(b: seq<byte>, at: nat, row: seq<byte>, offset: nat, size: nat)
    requires at + |row| <= |b| && b[at..at + |row|] == row && offset + size <= |row|
    ensures Load(b, at + offset, size) == Load(row, offset, size)
  {
    hide Load;
    SubSlice(b, at, at + |row|, offset, offset + size);
    LoadSame(b, at + offset, row, offset, size);
  }

  /** Every access of a joined payload is valid exactly when every row is. */
  lemma AccessRow(f: Features, items: seq<Item>, source: Source, i: nat)
    requires RawRows(f, items) && OneKind(items, Memory) && i < |items|
    ensures |Joined(items)| == |items| * MemoryStride(f) && |items[i].data| == MemoryStride(f)
    ensures i * MemoryStride(f) + MemoryStride(f) <= |Joined(items)|
    ensures ValidAccess(Joined(items), i * MemoryStride(f), f, source) == ValidAccess(items[i].data, 0, f, source)
  {
    hide ValidAccess, Joined, MemoryStride, RawRow;
    var stride := MemoryStride(f);
    RowSizes(f, items[i]);
    JoinedSizes(f, items, Memory);
    JoinedSizes(f, items[..i], Memory);
    JoinedSlice(items, i);
    hide RawRows, OneKind;
    AccessSlice(Joined(items), |Joined(items[..i])|, items[i].data, f, source);
  }

  predicate AllValid(f: Features, items: seq<Item>, source: Source)
    requires forall i :: 0 <= i < |items| ==> |items[i].data| == MemoryStride(f)
  {
    forall i :: 0 <= i < |items| ==> ValidAccess(items[i].data, 0, f, source)
  }

  lemma MemoryStrides(f: Features, items: seq<Item>)
    requires RawRows(f, items) && OneKind(items, Memory)
    ensures forall i :: 0 <= i < |items| ==> |items[i].data| == MemoryStride(f)
    ensures |Joined(items)| == |items| * MemoryStride(f)
  {
    JoinedSizes(f, items, Memory);
    hide Joined;
    forall i | 0 <= i < |items| ensures |items[i].data| == MemoryStride(f) { assert RawRow(f, items[i]); }
  }

  // ---------------------------------------------------------------- register rows

  /** The samples of register rows, one by one. */
  function ItemSamples(items: seq<Item>): Option<seq<Sample>> {
    if items == [] then Some([])
    else
      match (ItemSamples(items[..|items| - 1]), SampleAt(items[|items| - 1].data, 0))
      case (Some(front), Some(sample)) => Some(front + [sample])
      case _ => None
  }

  /** Each sample is the one its row holds. */
  predicate Sampled(items: seq<Item>, samples: seq<Sample>) {
    |samples| == |items| && forall i :: 0 <= i < |items| ==> SampleAt(items[i].data, 0) == Some(samples[i])
  }

  lemma SampleSlice(b: seq<byte>, at: nat, row: seq<byte>)
    requires 16 <= |row| && at + |row| <= |b| && b[at..at + |row|] == row && 16 + U16(row, 12) == |row|
    ensures SampleAt(b, at) == SampleAt(row, 0)
    ensures SampleAt(row, 0).Some? ==> SampleAt(row, 0).value.width + 16 == |row|
  {
    hide Load;
    SameWord(b, at, row, 8, 4);
    SameWord(b, at, row, 12, 2);
    SameWord(b, at, row, 14, 2);
  }

  /** Parsing joined register rows from row `k` on parses each of them. */
  lemma {:induction false} SamplesFrom(f: Features, items: seq<Item>, k: nat)
    requires RawRows(f, items) && OneKind(items, Registers) && k <= |items|
    ensures |Joined(items[..k])| <= |Joined(items)|
    ensures var r := Samples(Joined(items), |Joined(items[..k])|, |items| - k);
      && (r.Some? <==> forall i :: k <= i < |items| ==> SampleAt(items[i].data, 0).Some?)
      && (r.Some? ==> Sampled(items[k..], r.value))
    decreases |items| - k
  {
    hide Joined, SampleAt;
    if k == |items| {
      assert items[..k] == items;
    } else {
      JoinedSlice(items, k);
      assert RawRow(f, items[k]);
      var at := |Joined(items[..k])|;
      SampleSlice(Joined(items), at, items[k].data);
      SamplesFrom(f, items, k + 1);
      assert items[k..] == [items[k]] + items[k + 1..];
    }
  }

  lemma {:induction false} ItemSamplesMeaning(items: seq<Item>)
    ensures ItemSamples(items).Some? <==> forall i :: 0 <= i < |items| ==> SampleAt(items[i].data, 0).Some?
    ensures ItemSamples(items).Some? ==> Sampled(items, ItemSamples(items).value)
  {
    hide SampleAt;
    if items == [] {
    } else {
      ItemSamplesMeaning(items[..|items| - 1]);
    }
  }

  lemma SameSamples(items: seq<Item>, a: seq<Sample>, b: seq<Sample>)
    requires Sampled(items, a) && Sampled(items, b)
    ensures a == b
  {
    hide SampleAt;
    forall i | 0 <= i < |a| ensures a[i] == b[i] { assert SampleAt(items[i].data, 0) == Some(a[i]) == Some(b[i]); }
  }

  lemma JoinedSamples(f: Features, items: seq<Item>)
    requires RawRows(f, items) && OneKind(items, Registers)
    ensures Samples(Joined(items), 0, |items|) == ItemSamples(items)
  {
    NoItems();
    hide Joined, Samples, SampleAt, ItemSamples;
    assert items[..0] == [] && items[0..] == items;
    SamplesFrom(f, items, 0);
    ItemSamplesMeaning(items);
    var a, b := Samples(Joined(items), 0, |items|), ItemSamples(items);
    if a.Some? { SameSamples(items, a.value, b.value); }
  }

  lemma {:induction false} ApplyAppend(regs: RegisterFile, samples: seq<Sample>, sample: Sample)
    ensures Apply(regs, samples + [sample]) ==
      if Apply(regs, samples).None? then None else Apply(Apply(regs, samples).value, [sample])
  {
    if samples == [] {
      assert samples + [sample] == [sample];
    } else {
      var first := samples[0];
      assert (samples + [sample])[1..] == samples[1..] + [sample];
      if first.id in regs && first.width == regs[first.id].width && first.baseline != regs[first.id].sampled {
        ApplyAppend(regs[first.id := regs[first.id].(sampled := true)], samples[1..], sample);
      }
    }
  }

  // ---------------------------------------------------------------- a frame of one kind

  /** What rows of one kind, other than contexts, leave in their source. */
  function AfterRows(f: Features, source: Source, kind: Kind, items: seq<Item>): Option<Source>
    requires RawRows(f, items) && OneKind(items, kind)
  {
    match kind
    case Blocks => if f.addressContext && !source.hasContext then None else Some(source)
    case Registers =>
      if (f.addressContext && !source.hasContext) || !f.registers || source.registers.None? ||
         ItemSamples(items).None? || Apply(source.registers.value, ItemSamples(items).value).None?
      then None
      else Some(source.(registers := Some(Apply(source.registers.value, ItemSamples(items).value).value)))
    case Memory =>
      MemoryStrides(f, items);
      if !f.memory || !AllValid(f, items, source) then None else Some(source)
    case _ => None
  }

  /** The row of a context. */
  function AfterContext(f: Features, source: Source, item: Item): Option<Source>
    requires |item.data| == CONTEXT_BYTES
  {
    if !f.addressContext || !ValidContext(U64(item.data, 40), U64(item.data, 48), U64(item.data, 56)) then None
    else Some(source.(hasContext := true, contextSequence := source.next))
  }

  lemma RowsMeaning(s: State, index: nat, first: nat, kind: Kind, items: seq<Item>)
    requires RawRows(s.features, items) && OneKind(items, kind) && items != [] && index < MAX_SOURCES
    requires kind == Blocks || kind == Registers || kind == Memory
    ensures var frame := KindFrame(index, first, kind, items);
      AcceptRows(s, frame.header, frame.payload) == AfterRows(s.features, s.sources[index], kind, items)
  {
    var f, source := s.features, s.sources[index];
    hide Joined, ValidAccess, ItemSamples, Samples, Apply;
    if kind == Registers {
      JoinedSamples(f, items);
    } else if kind == Memory {
      MemoryMeaning(s, index, first, items);
    }
  }

  lemma MemoryMeaning(s: State, index: nat, first: nat, items: seq<Item>)
    requires RawRows(s.features, items) && OneKind(items, Memory) && items != [] && index < MAX_SOURCES
    ensures var frame := KindFrame(index, first, Memory, items);
      AcceptRows(s, frame.header, frame.payload) == AfterRows(s.features, s.sources[index], Memory, items)
  {
    hide Joined, ValidAccess, MemoryStride, RawRows;
    var f, source, n := s.features, s.sources[index], |items|;
    var b := Joined(items);
    MemoryStrides(f, items);
    forall i | 0 <= i < n
      ensures i * MemoryStride(f) + MemoryStride(f) <= |b|
      ensures ValidAccess(b, i * MemoryStride(f), f, source) == ValidAccess(items[i].data, 0, f, source)
    {
      AccessRow(f, items, source, i);
    }
  }

  predicate Barred(f: Features, index: nat, kind: Kind, source: Source) {
    || (f.stdio && index != 0) || source.ended
    || (f.observationReduction && (kind == Blocks || kind == AddressContext))
    || (f.registers && !f.contextFilter && (kind == Blocks || kind == Memory) && !BaselineComplete(source.registers))
  }

  /** The state a frame of `n` rows leaves, given what its rows leave in their source. */
  function Counted(s: State, index: nat, first: nat, kind: Kind, n: nat, after: Option<Source>): Option<State>
    requires index < MAX_SOURCES
  {
    var f, source := s.features, s.sources[index];
    var counted := f.contextFilter && kind == Memory;
    if Barred(f, index, kind, source) || first != source.next || first + n > MAX64 || after.None? ||
       (counted && s.filterRows + n > MAX64)
    then None
    else
      Some(SetSource(s, index, after.value.(seen := true, data := true, next := source.next + n, ended := false)).(
             sourceDataSeen := true, filterRows := if counted then s.filterRows + n else s.filterRows))
  }

  lemma SourceMeaning(s: State, index: nat, first: nat, kind: Kind, items: seq<Item>, after: Option<Source>)
    requires index < MAX_SOURCES && RunKind(kind)
    requires var frame := KindFrame(index, first, kind, items);
      && LegalHeader(frame.header) && WellSized(frame) && AcceptRows(s, frame.header, frame.payload) == after
    ensures var frame := KindFrame(index, first, kind, items);
      AcceptSource(s, frame.header, frame.payload) == Counted(s, index, first, kind, |items|, after)
  {
    hide LegalHeader, AcceptRows, Joined, BaselineComplete, PayloadSize;
  }

  /** Frames of these kinds are refused by a stream that does not run. */
  lemma Refused(s: State, frame: Frame)
    requires WellSized(frame) && RunKind(frame.header.kind) && !Running(s, frame.header)
    ensures AcceptSingle(s, frame.header, frame.payload) == None
  {
    hide LegalHeader, AcceptSource, AcceptFilter, AcceptComplete, AcceptReducedContext, AcceptTransitions, AcceptWindow,
      AcceptLayout, AcceptKernel, AcceptSummary, TransitionRows, FeaturesOf;
  }

  /** The validator's decision on a frame of rows of one kind. */
  lemma KindFrameDecision(s: State, index: nat, first: nat, kind: Kind, items: seq<Item>)
    requires RawRows(s.features, items) && OneKind(items, kind) && items != [] && index < MAX_SOURCES && first <= MAX64
    requires kind == Blocks || kind == Registers || kind == Memory
    requires |items| <= MAX_ROWS && |Joined(items)| <= MAX_PAYLOAD
    ensures var frame := KindFrame(index, first, kind, items);
      && WellSized(frame)
      && AcceptSingle(s, frame.header, frame.payload) ==
           if !Running(s, frame.header) then None
           else Counted(s, index, first, kind, |items|, AfterRows(s.features, s.sources[index], kind, items))
  {
    hide AcceptSingle, LegalHeader, AcceptRows, AcceptSource, AfterRows, Counted, Joined, RawRows, OneKind, PayloadSize;
    var frame := KindFrame(index, first, kind, items);
    KindFrameLegal(s.features, index, first, kind, items);
    if !Running(s, frame.header) {
      Refused(s, frame);
    } else {
      Dispatch(s, frame.header, frame.payload);
      RowsMeaning(s, index, first, kind, items);
      SourceMeaning(s, index, first, kind, items, AfterRows(s.features, s.sources[index], kind, items));
    }
  }

  /** The validator's decision on a context row. */
  lemma ContextDecision(s: State, index: nat, item: Item)
    requires RawRow(s.features, item) && item.kind == AddressContext && index < MAX_SOURCES
    requires s.sources[index].next <= MAX64
    ensures var frame := RowFrame(index, s.sources[index].next, item);
      && WellSized(frame) && |item.data| == CONTEXT_BYTES
      && AcceptSingle(s, frame.header, frame.payload) ==
           if !Running(s, frame.header) then None
           else Counted(s, index, s.sources[index].next, AddressContext, 1,
                        AfterContext(s.features, s.sources[index], item))
  {
    var first := s.sources[index].next;
    RowFrameLegal(s.features, index, first, item);
    assert |item.data| == CONTEXT_BYTES;
    hide AcceptSingle, LegalHeader, AcceptSource, Counted, Joined, SelfSized;
    var frame := RowFrame(index, first, item);
    if !Running(s, frame.header) {
      Refused(s, frame);
    } else {
      Dispatch(s, frame.header, frame.payload);
      SourceMeaning(s, index, first, AddressContext, [item], AfterContext(s.features, s.sources[index], item));
    }
  }

  // ---------------------------------------------------------------- one more row

  lemma SamplesAppend(items: seq<Item>, x: Item)
    ensures ItemSamples(items + [x]) ==
      if ItemSamples(items).None? || SampleAt(x.data, 0).None? then None
      else Some(ItemSamples(items).value + [SampleAt(x.data, 0).value])
    ensures ItemSamples([x]) == if SampleAt(x.data, 0).None? then None else Some([SampleAt(x.data, 0).value])
  {
    hide SampleAt;
    assert (items + [x])[..|items|] == items;
    assert [x][..0] == [];
    if SampleAt(x.data, 0).Some? { assert [] + [SampleAt(x.data, 0).value] == [SampleAt(x.data, 0).value]; }
  }

  /** Rows of one kind act on their source one after the other. */
  lemma AfterAppend(f: Features, source: Source, u: Source, kind: Kind, items: seq<Item>, x: Item)
    requires RawRows(f, items) && OneKind(items, kind) && RawRow(f, x) && x.kind == kind
    requires AfterRows(f, source, kind, items).Some?
             ==> u.registers == AfterRows(f, source, kind, items).value.registers
    requires u.hasContext == source.hasContext && u.contextSequence == source.contextSequence
    ensures RawRows(f, items + [x]) && OneKind(items + [x], kind)
    ensures AfterRows(f, source, kind, items + [x]) ==
      if AfterRows(f, source, kind, items).None? || AfterRows(f, u, kind, [x]).None? then None
      else Some(source.(registers := AfterRows(f, u, kind, [x]).value.registers))
  {
    if kind == Registers {
      hide ItemSamples, SampleAt, Apply, SelfSized;
      SamplesAppend(items, x);
      if source.registers.Some? && ItemSamples(items).Some? && SampleAt(x.data, 0).Some? {
        ApplyAppend(source.registers.value, ItemSamples(items).value, SampleAt(x.data, 0).value);
      }
    } else if kind == Memory {
      AccessesAppend(f, source, u, items, x);
    } else {
      hide SelfSized;
    }
  }

  lemma AccessesAppend(f: Features, source: Source, u: Source, items: seq<Item>, x: Item)
    requires RawRows(f, items) && OneKind(items, Memory) && RawRow(f, x) && x.kind == Memory
    requires u.hasContext == source.hasContext && u.contextSequence == source.contextSequence
    ensures RawRows(f, items + [x]) && OneKind(items + [x], Memory)
    ensures AfterRows(f, source, Memory, items + [x]).Some? <==>
      AfterRows(f, source, Memory, items).Some? && AfterRows(f, u, Memory, [x]).Some?
  {
    assert forall b: seq<byte> :: |b| == MemoryStride(f) ==> ValidAccess(b, 0, f, source) == ValidAccess(b, 0, f, u);
    hide ValidAccess, SelfSized;
    var more := items + [x];
    assert RawRows(f, more) && OneKind(more, Memory);
    MemoryStrides(f, more);
    MemoryStrides(f, items);
    MemoryStrides(f, [x]);
    assert more[|items|] == x;
    if AllValid(f, more, source) {
      forall i | 0 <= i < |items| ensures ValidAccess(items[i].data, 0, f, source) { assert more[i] == items[i]; }
    }
    if AllValid(f, items, source) && AllValid(f, [x], u) {
      assert ValidAccess([x][0].data, 0, f, u);
      forall i | 0 <= i < |more| ensures ValidAccess(more[i].data, 0, f, source) {
        if i < |items| { assert more[i] == items[i]; }
      }
    }
  }

  /** One more row in a frame is one more frame with that row. */
  lemma KindFrameStep(s: State, index: nat, first: nat, kind: Kind, items: seq<Item>, x: Item)
    requires RawRows(s.features, items) && OneKind(items, kind) && items != [] && RawRow(s.features, x)
    requires x.kind == kind
    requires kind == Blocks || kind == Registers || kind == Memory
    requires index < MAX_SOURCES && first + |items| < MAX64 && |items| < MAX_ROWS
    requires |Joined(items + [x])| <= MAX_PAYLOAD
    ensures var whole, front, last := KindFrame(index, first, kind, items + [x]), KindFrame(index, first, kind, items),
                                      RowFrame(index, first + |items|, x);
      && WellSized(whole) && WellSized(front) && WellSized(last)
      && AcceptSingle(s, whole.header, whole.payload) ==
           match AcceptSingle(s, front.header, front.payload)
           case None => None
           case Some(t) => AcceptSingle(t, last.header, last.payload)
  {
    AppendJoined(items, x);
    OneJoined(x);
    hide Joined, AfterRows, AcceptSingle, RawRow, PayloadSize, Counted;
    RowsAppend(s.features, items, kind, x);
    hide RawRows, OneKind;
    KindFrameDecision(s, index, first, kind, items);
    KindFrameDecision(s, index, first, kind, items + [x]);
    CountedStep(s, index, first, kind, items, x);
    var front := Counted(s, index, first, kind, |items|, AfterRows(s.features, s.sources[index], kind, items));
    if Running(s, KindFrame(index, first, kind, items).header) && front.Some? {
      KindFrameDecision(front.value, index, first + |items|, kind, [x]);
    }
    LastFrame(s.features, index, first + |items|, kind, x);
  }

  lemma LastFrame(f: Features, index: nat, sequence: nat, kind: Kind, x: Item)
    requires RawRow(f, x) && x.kind == kind
    ensures KindFrame(index, sequence, kind, [x]) == RowFrame(index, sequence, x)
    ensures WellSized(RowFrame(index, sequence, x))
  {
    OneJoined(x);
    RowSized(f, index, sequence, x);
  }

  lemma RowsAppend(f: Features, items: seq<Item>, kind: Kind, x: Item)
    requires RawRows(f, items) && OneKind(items, kind) && RawRow(f, x) && x.kind == kind
    ensures RawRows(f, items + [x]) && OneKind(items + [x], kind) && RawRows(f, [x]) && OneKind([x], kind)
  {
    hide RawRow;
  }

  /** Counting the rows of a frame at once or the last one apart. */
  lemma CountedStep(s: State, index: nat, first: nat, kind: Kind, items: seq<Item>, x: Item)
    requires RawRows(s.features, items) && OneKind(items, kind) && items != [] && RawRow(s.features, x)
    requires x.kind == kind
    requires (kind == Blocks || kind == Registers || kind == Memory) && index < MAX_SOURCES
    ensures RawRows(s.features, items + [x]) && OneKind(items + [x], kind) && RawRows(s.features, [x])
    ensures OneKind([x], kind)
    ensures var f, source, n := s.features, s.sources[index], |items|;
      var front := Counted(s, index, first, kind, n, AfterRows(f, source, kind, items));
      && (front.Some? ==> front.value.features == f && forall h :: Running(s, h) ==> Running(front.value, h))
      && Counted(s, index, first, kind, n + 1, AfterRows(f, source, kind, items + [x])) ==
           if front.None? then None
           else Counted(front.value, index, first + n, kind, 1, AfterRows(f, front.value.sources[index], kind, [x]))
  {
    hide AfterRows, RawRow, BaselineComplete;
    RowsAppend(s.features, items, kind, x);
    hide RawRows, OneKind;
    var f, source, n := s.features, s.sources[index], |items|;
    var after := AfterRows(f, source, kind, items);
    var front := Counted(s, index, first, kind, n, after);
    AfterShape(f, source, kind, items);
    if front.Some? {
      var t := front.value;
      AfterShape(f, t.sources[index], kind, [x]);
      AfterAppend(f, source, t.sources[index], kind, items, x);
      hide Counted;
      CountedTwice(s, index, first, kind, n, after, AfterRows(f, t.sources[index], kind, [x]),
                   AfterRows(f, source, kind, items + [x]));
    } else {
      hide Counted;
      AfterNone(f, source, kind, items, x);
      CountedNone(s, index, first, kind, n, after, AfterRows(f, source, kind, items + [x]));
    }
  }

  lemma AfterShape(f: Features, source: Source, kind: Kind, items: seq<Item>)
    requires RawRows(f, items) && OneKind(items, kind)
    ensures var r := AfterRows(f, source, kind, items);
      r.Some? ==> r.value == source.(registers := r.value.registers) && (kind != Registers ==> r.value == source)
  {
    hide RawRow;
  }

  lemma AfterNone(f: Features, source: Source, kind: Kind, items: seq<Item>, x: Item)
    requires RawRows(f, items) && OneKind(items, kind) && RawRow(f, x) && x.kind == kind
    ensures RawRows(f, items + [x]) && OneKind(items + [x], kind)
    ensures AfterRows(f, source, kind, items).None? ==> AfterRows(f, source, kind, items + [x]).None?
  {
    hide AfterRows, RawRow;
    if AfterRows(f, source, kind, items).None? { AfterAppend(f, source, source, kind, items, x); }
    else { assert RawRows(f, items + [x]) && OneKind(items + [x], kind); }
  }

  lemma CountedNone(s: State, index: nat, first: nat, kind: Kind, n: nat, after: Option<Source>, whole: Option<Source>)
    requires index < MAX_SOURCES && Counted(s, index, first, kind, n, after).None? && (after.None? ==> whole.None?)
    ensures Counted(s, index, first, kind, n + 1, whole).None?
  {
    hide BaselineComplete;
  }

  lemma CountedTwice(s: State, index: nat, first: nat, kind: Kind, n: nat, after: Option<Source>, last: Option<Source>,
                     whole: Option<Source>)
    requires index < MAX_SOURCES && Counted(s, index, first, kind, n, after).Some? && n > 0
    requires kind == Blocks || kind == Registers || kind == Memory
    requires var source, t := s.sources[index], Counted(s, index, first, kind, n, after).value;
      && after.value == source.(registers := after.value.registers)
      && (kind != Registers ==> after.value == source)
      && (last.Some? ==> last.value == t.sources[index].(registers := last.value.registers))
      && (kind != Registers && last.Some? ==> last.value == t.sources[index])
      && whole == if last.None? then None else Some(source.(registers := last.value.registers))
    ensures Counted(s, index, first, kind, n + 1, whole) ==
      Counted(Counted(s, index, first, kind, n, after).value, index, first + n, kind, 1, last)
  {
    hide BaselineComplete;
    var t := Counted(s, index, first, kind, n, after).value;
    CountedFields(s, index, first, kind, n, after);
    BarredAfter(s.features, index, kind, s.sources[index], t.sources[index]);
    hide Barred;
    if last.Some? {
      OverwriteTwice(s.sources, index, t.sources[index],
        whole.value.(seen := true, data := true, next := s.sources[index].next + (n + 1), ended := false));
    }
  }

  lemma OverwriteTwice(sources: seq<Source>, index: nat, a: Source, b: Source)
    requires index < |sources|
    ensures sources[index := a][index := b] == sources[index := b]
  {
  }

  lemma CountedFields(s: State, index: nat, first: nat, kind: Kind, n: nat, after: Option<Source>)
    requires index < MAX_SOURCES && Counted(s, index, first, kind, n, after).Some?
    ensures var t := Counted(s, index, first, kind, n, after).value;
      && t.features == s.features && t.sources == s.sources[index := t.sources[index]] &&
        !Barred(s.features, index, kind, s.sources[index])
      && t.sources[index] == after.value.(seen := true, data := true, next := s.sources[index].next + n, ended := false)
  {
    hide Barred;
  }

  lemma BarredAfter(f: Features, index: nat, kind: Kind, source: Source, next: Source)
    requires !Barred(f, index, kind, source) && !next.ended
    requires (kind != Registers ==> next.registers == source.registers)
    ensures !Barred(f, index, kind, next)
  {
    hide BaselineComplete;
  }

  // ---------------------------------------------------------------- a run is its rows

  lemma FramesAppend(index: nat, first: nat, a: seq<Item>, b: seq<Item>)
    ensures RowFrames(index, first, a + b) == RowFrames(index, first, a) + RowFrames(index, first + |a|, b)
  {
  }

  lemma OneRow(s: State, f: Features, index: nat, sequence: nat, x: Item)
    requires RawRow(f, x) && index < MAX_SOURCES
    ensures WellSized(RowFrame(index, sequence, x)) && Sized(RowFrames(index, sequence, [x]))
    ensures AcceptSingles(s, RowFrames(index, sequence, [x])) ==
      AcceptSingle(s, RowFrame(index, sequence, x).header, RowFrame(index, sequence, x).payload)
  {
    RowSized(f, index, sequence, x);
    hide AcceptSingle;
    var frame := RowFrame(index, sequence, x);
    assert RowFrames(index, sequence, [x]) == [frame];
    assert [frame][..0] == [];
  }

  /** A frame of rows of one kind is accepted as its rows are. */
  lemma {:induction false} KindFrameIsRows(s: State, index: nat, first: nat, kind: Kind, items: seq<Item>)
    requires RawRows(s.features, items) && OneKind(items, kind) && items != [] && RunKind(kind)
    requires index < MAX_SOURCES && first + |items| <= MAX64 && |items| <= MAX_ROWS && |Joined(items)| <= MAX_PAYLOAD
    requires kind == AddressContext ==> |items| == 1
    ensures WellSized(KindFrame(index, first, kind, items)) && Sized(RowFrames(index, first, items))
    ensures AcceptSingle(s, KindFrame(index, first, kind, items).header, Joined(items)) ==
      AcceptSingles(s, RowFrames(index, first, items))
  {
    hide Joined, AcceptSingle, AcceptSingles, RawRow, PayloadSize;
    RowFramesSized(s.features, index, first, items);
    if |items| == 1 {
      assert items == [items[0]] && RawRow(s.features, items[0]);
      LastFrame(s.features, index, first, kind, items[0]);
      OneRow(s, s.features, index, first, items[0]);
    } else {
      var front, x := items[..|items| - 1], items[|items| - 1];
      assert items == front + [x] && RawRow(s.features, x);
      AppendJoined(front, x);
      KindFrameIsRows(s, index, first, kind, front);
      KindFrameStep(s, index, first, kind, front, x);
      FramesAppend(index, first, front, [x]);
      RowFramesSized(s.features, index, first, front);
      RowFramesSized(s.features, index, first + |front|, [x]);
      SinglesAppend(s, RowFrames(index, first, front), RowFrames(index, first + |front|, [x]));
      var t := AcceptSingles(s, RowFrames(index, first, front));
      if t.Some? { OneRow(t.value, s.features, index, first + |front|, x); }
    }
  }

  // ---------------------------------------------------------------- mixed frames

  /** Where the last run of equal kinds starts. */
  function Tail(items: seq<Item>): (k: nat)
    requires items != []
    ensures k < |items| && forall i :: k <= i < |items| ==> items[i].kind == items[|items| - 1].kind
    ensures k > 0 ==> items[k - 1].kind != items[k].kind
  {
    var n := |items| - 1;
    if n == 0 || items[n - 1].kind != items[n].kind then n else Tail(items[..n])
  }

  /** The runs are those before the last one and the last one. */
  lemma {:induction false} TailRun(items: seq<Item>)
    requires items != []
    ensures var k, kind := Tail(items), items[|items| - 1].kind;
      Grouped(items) == Grouped(items[..k]) + [Run(kind, |items| - k, Joined(items[k..]))]
  {
    hide Joined, Grouped, AddRow;
    var n := |items| - 1;
    var front, x := items[..n], items[n];
    assert items == front + [x];
    AppendGrouped(front, x);
    LastRun(front);
    if n == 0 || front[n - 1].kind != x.kind {
      assert items[n..] == [x];
      OneJoined(x);
      OpenLast(Grouped(front), x);
    } else {
      TailRun(front);
      var k := Tail(front);
      assert Tail(items) == k;
      hide Tail;
      assert front[..k] == items[..k] && items[k..] == front[k..] + [x];
      AppendJoined(front[k..], x);
      GrowLast(Grouped(items[..k]), Run(x.kind, n - k, Joined(front[k..])), x);
    }
  }

  lemma OpenLast(runs: seq<Run>, x: Item)
    requires runs == [] || runs[|runs| - 1].kind != x.kind
    ensures AddRow(runs, x) == runs + [Run(x.kind, 1, x.data)]
  {
  }

  lemma GrowLast(runs: seq<Run>, run: Run, x: Item)
    requires run.kind == x.kind
    ensures AddRow(runs + [run], x) == runs + [Run(run.kind, run.rows + 1, run.data + x.data)]
  {
    assert (runs + [run])[..|runs|] == runs;
  }

  /** Room for a prefix and a suffix of rows that share a mixed frame. */
  lemma PartsFit(items: seq<Item>, k: nat)
    requires k <= |items| && |RunsBytes(Grouped(items))| <= MAX_PAYLOAD && k > 0 ==> k == Tail(items)
    requires items != [] && k == Tail(items)
    ensures |RunsBytes(Grouped(items[..k]))| + |Joined(items[k..])| <= |RunsBytes(Grouped(items))|
  {
    hide Grouped, Joined;
    TailRun(items);
    AppendRuns(Grouped(items[..k]), Run(items[|items| - 1].kind, |items| - k, Joined(items[k..])));
  }

  lemma {:induction false} RunFramesAppend(h: Header, runs: seq<Run>, run: Run)
    requires SizedRuns(runs) && SizedRun(run)
    ensures SizedRuns(runs + [run])
    ensures RunFrames(h, runs + [run]) == RunFrames(h, runs) + [RunFrame(h, h.sequence + RowTotal(runs), run)]
  {
    hide SizedRun, RunFrame, RowTotal;
    assert (runs + [run])[..|runs|] == runs;
  }

  /** Rows that fit a mixed frame group into sized runs with as many rows. */
  lemma RawGrouped(f: Features, items: seq<Item>)
    requires RawRows(f, items)
    ensures SizedRuns(Grouped(items)) && RowTotal(Grouped(items)) == |items|
  {
    forall i | 0 <= i < |items| ensures Fits(true, items[i]) &&
      UsesRuns(true, items[i].kind) { assert RawRow(f, items[i]); }
    hide Grouped, RunsBytes, RowTotal, RawRow, Fits;
    GroupedRuns(items);
  }

  /** The runs of a mixed frame are accepted exactly when the rows are and no run holds two contexts. */
  lemma {:induction false} RunsAreRows(s: State, h: Header, items: seq<Item>)
    requires RawRows(s.features, items) && h.source < MAX_SOURCES && h.version == VERSION
    requires h.sequence + |items| <= MAX64 && |items| <= MAX_ROWS && |RunsBytes(Grouped(items))| <= MAX_PAYLOAD
    ensures SizedRuns(Grouped(items)) && Sized(RowFrames(h.source, h.sequence, items))
    ensures AcceptSingles(s, RunFrames(h, Grouped(items))) ==
      if NoTwins(items) then AcceptSingles(s, RowFrames(h.source, h.sequence, items)) else None
    decreases |items|
  {
    hide Grouped, RunsBytes, Joined, AcceptSingle, RawRow, RowTotal;
    RawGrouped(s.features, items);
    RowFramesSized(s.features, h.source, h.sequence, items);
    hide AcceptSingles, RowFrames, NoTwins, RunFrames;
    if items == [] {
      NoRuns(s, h);
    } else {
      var k := Tail(items);
      PartsFit(items, k);
      RawSlices(s.features, items, k);
      hide Tail, RawRows, SizedRuns;
      RunsAreRows(s, h, items[..k]);
      RunsStep(s, h, items, k, items[|items| - 1].kind);
    }
  }

  lemma RawSlices(f: Features, items: seq<Item>, k: nat)
    requires RawRows(f, items) && k <= |items|
    ensures RawRows(f, items[..k]) && RawRows(f, items[k..])
  {
    hide RawRow;
  }

  lemma RunsStep(s: State, h: Header, items: seq<Item>, k: nat, kind: Kind)
    requires RawRows(s.features, items) && h.source < MAX_SOURCES && h.version == VERSION && items != []
    requires k == Tail(items) && kind == items[|items| - 1].kind
    requires h.sequence + |items| <= MAX64 && |items| <= MAX_ROWS && |Joined(items[k..])| <= MAX_PAYLOAD
    requires SizedRuns(Grouped(items[..k])) && Sized(RowFrames(h.source, h.sequence, items[..k]))
    requires AcceptSingles(s, RunFrames(h, Grouped(items[..k]))) ==
      if NoTwins(items[..k]) then AcceptSingles(s, RowFrames(h.source, h.sequence, items[..k])) else None
    ensures SizedRuns(Grouped(items)) && Sized(RowFrames(h.source, h.sequence, items))
    ensures AcceptSingles(s, RunFrames(h, Grouped(items))) ==
      if NoTwins(items) then AcceptSingles(s, RowFrames(h.source, h.sequence, items)) else None
  {
    hide AcceptSingles, RowFrames, NoTwins, RunFrames, Grouped, Joined, RawRows, OneKind, SizedRuns;
    RawSlices(s.features, items, k);
    TailKind(s.features, items);
    TwinsSplit(items, k);
    TailRun(items);
    hide Tail;
    RunsJoin(s, h, items, items[..k], items[k..], kind);
  }

  lemma RunsJoin(s: State, h: Header, items: seq<Item>, front: seq<Item>, tail: seq<Item>, kind: Kind)
    requires items == front + tail && tail != [] && OneKind(tail, kind) && RunKind(kind)
    requires RawRows(s.features, items) && RawRows(s.features, front) && RawRows(s.features, tail)
    requires Grouped(items) == Grouped(front) + [Run(kind, |tail|, Joined(tail))]
    requires NoTwins(items) <==> NoTwins(front) && !(kind == AddressContext && |tail| > 1)
    requires h.source < MAX_SOURCES && h.version == VERSION && h.sequence + |items| <= MAX64
    requires |items| <= MAX_ROWS && |Joined(tail)| <= MAX_PAYLOAD
    requires SizedRuns(Grouped(front)) && Sized(RowFrames(h.source, h.sequence, front))
    requires AcceptSingles(s, RunFrames(h, Grouped(front))) ==
      if NoTwins(front) then AcceptSingles(s, RowFrames(h.source, h.sequence, front)) else None
    ensures SizedRuns(Grouped(items)) && Sized(RowFrames(h.source, h.sequence, items))
    ensures AcceptSingles(s, RunFrames(h, Grouped(items))) ==
      if NoTwins(items) then AcceptSingles(s, RowFrames(h.source, h.sequence, items)) else None
  {
    hide AcceptSingles, RowFrames, NoTwins, RunFrames, Grouped, Joined, RawRows, OneKind, SizedRuns, Sized, SizedRun;
    RawGrouped(s.features, items);
    RawGrouped(s.features, front);
    LastSized(Grouped(front), Run(kind, |tail|, Joined(tail)));
    TailAccepted(s, h, Grouped(front), front, kind, tail);
  }

  lemma LastSized(runs: seq<Run>, run: Run)
    requires SizedRuns(runs + [run])
    ensures SizedRun(run)
  {
    assert (runs + [run])[|runs|] == run;
  }

  lemma NoRuns(s: State, h: Header)
    ensures Grouped([]) == [] && NoTwins([])
    ensures AcceptSingles(s, RunFrames(h, [])) == AcceptSingles(s, RowFrames(h.source, h.sequence, []))
  {
    assert RunFrames(h, []) == [] && RowFrames(h.source, h.sequence, []) == [];
  }

  lemma TailAccepted(s: State, h: Header, runs: seq<Run>, front: seq<Item>, kind: Kind, tail: seq<Item>)
    requires SizedRuns(runs) && RowTotal(runs) == |front| && SizedRun(Run(kind, |tail|, Joined(tail)))
    requires RawRows(s.features, front) && RawRows(s.features, tail) && OneKind(tail, kind) && RunKind(kind)
    requires tail != []
    requires h.source < MAX_SOURCES && h.version == VERSION && h.sequence + |front| + |tail| <= MAX64
    requires |tail| <= MAX_ROWS && |Joined(tail)| <= MAX_PAYLOAD && Sized(RowFrames(h.source, h.sequence, front))
    requires AcceptSingles(s, RunFrames(h, runs)) ==
      if NoTwins(front) then AcceptSingles(s, RowFrames(h.source, h.sequence, front)) else None
    ensures SizedRuns(runs + [Run(kind, |tail|, Joined(tail))]) && Sized(RowFrames(h.source, h.sequence, front + tail))
    ensures AcceptSingles(s, RunFrames(h, runs + [Run(kind, |tail|, Joined(tail))])) ==
      if NoTwins(front) && !(kind == AddressContext && |tail| > 1)
      then AcceptSingles(s, RowFrames(h.source, h.sequence, front + tail)) else None
  {
    hide Joined, AcceptSingle, AcceptSingles, RawRows, RowTotal, PayloadSize, NoTwins, RunFrames, RowFrames, SizedRuns;
    var first, run := h.sequence + |front|, Run(kind, |tail|, Joined(tail));
    FramesAppend(h.source, h.sequence, front, tail);
    RowFramesSized(s.features, h.source, first, tail);
    LastRunAccepted(s, h, runs, run, KindFrame(h.source, first, kind, tail));
    SinglesAppend(s, RowFrames(h.source, h.sequence, front), RowFrames(h.source, first, tail));
    var u := AcceptSingles(s, RunFrames(h, runs));
    if u.Some? {
      RunFrameKinds(h, runs);
      KeepsFeatures(s, RunFrames(h, runs), u.value);
      TailDecision(u.value, h.source, first, kind, tail);
    }
  }

  lemma LastRunAccepted(s: State, h: Header, runs: seq<Run>, run: Run, frame: Frame)
    requires SizedRuns(runs) && SizedRun(run) && frame == RunFrame(h, h.sequence + RowTotal(runs), run)
    ensures SizedRuns(runs + [run])
    ensures AcceptSingles(s, RunFrames(h, runs + [run])) ==
      match AcceptSingles(s, RunFrames(h, runs))
      case None => None
      case Some(u) => AcceptSingle(u, frame.header, frame.payload)
  {
    hide AcceptSingle, AcceptSingles, RunFrames, RunFrame, RowTotal, SizedRun;
    RunFramesAppend(h, runs, run);
    SinglesAppend(s, RunFrames(h, runs), [frame]);
    var u := AcceptSingles(s, RunFrames(h, runs));
    if u.Some? { OneSingle(u.value, frame); }
  }

  /** The last run: refused if it holds several contexts, otherwise accepted as its rows are. */
  lemma TailDecision(u: State, index: nat, first: nat, kind: Kind, tail: seq<Item>)
    requires RawRows(u.features, tail) && OneKind(tail, kind) && RunKind(kind) && index < MAX_SOURCES && tail != []
    requires first + |tail| <= MAX64 && |tail| <= MAX_ROWS && |Joined(tail)| <= MAX_PAYLOAD
    ensures WellSized(KindFrame(index, first, kind, tail)) && Sized(RowFrames(index, first, tail))
    ensures AcceptSingle(u, KindFrame(index, first, kind, tail).header, Joined(tail)) ==
      if kind == AddressContext && |tail| > 1 then None else AcceptSingles(u, RowFrames(index, first, tail))
  {
    hide Joined, AcceptSingle, AcceptSingles, RawRow, PayloadSize, LegalHeader;
    RowFramesSized(u.features, index, first, tail);
    KindFrameLegal(u.features, index, first, kind, tail);
    if kind == AddressContext && |tail| > 1 {
      IllegalFrame(u, KindFrame(index, first, kind, tail));
    } else {
      KindFrameIsRows(u, index, first, kind, tail);
    }
  }

  lemma {:induction false} RunFrameKinds(h: Header, runs: seq<Run>)
    requires SizedRuns(runs)
    ensures forall i :: 0 <= i < |RunFrames(h, runs)| ==> RunKind(RunFrames(h, runs)[i].header.kind)
  {
    if runs == [] {
    } else {
      RunFrameKinds(h, runs[..|runs| - 1]);
      assert SizedRun(runs[|runs| - 1]);
    }
  }

  lemma TailKind(f: Features, items: seq<Item>)
    requires RawRows(f, items) && items != []
    ensures RunKind(items[|items| - 1].kind) && RawRows(f, items[Tail(items)..])
    ensures OneKind(items[Tail(items)..], items[|items| - 1].kind)
  {
    assert RawRow(f, items[|items| - 1]);
    hide RawRow;
  }

  lemma IllegalFrame(s: State, frame: Frame)
    requires WellSized(frame) && !LegalHeader(frame.header)
    ensures AcceptSingle(s, frame.header, frame.payload) == None
  {
    hide LegalHeader;
  }

  lemma OneSingle(s: State, frame: Frame)
    requires WellSized(frame)
    ensures AcceptSingles(s, [frame]) == AcceptSingle(s, frame.header, frame.payload)
  {
    hide AcceptSingle;
    assert [frame][..0] == [];
  }

  /** Neighbouring contexts lie before the last run or in it. */
  lemma TwinsSplit(items: seq<Item>, k: nat)
    requires items != [] && k == Tail(items)
    ensures NoTwins(items) <==> NoTwins(items[..k]) && !(items[|items| - 1].kind == AddressContext && |items| - k > 1)
  {
    if NoTwins(items) { TwinsFront(items, k); } else { TwinsBack(items, k); }
  }

  lemma TwinsFront(items: seq<Item>, k: nat)
    requires items != [] && k == Tail(items) && NoTwins(items)
    ensures NoTwins(items[..k]) && !(items[|items| - 1].kind == AddressContext && |items| - k > 1)
  {
    forall i | 0 < i < k ensures !TwinAt(items[..k], i) { assert !TwinAt(items, i); }
    if |items| - k > 1 { assert !TwinAt(items, k + 1); }
  }

  lemma TwinsBack(items: seq<Item>, k: nat)
    requires items != [] && k == Tail(items) && !NoTwins(items)
    ensures !(NoTwins(items[..k]) && !(items[|items| - 1].kind == AddressContext && |items| - k > 1))
  {
    var i :| 0 < i < |items| && TwinAt(items, i);
    if i < k { assert TwinAt(items[..k], i); }
  }

  /** A run of row frames changes no feature. */
  lemma {:induction false} KeepsFeatures(s: State, frames: seq<Frame>, t: State)
    requires Sized(frames) && AcceptSingles(s, frames) == Some(t)
    requires forall i :: 0 <= i < |frames| ==> RunKind(frames[i].header.kind)
    ensures t.features == s.features
  {
    hide AcceptSingle;
    if frames == [] {
    } else {
      var front, last := frames[..|frames| - 1], frames[|frames| - 1];
      var u := LastStep(s, frames, t);
      KeepsFeatures(s, front, u);
      assert RunKind(last.header.kind) && WellSized(last);
      SourceStep(u, last.header, last.payload, t);
      BoundaryRuns.SourceKeepsWindows(u, last.header, last.payload, t);
    }
  }

  // ---------------------------------------------------------------- a flushed batch

  lemma OneKindTwins(items: seq<Item>, kind: Kind)
    requires OneKind(items, kind)
    ensures NoTwins(items) <==> !(kind == AddressContext && |items| > 1)
  {
    if |items| > 1 { assert TwinAt(items, 1) == (kind == AddressContext); }
  }

  lemma {:induction false} FirstRefused(s: State, frames: seq<Frame>)
    requires Sized(frames) && frames != [] && AcceptSingle(s, frames[0].header, frames[0].payload) == None
    ensures AcceptSingles(s, frames) == None
  {
    hide AcceptSingle;
    if |frames| == 1 {
      assert frames[..0] == [];
    } else {
      FirstRefused(s, frames[..|frames| - 1]);
    }
  }

  lemma RowsRefused(s: State, f: Features, index: nat, first: nat, items: seq<Item>)
    requires RawRows(f, items) && index < MAX_SOURCES && items != []
    requires !s.started || s.finished || s.version != VERSION
    ensures Sized(RowFrames(index, first, items)) && AcceptSingles(s, RowFrames(index, first, items)) == None
  {
    hide AcceptSingle, AcceptSingles, RawRow;
    RowFramesSized(f, index, first, items);
    assert RawRow(f, items[0]);
    RowKind(f, items[0]);
    var frames := RowFrames(index, first, items);
    assert WellSized(frames[0]);
    Refused(s, frames[0]);
    FirstRefused(s, frames);
  }

  lemma RowKind(f: Features, x: Item)
    requires RawRow(f, x)
    ensures RunKind(x.kind)
  {
  }

  lemma BatchKinds(b: Batch, mixed: bool)
    requires Valid(b, mixed) && b.items != []
    ensures b.kind == Mixed ==> mixed && Valid(b, true)
    ensures b.kind != Mixed ==> OneKind(b.items, b.kind)
    ensures |b.items| <= MAX_ROWS && b.next <= MAX64 && |Payload(b)| <= MAX_PAYLOAD
    ensures b.kind == RegisterSchema || |b.items| <= b.next
  {
    hide Payload, Fits;
    assert b.kind == Mixed ==> UsesRuns(mixed, b.items[0].kind);
  }

  /** A mixed frame's header is legal and its payload parses into the runs of its rows. */
  lemma MixedBatch(index: nat, b: Batch)
    requires Valid(b, true) && b.kind == Mixed && b.items != [] && |b.items| <= b.next && index < MAX_SOURCES
    ensures var frame := BatchFrame(index, b);
      && LegalHeader(frame.header) && WellSized(frame)
      && RunsAt(frame.payload, 0, frame.header.count) == Some(Grouped(b.items))
      && |RunsBytes(Grouped(b.items))| <= MAX_PAYLOAD
  {
    hide Grouped, RunsBytes, RunsAt, Joined, Valid, LegalHeader;
    BatchParses(b);
    BatchKinds(b, true);
    MixedLegal(BatchHeader(index, b));
  }

  lemma MixedLegal(h: Header)
    requires h.kind == Mixed && h.version == VERSION && h.source < MAX_SOURCES && 0 < h.count <= MAX_ROWS
    requires h.sequence <= MAX64 && 16 <= h.detail <= MAX_PAYLOAD
    ensures LegalHeader(h)
  {
  }

  /**
   * Batching does not matter: a flushed frame is accepted exactly when its rows
   * would be one by one, no two contexts are neighbours in it, and a mixed frame
   * was announced. Then both leave the same state.
   */
  lemma BatchIsRows(s: State, index: nat, b: Batch, mixed: bool)
    requires Valid(b, mixed) && RawRows(s.features, b.items) && b.items != [] && index < MAX_SOURCES
    requires |b.items| <= b.next && (b.kind == Mixed || RunKind(b.kind))
    ensures WellSized(BatchFrame(index, b)) && Sized(RowFrames(index, b.next - |b.items|, b.items))
    ensures Accept(s, BatchFrame(index, b)) ==
      if NoTwins(b.items) && (b.kind == Mixed ==> s.features.mixed)
      then AcceptSingles(s, RowFrames(index, b.next - |b.items|, b.items)) else None
  {
    hide AcceptSingle, AcceptSingles, RawRows, NoTwins, Grouped, RunsBytes, Joined, Valid, LegalHeader, RunsAt,
      RowFrames;
    var first := b.next - |b.items|;
    BatchKinds(b, mixed);
    RowFramesSized(s.features, index, first, b.items);
    if b.kind == Mixed {
      MixedBatch(index, b);
      if s.finished || !s.started || s.version != VERSION {
        RowsRefused(s, s.features, index, first, b.items);
      } else {
        RunsAreRows(s, BatchHeader(index, b), b.items);
      }
    } else {
      OneKindTwins(b.items, b.kind);
      assert BatchFrame(index, b) == KindFrame(index, first, b.kind, b.items);
      TailDecision(s, index, first, b.kind, b.items);
    }
  }

  // ---------------------------------------------------------------- rows as steps of their source

  /** A stream between Hello and its end. */
  predicate Open(s: State) {
    s.started && !s.finished && s.version == VERSION
  }

  /** A stream that takes row frames. */
  predicate Live(s: State) {
    Open(s) && (s.features.executableLayout ==> s.layoutSeen)
  }

  /** What one row leaves in its source. */
  function SourceRow(f: Features, index: nat, source: Source, item: Item): Option<Source>
    requires RawRow(f, item)
  {
    var after := if item.kind == AddressContext then AfterContext(f, source, item)
                 else AfterRows(f, source, item.kind, [item]);
    if Barred(f, index, item.kind, source) || source.next + 1 > MAX64 || after.None? then None
    else Some(after.value.(seen := true, data := true, next := source.next + 1, ended := false))
  }

  function Follow(f: Features, index: nat, source: Source, items: seq<Item>): Option<Source>
    requires RawRows(f, items)
  {
    if items == [] then Some(source)
    else
      assert RawRow(f, items[|items| - 1]);
      match Follow(f, index, source, items[..|items| - 1])
      case None => None
      case Some(mid) => SourceRow(f, index, mid, items[|items| - 1])
  }

  function MemoryCount(items: seq<Item>): nat {
    if items == [] then 0
    else MemoryCount(items[..|items| - 1]) + if items[|items| - 1].kind == Memory then 1 else 0
  }

  /** The validator's count of filtered memory rows has no room for `rows` more. */
  predicate FilterFull(s: State, rows: nat) {
    s.features.contextFilter && rows > 0 && s.filterRows + rows > MAX64
  }

  /** The stream after a list of rows of one source. */
  function Applied(s: State, index: nat, items: seq<Item>): Option<State>
    requires RawRows(s.features, items) && index < MAX_SOURCES
  {
    var end := Follow(s.features, index, s.sources[index], items);
    if end.None? || FilterFull(s, MemoryCount(items)) then None
    else if items == [] then Some(s)
    else
      Some(SetSource(s, index, end.value).(sourceDataSeen := true,
        filterRows := if s.features.contextFilter then s.filterRows + MemoryCount(items) else s.filterRows))
  }

  lemma SourceRowNext(f: Features, index: nat, source: Source, item: Item)
    requires RawRow(f, item)
    ensures var r := SourceRow(f, index, source, item);
      r.Some? ==> r.value.next == source.next + 1 <= MAX64 && !r.value.ended && r.value.seen && r.value.data
  {
    hide RawRow, AfterRows, AfterContext, Barred;
  }

  lemma {:induction false} FollowNext(f: Features, index: nat, source: Source, items: seq<Item>)
    requires RawRows(f, items)
    ensures var r := Follow(f, index, source, items);
      r.Some? ==>
        && r.value.next == source.next + |items|
        && (items != [] ==> !r.value.ended && r.value.data && r.value.seen)
  {
    hide SourceRow, RawRow;
    if items == [] {
    } else {
      FollowNext(f, index, source, items[..|items| - 1]);
      assert RawRow(f, items[|items| - 1]);
      var mid := Follow(f, index, source, items[..|items| - 1]);
      if mid.Some? { SourceRowNext(f, index, mid.value, items[|items| - 1]); }
    }
  }

  /** One row on a live stream. */
  lemma RowApplied(s: State, index: nat, item: Item)
    requires Live(s) && RawRow(s.features, item) && index < MAX_SOURCES && s.sources[index].next <= MAX64
    ensures var frame := RowFrame(index, s.sources[index].next, item);
            var end := SourceRow(s.features, index, s.sources[index], item);
      var counted := s.features.contextFilter && item.kind == Memory;
      && WellSized(frame)
      && AcceptSingle(s, frame.header, frame.payload) ==
           if end.None? || (counted && s.filterRows + 1 > MAX64) then None
           else Some(SetSource(s, index, end.value).(sourceDataSeen := true,
                       filterRows := if counted then s.filterRows + 1 else s.filterRows))
  {
    hide AcceptSingle, AfterRows, Joined, RawRow, Barred, AfterContext, Counted, Live, WellSized, PayloadSize;
    RowKind(s.features, item);
    OneJoined(item);
    var first := s.sources[index].next;
    RowSized(s.features, index, first, item);
    SmallRow(s.features, item);
    LiveRuns(s, RowFrame(index, first, item).header);
    if item.kind == AddressContext {
      ContextDecision(s, index, item);
      CountedRow(s, index, AddressContext, AfterContext(s.features, s.sources[index], item));
    } else {
      LastFrame(s.features, index, first, item.kind, item);
      KindFrameDecision(s, index, first, item.kind, [item]);
      CountedRow(s, index, item.kind, AfterRows(s.features, s.sources[index], item.kind, [item]));
    }
  }

  lemma LiveRuns(s: State, h: Header)
    requires Live(s) && h.version == VERSION
    ensures Running(s, h)
  {
  }

  lemma CountedRow(s: State, index: nat, kind: Kind, after: Option<Source>)
    requires index < MAX_SOURCES
    ensures var source := s.sources[index];
      var counted := s.features.contextFilter && kind == Memory;
      Counted(s, index, source.next, kind, 1, after) ==
        if Barred(s.features, index, kind, source) || source.next + 1 > MAX64 || after.None? ||
           (counted && s.filterRows + 1 > MAX64)
        then None
        else Some(SetSource(s, index,
                            after.value.(seen := true, data := true, next := source.next + 1, ended := false)).(
                    sourceDataSeen := true, filterRows := if counted then s.filterRows + 1 else s.filterRows))
  {
    hide Barred;
  }

  lemma SmallRow(f: Features, item: Item)
    requires RawRow(f, item)
    ensures |item.data| <= MAX_PAYLOAD && RawRows(f, [item]) && OneKind([item], item.kind)
  {
    hide SelfSized;
  }

  lemma FollowAppend(f: Features, index: nat, source: Source, items: seq<Item>, x: Item)
    requires RawRows(f, items) && RawRow(f, x)
    ensures RawRows(f, items + [x])
    ensures Follow(f, index, source, items + [x]) ==
      match Follow(f, index, source, items) case None => None case Some(mid) => SourceRow(f, index, mid, x)
    ensures MemoryCount(items + [x]) == MemoryCount(items) + if x.kind == Memory then 1 else 0
  {
    hide SourceRow, RawRow;
    assert (items + [x])[..|items|] == items;
  }

  /** Rows sent one by one act on their source alone. */
  lemma {:induction false} RowsApplied(s: State, index: nat, items: seq<Item>)
    requires Live(s) && RawRows(s.features, items) && index < MAX_SOURCES && s.sources[index].next + |items| <= MAX64
    ensures Sized(RowFrames(index, s.sources[index].next, items))
    ensures AcceptSingles(s, RowFrames(index, s.sources[index].next, items)) == Applied(s, index, items)
  {
    hide AcceptSingle, AcceptSingles, RawRow, SourceRow, Follow, MemoryCount, Applied, RowFrames;
    RowFramesSized(s.features, index, s.sources[index].next, items);
    if items == [] {
      NoRowsApplied(s, index);
    } else {
      var front, x := items[..|items| - 1], items[|items| - 1];
      assert items == front + [x] && RawRow(s.features, x);
      RowsApplied(s, index, front);
      LastRowApplied(s, index, front, x);
    }
  }

  lemma NoRowsApplied(s: State, index: nat)
    requires index < MAX_SOURCES
    ensures AcceptSingles(s, RowFrames(index, s.sources[index].next, [])) == Some(s) == Applied(s, index, [])
  {
    assert RowFrames(index, s.sources[index].next, []) == [];
  }

  lemma LastRowApplied(s: State, index: nat, front: seq<Item>, x: Item)
    requires Live(s) && RawRows(s.features, front) && RawRow(s.features, x) && index < MAX_SOURCES
    requires s.sources[index].next + |front| < MAX64 && Sized(RowFrames(index, s.sources[index].next, front))
    requires AcceptSingles(s, RowFrames(index, s.sources[index].next, front)) == Applied(s, index, front)
    ensures RawRows(s.features, front + [x]) && Sized(RowFrames(index, s.sources[index].next, front + [x]))
    ensures AcceptSingles(s, RowFrames(index, s.sources[index].next, front + [x])) == Applied(s, index, front + [x])
  {
    hide AcceptSingle, AcceptSingles, RawRow, SourceRow, Follow, MemoryCount, RowFrames, Applied;
    var first := s.sources[index].next;
    assert RawRows(s.features, front + [x]) && RawRows(s.features, [x]);
    hide RawRows;
    FramesAppend(index, first, front, [x]);
    RowFramesSized(s.features, index, first, front + [x]);
    RowFramesSized(s.features, index, first + |front|, [x]);
    SinglesAppend(s, RowFrames(index, first, front), RowFrames(index, first + |front|, [x]));
    var t := Applied(s, index, front);
    if t.Some? {
      LastApplied(s, index, front, x, t.value);
      FollowNext(s.features, index, s.sources[index], front);
      AppliedLive(s, index, front, t.value);
      OneRow(t.value, s.features, index, first + |front|, x);
      RowApplied(t.value, index, x);
    } else {
      AppliedNone(s, index, front, x);
    }
  }

  lemma AppliedLive(s: State, index: nat, items: seq<Item>, t: State)
    requires Live(s) && RawRows(s.features, items) && index < MAX_SOURCES && Applied(s, index, items) == Some(t)
    ensures Live(t) && t.features == s.features
  {
    hide Follow, MemoryCount, RawRow;
  }

  lemma AppliedNone(s: State, index: nat, front: seq<Item>, x: Item)
    requires RawRows(s.features, front) && RawRow(s.features, x) && index < MAX_SOURCES
    requires Applied(s, index, front) == None
    ensures RawRows(s.features, front + [x]) && Applied(s, index, front + [x]) == None
  {
    hide Follow, MemoryCount, RawRow, SourceRow;
    FollowAppend(s.features, index, s.sources[index], front, x);
    NothingFollows(s.features, index, s.sources[index]);
  }

  lemma NothingFollows(f: Features, index: nat, source: Source)
    ensures Follow(f, index, source, []) == Some(source) && MemoryCount([]) == 0
  {
  }

  lemma LastApplied(s: State, index: nat, front: seq<Item>, x: Item, t: State)
    requires RawRows(s.features, front) && RawRow(s.features, x) && index < MAX_SOURCES
    requires Applied(s, index, front) == Some(t)
    ensures t.features == s.features && RawRows(s.features, front + [x])
    ensures Follow(s.features, index, s.sources[index], front) == Some(t.sources[index])
    ensures var end, counted := SourceRow(s.features, index, t.sources[index], x), s.features.contextFilter &&
      x.kind == Memory;
      Applied(s, index, front + [x]) ==
        if end.None? || (counted && t.filterRows + 1 > MAX64) then None
        else Some(SetSource(t, index, end.value).(sourceDataSeen := true,
                    filterRows := if counted then t.filterRows + 1 else t.filterRows))
  {
    hide RawRow, SourceRow, Follow, MemoryCount;
    FollowAppend(s.features, index, s.sources[index], front, x);
    NothingFollows(s.features, index, s.sources[index]);
    var end := SourceRow(s.features, index, t.sources[index], x);
    if end.Some? { assert t.sources[index := end.value] == s.sources[index := end.value]; }
  }

  /** A flushed batch that continues its source. */
  lemma BatchApplied(s: State, index: nat, b: Batch, mixed: bool)
    requires Live(s) && Valid(b, mixed) && RawRows(s.features, b.items) && b.items != [] && index < MAX_SOURCES
    requires |b.items| <= b.next && (b.kind == Mixed || RunKind(b.kind)) && s.sources[index].next == b.next - |b.items|
    ensures WellSized(BatchFrame(index, b))
    ensures Accept(s, BatchFrame(index, b)) ==
      if NoTwins(b.items) && (b.kind == Mixed ==> s.features.mixed) then Applied(s, index, b.items) else None
  {
    hide AcceptSingles, Accept, RawRows, NoTwins, Valid, RowFrames, Applied;
    BatchKinds(b, mixed);
    BatchIsRows(s, index, b, mixed);
    RowsApplied(s, index, b.items);
  }
}
