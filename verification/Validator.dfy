/**
What the stream validator accepts, as a function from state and frame to the
next state. Duplicate detection is a set, register baselines are scanned afresh,
and a mixed frame is the list of its runs; the imperative validator in
`StreamChecker` is proved to compute the same thing with a growing hash table,
cached flags and one pass over the bytes.
*/
module Validator {
  import opened Words
  import opened Wire
  import opened Transitions


  datatype Register = Register(width: nat, name: seq<byte>, sampled: bool)
  type RegisterFile = map<nat, Register>

  /** Everything the validator remembers about one vCPU. */
  datatype Source = Source(
    next: nat, seen: bool, data: bool, ended: bool,
    hasContext: bool, contextSequence: nat,
    registers: Option<RegisterFile>,
    windowRows: nat,
    reducedCounts: nat, reducedContexts: nat, lastBlock: nat, hasReduced: bool, summarized: bool)

  datatype Key = Key(source: nat, pair: Pair)

  /** Progress of the current transition window. */
  datatype Windows = Windows(
    next: nat, keys: set<Key>, observed: nat, sources: nat, capacity: nat,
    sourcesSeen: nat, expected: bool, rows: bool)

  datatype Record = Record(
    started: bool, finished: bool, version: nat, features: Features,
    sources: seq<Source>, layoutSeen: bool, sourceDataSeen: bool,
    windows: Windows, reducedSources: nat, reducedCapacity: nat,
    filterSeen: bool, filterRows: nat)

  type State = s: Record | |s.sources| == 256 witness Initial()

  const NO_FEATURES: Features := Features(0, false, false, false, false, false, false, false, false, false, false,
                                          false, false, false, false, false)

  function FreshSource(): Source {
    Source(0, false, false, false, false, 0, None, 0, 0, 0, 0, false, false)
  }

  function Initial(): (s: Record)
    ensures |s.sources| == 256
  {
    Record(false, false, 0, NO_FEATURES, seq(MAX_SOURCES, _ => FreshSource()), false, false,
          Windows(1, {}, 0, 0, 0, 0, false, false), 0, 0, false, 0)
  }

  // ---------------------------------------------------------------- payload rows

  function TransitionRow(b: seq<byte>, row: nat): Row
    requires (row + 1) * TRANSITION_BYTES <= |b|
  {
    Row(Pair(U64(b, row * TRANSITION_BYTES), U64(b, row * TRANSITION_BYTES + 8)), U64(b, row * TRANSITION_BYTES + 16))
  }

  function TransitionRows(b: seq<byte>, count: nat): (rows: seq<Row>)
    requires count * TRANSITION_BYTES <= |b|
    ensures |rows| == count
  {
    seq(count, i requires 0 <= i < count => TransitionRow(b, i))
  }

  /** The bytes of a register name before its terminator. */
  function NameLength(b: seq<byte>, at: nat, length: nat): (n: nat)
    requires at + 64 <= |b| && length <= 64
    ensures length <= n <= 64
    ensures n < 64 ==> b[at + n] == 0
    ensures forall i :: at + length <= i < at + n ==> b[i] != 0
    decreases 64 - length
  {
    if length == 64 || b[at + length] == 0 then length else NameLength(b, at, length + 1)
  }

  predicate ValidName(b: seq<byte>, at: nat)
    requires at + 64 <= |b|
  {
    var length := NameLength(b, at, 0);
    && 0 < length < 64
    && (forall i :: at <= i < at + length ==> 33 <= b[i] <= 126)
    && (forall i :: at + length <= i < at + 64 ==> b[i] == 0)
  }

  /** Declares the schema rows from `row` on, in order. */
  function Declare(regs: RegisterFile, b: seq<byte>, row: nat, count: nat): Option<RegisterFile>
    requires row <= count && count * SCHEMA_BYTES <= |b|
    decreases count - row
  {
    if row == count then Some(regs)
    else
      var at := row * SCHEMA_BYTES;
      var id, width := U32(b, at), U32(b, at + 4);
      var name := b[at + 8..at + 72];
      if id >= MAX_REGISTERS || width == 0 || width > MAX_REGISTER_BYTES || id in regs || !ValidName(b, at + 8) ||
         exists other :: other in regs && regs[other].name == name
      then None
      else Declare(regs[id := Register(width, name, false)], b, row + 1, count)
  }

  datatype Sample = Sample(id: nat, width: nat, phase: nat, baseline: bool)

  /** The register record at `offset`, if it fits and its flags are legal. */
  function SampleAt(b: seq<byte>, offset: nat): Option<Sample>
    requires offset <= |b|
  {
    if |b| - offset < 16 then None
    else
      var id, width, flags := U32(b, offset + 8), U16(b, offset + 12), U16(b, offset + 14);
      if width > |b| - offset - 16 || flags / 256 > 1 || !(1 <= flags % 256 <= 3) then None
      else Some(Sample(id, width, flags % 256, flags / 256 == 1))
  }

  /** The register records of a payload, which must end exactly at its end. */
  function Samples(b: seq<byte>, offset: nat, rows: nat): Option<seq<Sample>>
    requires offset <= |b|
    decreases rows
  {
    if rows == 0 then (if offset == |b| then Some([]) else None)
    else
      match SampleAt(b, offset)
      case None => None
      case Some(sample) =>
        match Samples(b, offset + 16 + sample.width, rows - 1)
        case None => None
        case Some(rest) => Some([sample] + rest)
  }

  /** Applies samples in order; a baseline is legal exactly on a register's first sample. */
  function Apply(regs: RegisterFile, samples: seq<Sample>): Option<RegisterFile> {
    if samples == [] then Some(regs)
    else
      var first := samples[0];
      if first.id !in regs || first.width != regs[first.id].width || first.baseline == regs[first.id].sampled then None
      else Apply(regs[first.id := regs[first.id].(sampled := true)], samples[1..])
  }

  predicate BaselineComplete(registers: Option<RegisterFile>) {
    registers.Some? && forall id :: id in registers.value ==> registers.value[id].sampled
  }

  function MemoryStride(f: Features): nat {
    (if f.systemMemory then 48 else 24) + (if f.memoryValues then 16 else 0)
  }

  predicate ValidMapping(b: seq<byte>, at: nat, width: nat, source: Source)
    requires at + 48 <= |b|
  {
    var physical, mapped, mapping := U64(b, at + 24), U32(b, at + 32), U32(b, at + 36);
    && source.hasContext && U64(b, at + 40) == source.contextSequence
    && (mapping == 0 || mapping == 1 || mapping == 3 || mapping == 7)
    && (mapping == 0 ==> mapped == 0 && physical == 0)
    && (mapping != 0
        ==> 0 < mapped <= width && mapped <= 4096 - U64(b, at + 8) % 4096 && physical + mapped - 1 <= MAX64)
  }

  predicate ValidAccess(b: seq<byte>, at: nat, f: Features, source: Source)
    requires at + MemoryStride(f) <= |b|
  {
    var width, flags := U32(b, at + 16), U32(b, at + 20);
    && PowerOfTwo(width) && flags <= 3
    && (f.systemMemory ==> ValidMapping(b, at, width, source))
    && (f.memoryValues ==> width <= 16)
    && (f.memoryValues ==> forall i :: at + MemoryStride(f) - 16 + width <= i < at + MemoryStride(f) ==> b[i] == 0)
  }

  predicate ValidContext(csBase: nat, mode: nat, known: nat) {
    || (known == 15 && mode == 0 && csBase == 0)
    || (known == 63 && (mode == 16 || mode == 32 || mode == 64))
  }

  function ReducedBlock(b: seq<byte>, row: nat): nat
    requires (row + 1) * REDUCED_CONTEXT_BYTES <= |b|
  {
    U64(b, row * REDUCED_CONTEXT_BYTES)
  }

  predicate ValidReducedRow(b: seq<byte>, row: nat)
    requires (row + 1) * REDUCED_CONTEXT_BYTES <= |b|
  {
    var at := row * REDUCED_CONTEXT_BYTES;
    ValidContext(U64(b, at + 48), U64(b, at + 56), U64(b, at + 64))
  }

  // ---------------------------------------------------------------- frames

  function SetSource(s: State, index: nat, source: Source): State
    requires index < MAX_SOURCES
  {
    s.(sources := s.sources[index := source])
  }

  function KeysOf(source: nat, rows: seq<Row>): set<Key> {
    set i | 0 <= i < |rows| :: Key(source, rows[i].pair)
  }

  /** The rows repeat no pair, name no known key, count something and fit the total bound. */
  predicate NewRows(keys: set<Key>, source: nat, rows: seq<Row>) {
    && (forall i, j :: 0 <= i < j < |rows| ==> rows[i].pair != rows[j].pair)
    && (forall i :: 0 <= i < |rows| ==> Key(source, rows[i].pair) !in keys && rows[i].count > 0)
    && |keys| + |rows| <= MAX_TRANSITION_SLOTS
  }

  /** Transition rows join the open window. */
  function AcceptTransitions(s: State, h: Header, rows: seq<Row>): Option<State>
    requires h.source < MAX_SOURCES && |rows| == h.count
  {
    var w, source := s.windows, s.sources[h.source];
    var action, reduced := s.features.transitionWindows, s.features.observationReduction;
    var sum := SumCounts(rows);
    if (!action && !reduced) || h.sequence != w.next || source.ended || (action && !w.expected) ||
       (reduced && source.summarized) || !NewRows(w.keys, h.source, rows) || w.observed + sum > MAX64 ||
       (reduced && source.reducedCounts + sum > MAX64) || source.windowRows + h.count > MAX_TRANSITION_SLOTS
    then None
    else
      var t := SetSource(s, h.source, source.(windowRows := source.windowRows + h.count,
                 reducedCounts := if reduced then source.reducedCounts + sum else source.reducedCounts));
      Some(t.(windows := w.(keys := w.keys + KeysOf(h.source, rows), observed := w.observed + sum,
                sourcesSeen := if w.sourcesSeen <= h.source then h.source + 1 else w.sourcesSeen, rows := true)))
  }

  /** Retained context rows: strictly increasing block positions, consistent availability. */
  function AcceptReducedContext(s: State, h: Header, b: seq<byte>): Option<State>
    requires h.source < MAX_SOURCES
    requires 0 < h.count && h.count * REDUCED_CONTEXT_BYTES <= |b|
  {
    var source := s.sources[h.source];
    if !s.features.observationReduction || source.ended || source.summarized || h.sequence != source.next ||
       h.sequence + h.count > MAX64 ||
       !(forall i :: 0 <= i < h.count ==> ValidReducedRow(b, i)) ||
       !(forall i :: 0 < i < h.count ==> ReducedBlock(b, i - 1) < ReducedBlock(b, i)) ||
       (source.hasReduced && ReducedBlock(b, 0) <= source.lastBlock) ||
       source.reducedContexts + h.count > MAX_TRANSITION_SLOTS
    then None
    else
      Some(SetSource(s, h.source, source.(lastBlock := ReducedBlock(b, h.count - 1), hasReduced := true,
             reducedContexts := source.reducedContexts + h.count, next := source.next + h.count,
             seen := true, data := true)).(sourceDataSeen := true))
  }

  /** The fields of an observation summary. */
  datatype Reduction = Reduction(
    sources: nat, transitionCapacity: nat, contextCapacity: nat, reserved: nat, blocks: nat, transitions: nat,
    distinct: nat, overflow: nat, changes: nat, retained: nat, contextOverflow: nat)

  function ReductionAt(b: seq<byte>): Reduction
    requires SUMMARY_BYTES <= |b|
  {
    Reduction(U32(b, 0), U32(b, 4), U32(b, 8), U32(b, 12), U64(b, 16), U64(b, 24), U64(b, 32), U64(b, 40),
              U64(b, 48), U64(b, 56), U64(b, 64))
  }

  /** The closing sums of one reduced vCPU. */
  predicate ClosesSource(r: Reduction, index: nat, source: Source) {
    && 0 < r.sources <= MAX_SOURCES && index < r.sources
    && 2 <= r.transitionCapacity && PowerOfTwo(r.transitionCapacity)
    && r.contextCapacity == r.transitionCapacity && r.reserved == 0
    && r.sources * r.transitionCapacity <= MAX_TRANSITION_SLOTS
    && r.transitions == (if r.blocks == 0 then 0 else r.blocks - 1)
    && r.distinct == source.windowRows <= r.transitionCapacity
    && source.reducedCounts + r.overflow == r.transitions
    && r.retained == source.reducedContexts <= r.contextCapacity
    && r.retained + r.contextOverflow == r.changes
    && r.retained == Min(r.changes, r.contextCapacity)
    && r.changes <= r.blocks && (r.blocks != 0 ==> r.changes != 0)
    && (source.hasReduced ==> source.lastBlock < r.blocks)
  }

  function AcceptSummary(s: State, h: Header, b: seq<byte>): Option<State>
    requires h.source < MAX_SOURCES && SUMMARY_BYTES <= |b|
  {
    var source, r := s.sources[h.source], ReductionAt(b);
    if !s.features.observationReduction || source.ended || source.summarized || !ClosesSource(r, h.source, source) ||
       (s.reducedSources != 0 && (s.reducedSources != r.sources || s.reducedCapacity != r.transitionCapacity))
    then None
    else
      Some(SetSource(s, h.source, source.(summarized := true, seen := true)).(
             sourceDataSeen := true, reducedSources := r.sources, reducedCapacity := r.transitionCapacity))
  }

  /** The fields of a transition window summary. */
  datatype WindowTotals = WindowTotals(
    status: nat, sources: nat, capacity: nat, reserved: nat, distinct: nat, observed: nat, overflow: nat)

  function WindowTotalsAt(b: seq<byte>): WindowTotals
    requires WINDOW_BYTES <= |b|
  {
    WindowTotals(U32(b, 0), U32(b, 4), U32(b, 8), U32(b, 12), U64(b, 16), U64(b, 24), U64(b, 32))
  }

  /** The closing sums of one transition window. */
  predicate ClosesWindow(t: WindowTotals, w: Windows, sources: seq<Source>) {
    && 1 <= t.status <= 3 && 0 < t.sources <= MAX_SOURCES
    && 2 <= t.capacity && PowerOfTwo(t.capacity) && t.reserved == 0
    && t.sources * t.capacity <= MAX_TRANSITION_SLOTS
    && (forall i :: 0 <= i < |sources| ==> sources[i].windowRows <= t.capacity)
    && w.sourcesSeen <= t.sources
    && (w.sources != 0 ==> w.sources == t.sources && w.capacity == t.capacity)
    && t.distinct == |w.keys| <= t.sources * t.capacity
    && w.observed + t.overflow == t.observed
  }

  function ClearRows(sources: seq<Source>): (cleared: seq<Source>)
    ensures |cleared| == |sources|
    ensures forall i :: 0 <= i < |sources| ==> cleared[i] == sources[i].(windowRows := 0)
  {
    seq(|sources|, i requires 0 <= i < |sources| => sources[i].(windowRows := 0))
  }

  function AcceptWindow(s: State, h: Header, b: seq<byte>): Option<State>
    requires WINDOW_BYTES <= |b|
  {
    var w, t := s.windows, WindowTotalsAt(b);
    if !s.features.transitionWindows || h.sequence != w.next || !w.expected || !ClosesWindow(t, w, s.sources) ||
       w.next >= MAX64
    then None
    else
      Some(s.(windows := Windows(w.next + 1, {}, 0, t.sources, t.capacity, 0, false, false),
              sources := ClearRows(s.sources)))
  }

  /** The fields of a context filter summary. */
  datatype FilterTotals = FilterTotals(
    policy: nat, latch: nat, source: nat, reserved: nat, cr3: nat, root: nat,
    kept: nat, dropped: nat, matching: nat, foreign: nat, unknown: nat)

  function FilterTotalsAt(b: seq<byte>): FilterTotals
    requires FILTER_BYTES <= |b|
  {
    FilterTotals(U32(b, 0), U32(b, 4), U32(b, 8), U32(b, 12), U64(b, 24), U64(b, 32), U64(b, 40), U64(b, 48),
                 U64(b, 56), U64(b, 64), U64(b, 72))
  }

  /** The filter's policy equations. */
  predicate ClosesFilter(t: FilterTotals, memoryRows: nat) {
    && (t.policy == 1 || t.policy == 2) && (t.latch == 2 || t.latch == 3) && t.reserved == 0
    && t.root == t.cr3 - t.cr3 % 4096
    && t.kept == memoryRows
    && t.kept + t.dropped <= MAX64
    && t.kept + t.dropped == t.matching + t.foreign + t.unknown
    && (t.policy == 1 ==> t.kept == t.matching && t.dropped == t.foreign + t.unknown)
    && (t.policy == 2 ==> t.dropped == 0)
  }

  predicate AllSeenEnded(s: State) {
    forall i :: 0 <= i < |s.sources| ==> (s.sources[i].seen ==> s.sources[i].ended)
  }

  function AcceptFilter(s: State, b: seq<byte>): Option<State>
    requires FILTER_BYTES <= |b|
  {
    var t := FilterTotalsAt(b);
    if !s.features.contextFilter || s.filterSeen || !AllSeenEnded(s) || t.source >= MAX_SOURCES ||
       !s.sources[t.source].seen || !s.sources[t.source].ended || !ClosesFilter(t, s.filterRows)
    then None
    else Some(s.(filterSeen := true))
  }

  /** A kernel boundary needs complete register baselines from every vCPU with data. */
  predicate BoundaryReady(s: State) {
    s.features.registers ==>
      forall i :: 0 <= i < |s.sources| && s.sources[i].data ==>
        && s.sources[i].registers.Some?
        && (|| (s.features.contextFilter && Unsampled(s.sources[i].registers.value))
            || BaselineComplete(s.sources[i].registers))
  }

  predicate Unsampled(regs: RegisterFile) {
    forall id :: id in regs ==> !regs[id].sampled
  }

  function AcceptKernel(s: State, h: Header): Option<State> {
    if !s.features.kernel then None
    else if h.kind != KernelRequest then Some(s)
    else if !BoundaryReady(s) || (s.features.transitionWindows && s.windows.expected) then None
    else Some(if s.features.transitionWindows then s.(windows := s.windows.(expected := true)) else s)
  }

  function AcceptLayout(s: State, b: seq<byte>): Option<State>
    requires LAYOUT_BYTES <= |b|
  {
    if !s.features.executableLayout || s.layoutSeen || s.sourceDataSeen || U64(b, 0) >= U64(b, 8) then None
    else Some(s.(layoutSeen := true))
  }

  function AcceptComplete(s: State): Option<State>
  {
    if (s.features.transitionWindows && (s.windows.rows || s.windows.expected)) ||
       (exists i :: 0 <= i < MAX_SOURCES && i < s.windows.sources && !s.sources[i].ended) ||
       !AllSeenEnded(s) ||
       (s.features.observationReduction &&
          (s.reducedSources == 0 ||
           exists i :: 0 <= i < MAX_SOURCES && i < s.reducedSources &&
             (!s.sources[i].summarized || !s.sources[i].ended))) ||
       (s.features.contextFilter && !s.filterSeen)
    then None
    else Some(s.(finished := true))
  }

  function AcceptSchema(s: State, h: Header, b: seq<byte>): Option<State>
    requires h.source < MAX_SOURCES && h.count * SCHEMA_BYTES <= |b|
  {
    var source := s.sources[h.source];
    if !s.features.registers || source.data then None
    else
      match Declare(if source.registers.Some? then source.registers.value else map[], b, 0, h.count)
      case None => None
      case Some(regs) => Some(SetSource(s, h.source, source.(registers := Some(regs), seen := true)))
  }

  /** The state a row-carrying frame leaves in its vCPU before the common bookkeeping. */
  function AcceptRows(s: State, h: Header, b: seq<byte>): Option<Source>
    requires h.source < MAX_SOURCES
    requires h.kind == AddressContext ==> CONTEXT_BYTES <= |b|
    requires h.kind == Memory ==> |b| == h.detail
  {
    var f, source := s.features, s.sources[h.source];
    match h.kind
    case AddressContext =>
      if !f.addressContext || !ValidContext(U64(b, 40), U64(b, 48), U64(b, 56)) then None
      else Some(source.(hasContext := true, contextSequence := h.sequence))
    case Blocks =>
      if f.addressContext && !source.hasContext then None else Some(source)
    case Registers =>
      if (f.addressContext && !source.hasContext) || !f.registers || source.registers.None? then None
      else
        (match Samples(b, 0, h.count)
         case None => None
         case Some(samples) =>
           match Apply(source.registers.value, samples)
           case None => None
           case Some(regs) => Some(source.(registers := Some(regs))))
    case Memory =>
      if !f.memory || h.detail != h.count * MemoryStride(f) ||
         !(forall i :: 0 <= i < h.count ==> ValidAccess(b, i * MemoryStride(f), f, source))
      then None
      else Some(source)
    case _ => Some(source)
  }

  predicate NeedsBaseline(s: State, h: Header)
    requires h.source < |s.sources|
  {
    && s.features.registers && !s.features.contextFilter
    && (h.kind == Blocks || h.kind == Memory || h.kind == InputRequest ||
        (h.kind == SourceEnd && s.sources[h.source].data))
  }

  /** Frames that carry a vCPU's sequence numbers. */
  predicate Sequenced(kind: Kind) {
    kind == Blocks || kind == Registers || kind == Memory || kind == AddressContext ||
    kind == InputRequest || kind == SourceEnd
  }

  /** The bookkeeping common to all row-carrying frames. */
  function Advance(s: State, h: Header, after: Source): Option<State>
    requires h.source < MAX_SOURCES
  {
    var counted := s.features.contextFilter && h.kind == Memory;
    if counted && s.filterRows + h.count > MAX64 then None
    else
      Some(SetSource(s, h.source, after.(seen := true, data := true, next := s.sources[h.source].next + h.count,
             ended := h.kind == SourceEnd)).(
             sourceDataSeen := true, filterRows := if counted then s.filterRows + h.count else s.filterRows))
  }

  /** A frame that continues its source's sequence. */
  function AcceptSequenced(s: State, h: Header, b: seq<byte>): Option<State>
    requires LegalHeader(h) && |b| == PayloadSize(h) && Sequenced(h.kind)
  {
    var source := s.sources[h.source];
    if h.sequence != source.next || h.sequence + h.count > MAX64 ||
       (NeedsBaseline(s, h) && !BaselineComplete(source.registers))
    then None
    else
      match AcceptRows(s, h, b)
      case None => None
      case Some(after) => Advance(s, h, after)
  }

  function AcceptSource(s: State, h: Header, b: seq<byte>): Option<State>
    requires LegalHeader(h) && |b| == PayloadSize(h)
    requires h.kind == RegisterSchema || Sequenced(h.kind)
  {
    var f, source := s.features, s.sources[h.source];
    if (f.stdio && h.source != 0) || (h.kind == InputRequest && !f.stdio) ||
       (f.observationReduction && (h.kind == Blocks || h.kind == AddressContext)) || source.ended ||
       (f.observationReduction && h.kind == SourceEnd && !source.summarized)
    then None
    else if h.kind == RegisterSchema then AcceptSchema(s, h, b)
    else AcceptSequenced(s, h, b)
  }

  /** Any frame other than a mixed one. */
  function AcceptSingle(s: State, h: Header, b: seq<byte>): Option<State>
    requires |b| == PayloadSize(h)
  {
    if !LegalHeader(h) || h.kind == Mixed || s.finished || (s.started && h.version != s.version) then None
    else if !s.started then
      if h.kind == TerminalReport then Some(s.(version := h.version, finished := true))
      else if h.kind == Hello then Some(s.(started := true, version := h.version, features := FeaturesOf(h.detail)))
      else None
    else if h.kind == ExecutableLayout then AcceptLayout(s, b)
    else if s.features.executableLayout && !s.layoutSeen && h.kind != RegisterSchema && h.kind != Error then None
    else if h.kind == KernelRequest || h.kind == GuestEvent then AcceptKernel(s, h)
    else if h.kind == BlockTransitions then AcceptTransitions(s, h, TransitionRows(b, h.count))
    else if h.kind == ReducedContext then AcceptReducedContext(s, h, b)
    else if h.kind == ObservationSummary then AcceptSummary(s, h, b)
    else if h.kind == TransitionWindow then AcceptWindow(s, h, b)
    else if h.kind == ContextFilter then AcceptFilter(s, b)
    else if h.kind == Error || h.kind == TerminalReport then Some(s.(finished := true))
    else if h.kind == Complete then AcceptComplete(s)
    else if h.kind == RegisterSchema || Sequenced(h.kind) then AcceptSource(s, h, b)
    else None
  }

  // ---------------------------------------------------------------- mixed frames

  /** One run of a mixed payload: a kind, a row count and the rows' bytes. */
  datatype Run = Run(kind: Kind, rows: nat, data: seq<byte>)

  predicate RunKind(kind: Kind) {
    kind == Blocks || kind == Registers || kind == Memory || kind == AddressContext
  }

  predicate SizedRun(run: Run) {
    RunKind(run.kind) && (run.kind == Blocks ==> |run.data| == run.rows * 8)
  }

  predicate SizedRuns(runs: seq<Run>) {
    forall i :: 0 <= i < |runs| ==> SizedRun(runs[i])
  }

  /** The runs from `offset` on, which must cover the payload and use up `rows` rows. */
  function RunsAt(b: seq<byte>, offset: nat, rows: nat): (r: Option<seq<Run>>)
    requires offset <= |b|
    ensures r.Some? ==> SizedRuns(r.value)
    decreases |b| - offset
  {
    if offset == |b| then (if rows == 0 then Some([]) else None)
    else if |b| - offset < 8 then None
    else
      var kind, count, size := KindOf(U16(b, offset)), U16(b, offset + 2), U32(b, offset + 4);
      if !RunKind(kind) || count == 0 || count > rows || size > |b| - offset - 8 ||
         (kind == Blocks && size != count * 8)
      then None
      else
        match RunsAt(b, offset + 8 + size, rows - count)
        case None => None
        case Some(rest) => Some([Run(kind, count, b[offset + 8..offset + 8 + size])] + rest)
  }

  /** A frame whose payload has the size its header promises. */
  predicate WellSized(frame: Frame) {
    |frame.payload| == PayloadSize(frame.header)
  }

  /** The frame a run would be if it were sent on its own. */
  function RunFrame(h: Header, first: nat, run: Run): (frame: Frame)
    requires SizedRun(run)
    ensures WellSized(frame)
  {
    Frame(Header(run.kind, h.source, run.rows, first, if run.kind == Blocks then 0 else |run.data|, h.version),
          run.data)
  }

  function RowTotal(runs: seq<Run>): nat {
    if runs == [] then 0 else RowTotal(runs[..|runs| - 1]) + runs[|runs| - 1].rows
  }

  /** The runs as separate frames, numbered on from the mixed frame's own sequence. */
  function RunFrames(h: Header, runs: seq<Run>): (frames: seq<Frame>)
    requires SizedRuns(runs)
    ensures |frames| == |runs|
    ensures forall i :: 0 <= i < |frames| ==> WellSized(frames[i])
  {
    if runs == [] then []
    else
      var front, last := runs[..|runs| - 1], runs[|runs| - 1];
      RunFrames(h, front) + [RunFrame(h, h.sequence + RowTotal(front), last)]
  }

  function AcceptSingles(s: State, frames: seq<Frame>): Option<State>
    requires forall i :: 0 <= i < |frames| ==> WellSized(frames[i])
  {
    if frames == [] then Some(s)
    else
      var front, last := frames[..|frames| - 1], frames[|frames| - 1];
      assert WellSized(last);
      match AcceptSingles(s, front)
      case None => None
      case Some(t) => AcceptSingle(t, last.header, last.payload)
  }

  /** The frames a mixed frame stands for; none if its payload does not parse. */
  function Expand(frame: Frame): (frames: Option<seq<Frame>>)
    requires WellSized(frame)
    ensures frames.Some? ==> forall i :: 0 <= i < |frames.value| ==> WellSized(frames.value[i])
  {
    if frame.header.kind != Mixed then Some([frame])
    else if !LegalHeader(frame.header) then None
    else
      match RunsAt(frame.payload, 0, frame.header.count)
      case None => None
      case Some(runs) => Some(RunFrames(frame.header, runs))
  }

  function Accept(s: State, frame: Frame): Option<State>
    requires WellSized(frame)
  {
    var h := frame.header;
    if h.kind != Mixed then AcceptSingle(s, h, frame.payload)
    else if !LegalHeader(h) || s.finished || !s.started || h.version != s.version || !s.features.mixed then None
    else
      match Expand(frame)
      case None => None
      case Some(frames) => AcceptSingles(s, frames)
  }

  /** A whole trace. */
  function AcceptAll(s: State, frames: seq<Frame>): Option<State>
    requires forall i :: 0 <= i < |frames| ==> WellSized(frames[i])
  {
    if frames == [] then Some(s)
    else
      var front, last := frames[..|frames| - 1], frames[|frames| - 1];
      assert WellSized(last);
      match AcceptAll(s, front)
      case None => None
      case Some(t) => Accept(t, last)
  }

  // ---------------------------------------------------------------- key sets

  lemma KeysStep(source: nat, rows: seq<Row>, r: nat)
    requires r < |rows|
    ensures KeysOf(source, rows[..r + 1]) == KeysOf(source, rows[..r]) + {Key(source, rows[r].pair)}
  {
    var a, c := rows[..r], rows[..r + 1];
    forall k | k in KeysOf(source, c) ensures k in KeysOf(source, a) + {Key(source, rows[r].pair)} {
      var i :| 0 <= i < |c| && k == Key(source, c[i].pair);
      if i < r { assert k == Key(source, a[i].pair); }
    }
    forall k | k in KeysOf(source, a) ensures k in KeysOf(source, c) {
      var i :| 0 <= i < |a| && k == Key(source, a[i].pair);
      assert k == Key(source, c[i].pair);
    }
    assert Key(source, c[r].pair) in KeysOf(source, c);
  }

  lemma FreshKey(source: nat, rows: seq<Row>, pair: Pair)
    ensures Key(source, pair) !in KeysOf(source, rows) <==> forall i :: 0 <= i < |rows| ==> rows[i].pair != pair
  {
    forall i | 0 <= i < |rows| ensures Key(source, rows[i].pair) in KeysOf(source, rows) {}
  }
}
